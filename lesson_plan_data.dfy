/** The `LessonPlanData` value object: read-only lesson-plan fields with defaulting getters. */
module LessonPlanDataVo {
  import opened Wrappers
  import opened JsText

  /** The constructor's input record; every field may be absent. */
  datatype LessonPlanDataProps = LessonPlanDataProps(
    objectives: Option<seq<string>>,
    activities: Option<seq<string>>,
    evaluation: Option<string>,
    resources: Option<string>,
    duration: Option<string>,
    targetAudience: Option<string>,
    subject: Option<string>)

  /** An absent or zero-length list: what `!list?.length` is true of. */
  predicate NoItems(o: Option<seq<string>>) {
    o.None? || |o.value| == 0
  }

  /** The value object keeps `props` as given; being a value, nothing can change it later,
      so every getter returns the same result on every call. */
  datatype LessonPlanData = LessonPlanData(props: LessonPlanDataProps) {

    /** `props.objectives || []`: an array is truthy even when empty. */
    function GetObjectives(): (r: seq<string>)
      ensures props.objectives.Some? ==> r == props.objectives.value
      ensures props.objectives.None? ==> r == []
    {
      match props.objectives
      case Some(items) => items
      case None => []
    }

    function GetActivities(): (r: seq<string>)
      ensures props.activities.Some? ==> r == props.activities.value
      ensures props.activities.None? ==> r == []
    {
      match props.activities
      case Some(items) => items
      case None => []
    }

    function GetEvaluation(): Option<string> {
      props.evaluation
    }

    function GetResources(): Option<string> {
      props.resources
    }

    function GetDuration(): Option<string> {
      props.duration
    }

    function GetTargetAudience(): Option<string> {
      props.targetAudience
    }

    function GetSubject(): Option<string> {
      props.subject
    }

    /** `{ ...props }`: a copy equal field for field to the constructor input. */
    function ToJson(): LessonPlanDataProps {
      props
    }

    /** No objectives, no activities, no evaluation and no resources; the other
        three fields are not consulted. */
    predicate IsEmpty() {
      && NoItems(props.objectives)
      && NoItems(props.activities)
      && !Truthy(props.evaluation)
      && !Truthy(props.resources)
    }
  }

  /** `isEmpty` in terms of what the getters return. */
  lemma IsEmptyByGetters(d: LessonPlanData)
    ensures d.IsEmpty() <==>
      d.GetObjectives() == [] && d.GetActivities() == [] &&
      OrEmpty(d.GetEvaluation()) == "" && OrEmpty(d.GetResources()) == ""
  {
  }

  /** Duration, target audience and subject do not take part in `isEmpty`:
      data that sets only those is still empty. */
  lemma IsEmptyIgnoresScalars(p: LessonPlanDataProps, duration: Option<string>,
                              targetAudience: Option<string>, subject: Option<string>)
    ensures LessonPlanData(p.(duration := duration, targetAudience := targetAudience, subject := subject)).IsEmpty()
            == LessonPlanData(p).IsEmpty()
    ensures LessonPlanData(LessonPlanDataProps(None, None, None, None, duration, targetAudience, subject)).IsEmpty()
  {
  }

  /** Built from `p`, the value hands back each of `p`'s fields: the two lists, or `[]`
      when absent, and the five optional strings as given, absence included. */
  lemma GettersReturnStored(p: LessonPlanDataProps)
    ensures var d := LessonPlanData(p);
      && d.GetObjectives() == (if p.objectives.Some? then p.objectives.value else [])
      && d.GetActivities() == (if p.activities.Some? then p.activities.value else [])
      && d.GetEvaluation() == p.evaluation && d.GetResources() == p.resources
      && d.GetDuration() == p.duration && d.GetTargetAudience() == p.targetAudience
      && d.GetSubject() == p.subject
  {
  }

  /** `toJSON` round-trips the constructor input. */
  lemma ToJsonRoundTrip(p: LessonPlanDataProps)
    ensures LessonPlanData(p).ToJson() == p
    ensures LessonPlanData(LessonPlanData(p).ToJson()) == LessonPlanData(p)
  {
  }
}
