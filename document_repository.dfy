/** The document repository: a map from identifier to the stored document, standing in
    for the database table behind `save`, `findById` and `update`. */
module DocumentRepositoryStore {
  import opened Wrappers
  import opened DocumentIdVo
  import opened LessonPlanDataVo
  import opened DocumentEntity

  /** A field of `update`'s data: a present value is written, an absent one (`undefined`)
      leaves the column as it was stored. */
  function Written<T>(given: Option<T>, stored: Option<T>): (r: Option<T>)
    ensures r.Some? <==> given.Some? || stored.Some?
    ensures given.Some? ==> r == given
  {
    if given.Some? then given else stored
  }

  /** The lesson-plan fields of an optional value, all absent when there is none:
      what `lessonPlanData?.getEvaluation()` and its siblings read. */
  function DataFields(o: Option<LessonPlanData>): LessonPlanDataProps {
    if o.Some? then o.value.props else LessonPlanDataProps(None, None, None, None, None, None, None)
  }

  /** A list column as `save` and `update` write it: `null` without data, otherwise the
      JSON of the getter, which is `[]` for an absent list. */
  function ListColumn(o: Option<LessonPlanData>, objectives: bool): (r: Option<seq<string>>)
    ensures r.None? <==> o.None?
    ensures o.Some? && objectives ==> r == Some(o.value.GetObjectives())
    ensures o.Some? && !objectives ==> r == Some(o.value.GetActivities())
  {
    match o
    case None => None
    case Some(d) => Some(if objectives then d.GetObjectives() else d.GetActivities())
  }

  /** The lesson-plan data as `save` writes its columns: both lists through their getters,
      the five strings as they are. */
  function StoredData(o: Option<LessonPlanData>): (r: Option<LessonPlanData>)
    ensures r.None? <==> o.None?
    ensures r.Some? ==>
      && r.value.props.objectives == Some(o.value.GetObjectives())
      && r.value.props.activities == Some(o.value.GetActivities())
      && r.value.GetObjectives() == o.value.GetObjectives()
      && r.value.GetActivities() == o.value.GetActivities()
      && r.value.IsEmpty() == o.value.IsEmpty()
      && r.value.props.(objectives := None, activities := None) == o.value.props.(objectives := None, activities := None)
  {
    match o
    case None => None
    case Some(d) =>
      Some(LessonPlanData(d.props.(objectives := ListColumn(o, true), activities := ListColumn(o, false))))
  }

  /** The row `save` writes: the document as it stands, its lesson-plan lists as their
      getters give them. */
  function SavedRow(p: DocumentProps): (r: DocumentProps)
    ensures r.lessonPlanData == StoredData(p.lessonPlanData)
    ensures r.(lessonPlanData := None) == p.(lessonPlanData := None)
    ensures p.lessonPlanData.None? ==> r == p
    ensures Validate(r) == Validate(p)
  {
    p.(lessonPlanData := StoredData(p.lessonPlanData))
  }

  /** The lesson-plan columns `update` leaves. The two lists are always written, as `null`
      when the document has no data and through their getters when it has; the five strings
      are written only when present. */
  function UpdatedData(stored: Option<LessonPlanData>, given: Option<LessonPlanData>): (r: Option<LessonPlanData>)
    ensures r.None? <==> stored.None? && given.None?
    ensures r.Some? ==>
      var s := DataFields(stored); var g := DataFields(given); var q := r.value.props;
      && q.objectives == ListColumn(given, true) && q.activities == ListColumn(given, false)
      && q.evaluation == Written(g.evaluation, s.evaluation)
      && q.resources == Written(g.resources, s.resources)
      && q.duration == Written(g.duration, s.duration)
      && q.targetAudience == Written(g.targetAudience, s.targetAudience)
      && q.subject == Written(g.subject, s.subject)
  {
    if stored.None? && given.None? then None
    else
      var s := DataFields(stored);
      var g := DataFields(given);
      Some(LessonPlanData(LessonPlanDataProps(
        ListColumn(given, true), ListColumn(given, false),
        Written(g.evaluation, s.evaluation), Written(g.resources, s.resources),
        Written(g.duration, s.duration), Written(g.targetAudience, s.targetAudience),
        Written(g.subject, s.subject))))
  }

  /** The row `update` leaves. Identifier, file name, path, type and creation time are not
      written; title and `updatedAt` always are; every optional field is written only when
      the document has it, so an absent field never clears a stored value. */
  function UpdatedRow(stored: DocumentProps, p: DocumentProps): (r: DocumentProps)
    ensures r.id == stored.id && r.originalFileName == stored.originalFileName
    ensures r.originalFilePath == stored.originalFilePath && r.originalFileType == stored.originalFileType
    ensures r.createdAt == stored.createdAt
    ensures r.title == p.title && r.updatedAt == p.updatedAt
    ensures p.description.Some? ==> r.description == p.description
    ensures p.description.None? ==> r.description == stored.description
    ensures p.standardizedFilePath.Some? ==> r.standardizedFilePath == p.standardizedFilePath
    ensures p.standardizedFilePath.None? ==> r.standardizedFilePath == stored.standardizedFilePath
    ensures p.standardizedAt.Some? ==> r.standardizedAt == p.standardizedAt
    ensures p.standardizedAt.None? ==> r.standardizedAt == stored.standardizedAt
    ensures r.lessonPlanData == UpdatedData(stored.lessonPlanData, p.lessonPlanData)
  {
    stored.(title := p.title,
            description := Written(p.description, stored.description),
            lessonPlanData := UpdatedData(stored.lessonPlanData, p.lessonPlanData),
            standardizedFilePath := Written(p.standardizedFilePath, stored.standardizedFilePath),
            standardizedAt := Written(p.standardizedAt, stored.standardizedAt),
            updatedAt := p.updatedAt)
  }

  /** A document read from the row, whose optional fields are all present, is stored as
      `save` would store it: with nothing absent, nothing stale can survive. */
  lemma UpdateOfCompleteDocument(stored: DocumentProps, p: DocumentProps)
    requires p.id == stored.id && p.originalFileName == stored.originalFileName
    requires p.originalFilePath == stored.originalFilePath && p.originalFileType == stored.originalFileType
    requires p.createdAt == stored.createdAt
    requires p.description.Some? && p.standardizedFilePath.Some? && p.standardizedAt.Some?
    requires p.lessonPlanData.Some?
    requires var d := p.lessonPlanData.value.props;
      d.evaluation.Some? && d.resources.Some? && d.duration.Some? && d.targetAudience.Some? && d.subject.Some?
    ensures UpdatedRow(stored, p) == SavedRow(p)
  {
    assert UpdatedData(stored.lessonPlanData, p.lessonPlanData).value.props
        == StoredData(p.lessonPlanData).value.props;
  }

  /** Data whose lists are absent is stored with both lists `[]`, by `save` and by `update`
      alike, as `JSON.stringify` of the getters writes them. */
  lemma AbsentListStoredAsEmpty(stored: DocumentProps, p: DocumentProps)
    requires p.lessonPlanData.Some?
    requires p.lessonPlanData.value.props.objectives.None? && p.lessonPlanData.value.props.activities.None?
    ensures SavedRow(p).lessonPlanData.Some?
    ensures SavedRow(p).lessonPlanData.value.props.objectives == Some([])
    ensures SavedRow(p).lessonPlanData.value.props.activities == Some([])
    ensures UpdatedRow(stored, p).lessonPlanData.Some?
    ensures UpdatedRow(stored, p).lessonPlanData.value.props.objectives == Some([])
    ensures UpdatedRow(stored, p).lessonPlanData.value.props.activities == Some([])
  {
  }

  /** An absent field does not clear the stored one: a row whose data had an evaluation
      keeps it when a document with data but no evaluation is written over it. */
  lemma AbsentFieldKeepsStoredValue(stored: DocumentProps, p: DocumentProps)
    requires stored.lessonPlanData.Some? && stored.lessonPlanData.value.props.evaluation.Some?
    requires p.lessonPlanData.Some? && p.lessonPlanData.value.props.evaluation.None?
    ensures UpdatedRow(stored, p).lessonPlanData.Some?
    ensures UpdatedRow(stored, p).lessonPlanData.value.props.evaluation == stored.lessonPlanData.value.props.evaluation
    ensures UpdatedRow(stored, p).lessonPlanData != p.lessonPlanData
  {
  }

  /** The row `update` leaves passes `validate`: its title comes from a valid document,
      its file name and path from a valid row. */
  lemma UpdatedRowValid(stored: DocumentProps, p: DocumentProps)
    requires Validate(stored).Pass? && Validate(p).Pass?
    ensures Validate(UpdatedRow(stored, p)).Pass?
  {
  }

  /** Each row sits under its own identifier and passes `validate`. */
  ghost predicate ValidRows(rows: map<string, DocumentProps>) {
    forall k :: k in rows ==> rows[k].id.value == k && Validate(rows[k]).Pass?
  }

  /** Storing a valid row under its own identifier keeps the table valid. */
  lemma PutKeepsValid(rows: map<string, DocumentProps>, key: string, row: DocumentProps)
    requires ValidRows(rows) && row.id.value == key && Validate(row).Pass?
    ensures ValidRows(rows[key := row])
  {
    var next := rows[key := row];
    forall k | k in next
      ensures next[k].id.value == k && Validate(next[k]).Pass?
    {
      if k != key {
        assert next[k] == rows[k];
      }
    }
  }

  class DocumentRepository {
    /** The table, keyed by the identifier's string. */
    var rows: map<string, DocumentProps>
    /** Every row written by `save` or `update`, in order. */
    ghost var log: seq<DocumentProps>

    /** The table is valid. */
    ghost predicate Valid()
      reads this
    {
      ValidRows(rows)
    }

    constructor ()
      ensures rows == map[] && log == [] && Valid()
    {
      rows := map[];
      log := [];
    }

    /** `save`: inserts a new row; an identifier already stored violates the key and
        nothing changes. */
    method Save(document: Document) returns (r: Outcome<Error>)
      requires Valid() && document.Valid()
      modifies this
      ensures Valid()
      ensures r.Pass? <==> document.props.id.value !in old(rows)
      ensures r.Fail? ==> r.error == StorageError && rows == old(rows) && log == old(log)
      ensures r.Pass? ==> rows == old(rows)[document.props.id.value := SavedRow(document.props)]
      ensures r.Pass? ==> log == old(log) + [SavedRow(document.props)]
    {
      var key := document.props.id.value;
      if key in rows {
        return Fail(StorageError);
      }
      var row := SavedRow(document.props);
      PutKeepsValid(rows, key, row);
      rows := rows[key := row];
      log := log + [row];
      r := Pass;
    }

    /** `findById`: a new `Document` rebuilt from the stored row, or nothing. */
    method FindById(id: DocumentId) returns (r: Option<Document>)
      requires Valid()
      ensures r.Some? <==> id.value in rows
      ensures r.Some? ==> fresh(r.value) && r.value.Valid() && r.value.props == rows[id.value]
    {
      if id.value !in rows {
        return None;
      }
      var document := new Document(rows[id.value]);
      r := Some(document);
    }

    /** `update`: rewrites the mutable fields of an existing row; a missing row is an error
        and nothing changes. */
    method Update(document: Document) returns (r: Outcome<Error>)
      requires Valid() && document.Valid()
      modifies this
      ensures Valid()
      ensures r.Pass? <==> document.props.id.value in old(rows)
      ensures r.Fail? ==> r.error == StorageError && rows == old(rows) && log == old(log)
      ensures r.Pass? ==> var key := document.props.id.value;
        && rows == old(rows)[key := UpdatedRow(old(rows)[key], document.props)]
        && log == old(log) + [UpdatedRow(old(rows)[key], document.props)]
    {
      var key := document.props.id.value;
      if key !in rows {
        return Fail(StorageError);
      }
      var row := UpdatedRow(rows[key], document.props);
      UpdatedRowValid(rows[key], document.props);
      PutKeepsValid(rows, key, row);
      rows := rows[key := row];
      log := log + [row];
      r := Pass;
    }
  }
}
