/** The standardize use case: looks the document up, gives it the submitted lesson-plan
    data, writes its standardized page, marks it and stores it, in that order. */
module StandardizeDocument {
  import opened Wrappers
  import opened JsText
  import opened DocumentIdVo
  import opened LessonPlanDataVo
  import opened DocumentEntity
  import opened DocumentRepositoryStore
  import opened DocumentResponse
  import opened PageLayout
  import opened StandardizedPdf

  /** Where the standardized page of a document is written. */
  function StandardizedPath(documentId: string): string {
    "uploads/standardized/" + documentId + "-standardized.pdf"
  }

  /** The path is never blank, so marking the document with it cannot fail. */
  lemma StandardizedPathNotBlank(documentId: string)
    ensures !IsBlank(StandardizedPath(documentId))
  {
    NotBlankWhenLeadingVisible(StandardizedPath(documentId));
  }

  /** The document as the generator receives it: the stored one with the submitted data. */
  function WithData(stored: DocumentProps, data: LessonPlanDataProps, now: Timestamp): DocumentProps {
    stored.(lessonPlanData := Some(LessonPlanData(data)), updatedAt := now)
  }

  /** The document as it is stored afterwards: with the data, and marked standardized. */
  function Marked(stored: DocumentProps, data: LessonPlanDataProps, now: Timestamp): DocumentProps {
    WithData(stored, data, now).(standardizedFilePath := Some(StandardizedPath(stored.id.value)),
                                 standardizedAt := Some(now), updatedAt := now)
  }

  /** What the use case answers once it succeeds: standardized, with the lesson-plan flag
      telling whether the submitted data has content. */
  lemma MarkedResponse(stored: DocumentProps, data: LessonPlanDataProps, now: Timestamp)
    ensures var dto := ToDto(Marked(stored, data, now));
      && dto.isStandardized
      && dto.standardizedFilePath == Some(StandardizedPath(stored.id.value))
      && dto.hasLessonPlanData == !LessonPlanData(data).IsEmpty()
      && dto.lessonPlanData == Some(data)
  {
  }

  /** The row standardizing leaves: marked standardized with this run's path and time, the
      submitted lists (`[]` for a list left out), and each submitted lesson-plan string; a
      string the submission leaves out keeps the value an earlier run stored. Everything
      else is as stored. */
  lemma StandardizedRow(stored: DocumentProps, data: LessonPlanDataProps, now: Timestamp)
    ensures var row := UpdatedRow(stored, Marked(stored, data, now));
      var prior := DataFields(stored.lessonPlanData);
      && row.(lessonPlanData := None, standardizedFilePath := None, standardizedAt := None, updatedAt := 0)
         == stored.(lessonPlanData := None, standardizedFilePath := None, standardizedAt := None, updatedAt := 0)
      && row.standardizedFilePath == Some(StandardizedPath(stored.id.value))
      && row.standardizedAt == Some(now) && row.updatedAt == now
      && row.lessonPlanData.Some?
      && row.lessonPlanData.value.props == data.(
           objectives := Some(LessonPlanData(data).GetObjectives()),
           activities := Some(LessonPlanData(data).GetActivities()),
           evaluation := Written(data.evaluation, prior.evaluation),
           resources := Written(data.resources, prior.resources),
           duration := Written(data.duration, prior.duration),
           targetAudience := Written(data.targetAudience, prior.targetAudience),
           subject := Written(data.subject, prior.subject))
  {
  }

  /** Standardizing again with fewer fields leaves the earlier evaluation in the table,
      while the response shows the submission alone. */
  lemma StaleEvaluationSurvives(stored: DocumentProps, data: LessonPlanDataProps, now: Timestamp)
    requires stored.lessonPlanData.Some? && stored.lessonPlanData.value.props.evaluation == Some("Prova")
    requires data == LessonPlanDataProps(Some(["x"]), None, None, None, None, None, None)
    ensures UpdatedRow(stored, Marked(stored, data, now)).lessonPlanData.value.props.evaluation == Some("Prova")
    ensures ToDto(Marked(stored, data, now)).lessonPlanData == Some(data)
  {
    StandardizedRow(stored, data, now);
  }

  class StandardizeDocumentUseCase {
    const repository: DocumentRepository
    const generator: StandardizedPdfGenerator
    const disk: Disk

    constructor (repository: DocumentRepository, generator: StandardizedPdfGenerator, disk: Disk)
      ensures this.repository == repository && this.generator == generator && this.disk == disk
    {
      this.repository := repository;
      this.generator := generator;
      this.disk := disk;
    }

    /** `execute`. `now` is the clock reading of the two entity updates, `date` the
        printed date on the page, `generationFails` whether drawing or writing the page throws. */
    method Execute(documentId: string, data: LessonPlanDataProps, now: Timestamp, date: string, generationFails: bool)
      returns (r: Result<DocumentResponseDto, Error>)
      requires repository.Valid()
      modifies repository, disk
      ensures repository.Valid()
      ensures NewDocumentId(documentId).Failure? ==> r == Failure(NewDocumentId(documentId).error)
      ensures NewDocumentId(documentId).Success? && documentId !in old(repository.rows) ==>
        r == Failure(AppError("Document not found", 404))
      ensures NewDocumentId(documentId).Success? && documentId in old(repository.rows) && generationFails ==>
        r == Failure(GenerationError)
      ensures r.Success? <==> NewDocumentId(documentId).Success? && documentId in old(repository.rows) && !generationFails
      ensures r.Failure? ==>
        && repository.rows == old(repository.rows) && repository.log == old(repository.log)
        && disk.files == old(disk.files)
      ensures r.Success? ==> var stored := old(repository.rows)[documentId];
        var given := WithData(stored, data, now);
        var marked := Marked(stored, data, now);
        && disk.files == old(disk.files)[StandardizedPath(documentId) :=
             Layout(given.title, given.description, given.lessonPlanData, date)]
        && repository.rows == old(repository.rows)[documentId := UpdatedRow(stored, marked)]
        && repository.log == old(repository.log) + [UpdatedRow(stored, marked)]
        && r.value == ToDto(marked)
    {
      var id := NewDocumentId(documentId);
      if id.Failure? {
        return Failure(id.error);
      }
      var found := repository.FindById(id.value);
      if found.None? {
        return Failure(AppError("Document not found", 404));
      }
      var document := found.value;
      document.UpdateLessonPlanData(data, now);
      var path := StandardizedPath(documentId);
      var generated := generator.Generate(document, path, disk, date, generationFails);
      if generated.Fail? {
        return Failure(generated.error);
      }
      StandardizedPathNotBlank(documentId);
      var marked := document.MarkAsStandardized(path, now);
      var updated := repository.Update(document);
      r := Success(ToDto(document.props));
    }
  }
}
