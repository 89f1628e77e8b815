/** `toDTO` of the upload and standardize use cases: the response record built from a document. */
module DocumentResponse {
  import opened Wrappers
  import opened JsText
  import opened DocumentIdVo
  import opened FileTypeVo
  import opened LessonPlanDataVo
  import opened DocumentEntity

  datatype DocumentResponseDto = DocumentResponseDto(
    id: string,
    title: string,
    description: Option<string>,
    originalFileName: string,
    originalFilePath: string,
    originalFileType: string,
    lessonPlanData: Option<LessonPlanDataProps>,
    standardizedFilePath: Option<string>,
    standardizedAt: Option<Timestamp>,
    isStandardized: bool,
    hasLessonPlanData: bool,
    createdAt: Timestamp,
    updatedAt: Timestamp)

  /** The response for a document: the stored fields copied, the file type as its string,
      the lesson-plan data as its `toJSON` record, and the two derived flags. */
  function ToDto(p: DocumentProps): (r: DocumentResponseDto)
    ensures r.isStandardized <==> Truthy(p.standardizedFilePath)
    ensures r.hasLessonPlanData <==> p.lessonPlanData.Some? && !p.lessonPlanData.value.IsEmpty()
    ensures r.originalFileType == "pdf" || r.originalFileType == "docx"
    ensures r.lessonPlanData.Some? <==> p.lessonPlanData.Some?
    ensures r.hasLessonPlanData ==> r.lessonPlanData.Some?
    ensures r.isStandardized ==> r.standardizedFilePath.Some?
    ensures r.id == p.id.value && r.title == p.title && r.description == p.description
    ensures r.originalFileName == p.originalFileName && r.originalFilePath == p.originalFilePath
    ensures r.originalFileType == p.originalFileType.ToString()
    ensures p.lessonPlanData.Some? ==> r.lessonPlanData == Some(p.lessonPlanData.value.props)
    ensures r.standardizedFilePath == p.standardizedFilePath && r.standardizedAt == p.standardizedAt
    ensures r.createdAt == p.createdAt && r.updatedAt == p.updatedAt
  {
    DocumentResponseDto(
      p.id.GetValue(), p.title, p.description, p.originalFileName, p.originalFilePath,
      p.originalFileType.ToString(),
      match p.lessonPlanData case Some(d) => Some(d.ToJson()) case None => None,
      p.standardizedFilePath, p.standardizedAt,
      Truthy(p.standardizedFilePath),
      match p.lessonPlanData case Some(d) => !d.IsEmpty() case None => false,
      p.createdAt, p.updatedAt)
  }

  /** The response loses nothing: two documents with the same response are the same. */
  lemma DtoDeterminesProps(p: DocumentProps, q: DocumentProps)
    requires ToDto(p) == ToDto(q)
    ensures p == q
  {
    assert p.originalFileType.value.Text() == q.originalFileType.value.Text();
    if p.lessonPlanData.Some? {
      assert p.lessonPlanData.value.ToJson() == q.lessonPlanData.value.ToJson();
    }
  }
}
