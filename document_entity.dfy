/** The `Document` entity: a record of props that its business methods overwrite in place. */
module DocumentEntity {
  import opened Wrappers
  import opened JsText
  import opened DocumentIdVo
  import opened FileTypeVo
  import opened LessonPlanDataVo

  /** A JS `Date`, as milliseconds since the epoch; clock readings are passed in. */
  type Timestamp = int

  datatype DocumentProps = DocumentProps(
    id: DocumentId,
    title: string,
    description: Option<string>,
    originalFileName: string,
    originalFilePath: string,
    originalFileType: FileType,
    lessonPlanData: Option<LessonPlanData>,
    standardizedFilePath: Option<string>,
    standardizedAt: Option<Timestamp>,
    createdAt: Timestamp,
    updatedAt: Timestamp)

  /** `validate`: title, then file name, then file path must each hold a
      non-white-space character; the first that does not names the error. */
  function Validate(p: DocumentProps): (r: Outcome<Error>)
    ensures r.Pass? <==> !IsBlank(p.title) && !IsBlank(p.originalFileName) && !IsBlank(p.originalFilePath)
    ensures IsBlank(p.title) ==> r == Fail(DomainError("Document title is required"))
    ensures !IsBlank(p.title) && IsBlank(p.originalFileName) ==> r == Fail(DomainError("Original file name is required"))
    ensures r.Fail? && !IsBlank(p.title) && !IsBlank(p.originalFileName) ==> r == Fail(DomainError("Original file path is required"))
  {
    if IsBlank(p.title) then Fail(DomainError("Document title is required"))
    else if IsBlank(p.originalFileName) then Fail(DomainError("Original file name is required"))
    else if IsBlank(p.originalFilePath) then Fail(DomainError("Original file path is required"))
    else Pass
  }

  /** The props `Document.create` builds, or the error it throws. The identifier is
      checked first, then the file type, then the props as a whole. */
  function CreateProps(title: string, originalFileName: string, originalFilePath: string,
                       fileType: string, description: Option<string>,
                       generatedId: string, now: Timestamp): (r: Result<DocumentProps, Error>)
    ensures NewDocumentId(generatedId).Failure? ==> r == Failure(NewDocumentId(generatedId).error)
    ensures NewDocumentId(generatedId).Success? && NewFileType(fileType).Failure? ==> r == Failure(NewFileType(fileType).error)
    ensures r.Success? <==>
      NewDocumentId(generatedId).Success? && NewFileType(fileType).Success? &&
      !IsBlank(title) && !IsBlank(originalFileName) && !IsBlank(originalFilePath)
    ensures r.Success? ==>
      && r.value.id.GetValue() == generatedId
      && r.value.title == title
      && r.value.description == description
      && r.value.originalFileName == originalFileName
      && r.value.originalFilePath == originalFilePath
      && r.value.originalFileType.ToString() == ToLower(fileType)
      && r.value.lessonPlanData.None?
      && r.value.standardizedFilePath.None?
      && r.value.standardizedAt.None?
      && r.value.createdAt == now && r.value.updatedAt == now
  {
    match NewDocumentId(generatedId)
    case Failure(e) => Failure(e)
    case Success(id) =>
      match NewFileType(fileType)
      case Failure(e) => Failure(e)
      case Success(ft) =>
        var p := DocumentProps(id, title, description, originalFileName, originalFilePath, ft,
                               None, None, None, now, now);
        match Validate(p)
        case Fail(e) => Failure(e)
        case Pass => Success(p)
  }

  class Document {
    var props: DocumentProps

    /** The invariant `validate` establishes and every business method keeps. */
    ghost predicate Valid()
      reads this
    {
      Validate(props).Pass?
    }

    /** `new Document(props)` once `validate` has passed. */
    constructor (p: DocumentProps)
      requires Validate(p).Pass?
      ensures props == p && Valid()
    {
      props := p;
    }

    /** `Document.reconstitute(props)`: the constructor, which throws when `validate` fails. */
    static method Reconstitute(p: DocumentProps) returns (r: Result<Document, Error>)
      ensures r.Failure? <==> Validate(p).Fail?
      ensures r.Failure? ==> r.error == Validate(p).error
      ensures r.Success? ==> fresh(r.value) && r.value.props == p && r.value.Valid()
    {
      match Validate(p)
      case Fail(e) => r := Failure(e);
      case Pass =>
        var d := new Document(p);
        r := Success(d);
    }

    /** `Document.create`, with the clock reading and the generated identifier passed in. */
    static method Create(title: string, originalFileName: string, originalFilePath: string,
                         fileType: string, description: Option<string>,
                         generatedId: string, now: Timestamp) returns (r: Result<Document, Error>)
      ensures r.Success? <==> CreateProps(title, originalFileName, originalFilePath, fileType, description, generatedId, now).Success?
      ensures r.Failure? ==> r.error == CreateProps(title, originalFileName, originalFilePath, fileType, description, generatedId, now).error
      ensures r.Success? ==> fresh(r.value) && r.value.Valid()
      ensures r.Success? ==> r.value.props == CreateProps(title, originalFileName, originalFilePath, fileType, description, generatedId, now).value
      ensures r.Success? ==> !r.value.IsStandardized() && !r.value.HasLessonPlanData()
    {
      match CreateProps(title, originalFileName, originalFilePath, fileType, description, generatedId, now)
      case Failure(e) => r := Failure(e);
      case Success(p) =>
        var d := new Document(p);
        r := Success(d);
    }

    /** `!!standardizedFilePath`. */
    function IsStandardized(): (r: bool)
      reads this
      ensures r <==> props.standardizedFilePath.Some? && props.standardizedFilePath.value != ""
    {
      Truthy(props.standardizedFilePath)
    }

    /** `!!lessonPlanData && !lessonPlanData.isEmpty()`. */
    function HasLessonPlanData(): (r: bool)
      reads this
      ensures r <==> props.lessonPlanData.Some? && !props.lessonPlanData.value.IsEmpty()
    {
      match props.lessonPlanData
      case Some(d) => !d.IsEmpty()
      case None => false
    }

    /** Replaces the lesson-plan data wholesale; only it and `updatedAt` change. */
    method UpdateLessonPlanData(data: LessonPlanDataProps, now: Timestamp)
      requires Valid()
      modifies this
      ensures Valid()
      ensures props == old(props).(lessonPlanData := Some(LessonPlanData(data)), updatedAt := now)
      ensures HasLessonPlanData() == !LessonPlanData(data).IsEmpty()
    {
      props := props.(lessonPlanData := Some(LessonPlanData(data)));
      props := props.(updatedAt := now);
    }

    /** Rejects a blank path and changes nothing; otherwise records the path and the
        time, after which the document is standardized. */
    method MarkAsStandardized(filePath: string, now: Timestamp) returns (r: Outcome<Error>)
      requires Valid()
      modifies this
      ensures Valid()
      ensures r.Pass? <==> !IsBlank(filePath)
      ensures r.Fail? ==> r.error == DomainError("Standardized file path is required") && props == old(props)
      ensures r.Pass? ==> props == old(props).(standardizedFilePath := Some(filePath),
                                              standardizedAt := Some(now), updatedAt := now)
      ensures r.Pass? ==> IsStandardized()
    {
      if IsBlank(filePath) {
        return Fail(DomainError("Standardized file path is required"));
      }
      props := props.(standardizedFilePath := Some(filePath));
      props := props.(standardizedAt := Some(now));
      props := props.(updatedAt := now);
      r := Pass;
    }

    /** Rejects a blank title and keeps the old one; otherwise sets the title and `updatedAt`. */
    method UpdateTitle(title: string, now: Timestamp) returns (r: Outcome<Error>)
      requires Valid()
      modifies this
      ensures Valid()
      ensures r.Pass? <==> !IsBlank(title)
      ensures r.Fail? ==> r.error == DomainError("Title cannot be empty") && props == old(props)
      ensures r.Pass? ==> props == old(props).(title := title, updatedAt := now)
    {
      if IsBlank(title) {
        return Fail(DomainError("Title cannot be empty"));
      }
      props := props.(title := title);
      props := props.(updatedAt := now);
      r := Pass;
    }

    /** Accepts any description, `""` included; only it and `updatedAt` change. */
    method UpdateDescription(description: string, now: Timestamp)
      requires Valid()
      modifies this
      ensures Valid()
      ensures props == old(props).(description := Some(description), updatedAt := now)
    {
      props := props.(description := Some(description));
      props := props.(updatedAt := now);
    }
  }

  /** A freshly created document is neither standardized nor carries lesson-plan data,
      and creation fails for any file type other than pdf/docx in any case. */
  lemma FreshDocumentIsBare(title: string, originalFileName: string, originalFilePath: string,
                            fileType: string, description: Option<string>,
                            generatedId: string, now: Timestamp)
    ensures var r := CreateProps(title, originalFileName, originalFilePath, fileType, description, generatedId, now);
      && (r.Success? ==> !Truthy(r.value.standardizedFilePath) && r.value.lessonPlanData.None?)
      && (ToLower(fileType) != "pdf" && ToLower(fileType) != "docx" ==> r.Failure?)
  {
  }
}
