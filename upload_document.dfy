/** The upload use case: checks the file's extension, creates the document and saves it. */
module UploadDocument {
  import opened Wrappers
  import opened JsText
  import opened FileTypeVo
  import opened DocumentEntity
  import opened DocumentRepositoryStore
  import opened DocumentResponse

  /** `originalname.split('.').pop()?.toLowerCase()`: the text after the last `'.'`,
      lower-cased; a name without a `'.'` is its own extension. */
  function FileExtension(originalName: string): string {
    ToLower(LastPiece(originalName, '.'))
  }

  /** The whitelist; the empty extension is falsy and rejected too. */
  predicate AllowedExtension(extension: string) {
    extension == "pdf" || extension == "docx"
  }

  /** The extension is the lower-cased text after the last `'.'`. */
  lemma ExtensionAfterLastDot(originalName: string, k: nat)
    requires k < |originalName| && originalName[k] == '.' && '.' !in originalName[k + 1..]
    ensures FileExtension(originalName) == ToLower(originalName[k + 1..])
  {
    LastPieceAfterLastSeparator(originalName, '.', k);
  }

  /** A name without a `'.'` is used whole, so a bare `"PDF"` passes. */
  lemma BareNameIsItsOwnExtension(originalName: string)
    requires '.' !in originalName
    ensures FileExtension(originalName) == ToLower(originalName)
    ensures AllowedExtension(FileExtension("PDF"))
  {
    LastPieceWithoutSeparator(originalName, '.');
    LastPieceWithoutSeparator("PDF", '.');
    assert ToLower("PDF") == "pdf";
  }

  /** The empty name, and any name ending in `'.'`, have an empty extension and are rejected. */
  lemma EmptyExtensionRejected(originalName: string)
    requires originalName == "" || originalName[|originalName| - 1] == '.'
    ensures FileExtension(originalName) == ""
    ensures !AllowedExtension(FileExtension(originalName))
  {
    if originalName == "" {
      assert Split("", '.') == [""];
    } else {
      LastPieceOfTrailingSeparator(originalName, '.');
    }
  }

  /** An allowed extension always makes a valid file type, stored as the extension itself. */
  lemma AllowedExtensionIsFileType(extension: string)
    requires AllowedExtension(extension)
    ensures NewFileType(extension).Success?
    ensures NewFileType(extension).value.ToString() == extension
  {
    assert ToLower("pdf") == "pdf";
    assert ToLower("docx") == "docx";
  }

  class UploadDocumentUseCase {
    const repository: DocumentRepository

    constructor (repository: DocumentRepository)
      ensures this.repository == repository
    {
      this.repository := repository;
    }

    /** `execute`: the uploaded file's name and path, the form's title and description;
        `generatedId` and `now` stand for the identifier and clock `Document.create` reads.
        Rejects a wrong extension with 400 and saves nothing; otherwise creates the document,
        saves it once and answers with its response. */
    method Execute(originalName: string, path: string, title: string, description: Option<string>,
                   generatedId: string, now: Timestamp) returns (r: Result<DocumentResponseDto, Error>)
      requires repository.Valid()
      modifies repository
      ensures repository.Valid()
      ensures !AllowedExtension(FileExtension(originalName)) ==>
        r == Failure(AppError("Only PDF and DOCX files are allowed", 400))
      ensures var created := CreateProps(title, originalName, path, FileExtension(originalName), description, generatedId, now);
        && (AllowedExtension(FileExtension(originalName)) && created.Failure? ==> r == Failure(created.error))
        && (r.Success? <==> AllowedExtension(FileExtension(originalName)) && created.Success? && generatedId !in old(repository.rows))
        && (r.Failure? ==> repository.rows == old(repository.rows) && repository.log == old(repository.log))
        && (r.Success? ==>
              && created.value.originalFileType.ToString() == FileExtension(originalName)
              && repository.rows == old(repository.rows)[generatedId := created.value]
              && repository.log == old(repository.log) + [created.value]
              && r.value == ToDto(created.value)
              && !r.value.isStandardized && !r.value.hasLessonPlanData && r.value.lessonPlanData.None?)
    {
      var extension := FileExtension(originalName);
      if !AllowedExtension(extension) {
        return Failure(AppError("Only PDF and DOCX files are allowed", 400));
      }
      r := CreateAndSave(originalName, path, title, description, extension, generatedId, now);
    }

    /** `Document.create` with the checked extension as file type, then `save`. */
    method CreateAndSave(originalName: string, path: string, title: string, description: Option<string>,
                         extension: string, generatedId: string, now: Timestamp) returns (r: Result<DocumentResponseDto, Error>)
      requires repository.Valid() && AllowedExtension(extension)
      modifies repository
      ensures repository.Valid()
      ensures var created := CreateProps(title, originalName, path, extension, description, generatedId, now);
        && (created.Failure? ==> r == Failure(created.error))
        && (r.Success? <==> created.Success? && generatedId !in old(repository.rows))
        && (r.Failure? ==> repository.rows == old(repository.rows) && repository.log == old(repository.log))
        && (r.Success? ==>
              && created.value.originalFileType.ToString() == extension
              && repository.rows == old(repository.rows)[generatedId := created.value]
              && repository.log == old(repository.log) + [created.value]
              && r.value == ToDto(created.value)
              && !r.value.isStandardized && !r.value.hasLessonPlanData && r.value.lessonPlanData.None?)
    {
      AllowedExtensionIsFileType(extension);
      var created := Document.Create(title, originalName, path, extension, description, generatedId, now);
      if created.Failure? {
        return Failure(created.error);
      }
      var document := created.value;
      var saved := repository.Save(document);
      if saved.Fail? {
        return Failure(saved.error);
      }
      r := Success(ToDto(document.props));
    }
  }
}
