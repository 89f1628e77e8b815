/** The `FileType` value object: the lower-cased input, which must be `pdf` or `docx`. */
module FileTypeVo {
  import opened Wrappers
  import opened JsText

  datatype FileTypeEnum = PDF | DOCX {
    /** The enum's string value. */
    function Text(): string {
      match this
      case PDF => "pdf"
      case DOCX => "docx"
    }
  }

  datatype FileType = FileType(value: FileTypeEnum) {

    function GetValue(): FileTypeEnum {
      value
    }

    predicate IsPdf() {
      value == PDF
    }

    predicate IsDocx() {
      value == DOCX
    }

    function ToString(): (r: string)
      ensures r == "pdf" || r == "docx"
    {
      value.Text()
    }
  }

  /** `new FileType(value)`: accepts exactly the inputs whose lower-case form is an
      enum value, and stores that lower-case form. */
  function NewFileType(value: string): (r: Result<FileType, Error>)
    ensures r.Success? <==> (ToLower(value) == "pdf" || ToLower(value) == "docx")
    ensures r.Success? ==> r.value.ToString() == ToLower(value)
    ensures r.Failure? ==> r.error == DomainError("Invalid file type: " + value + ". Only PDF and DOCX are allowed.")
  {
    var normalized := ToLower(value);
    if normalized == "pdf" then Success(FileType(PDF))
    else if normalized == "docx" then Success(FileType(DOCX))
    else Failure(DomainError("Invalid file type: " + value + ". Only PDF and DOCX are allowed."))
  }

  /** Matching ignores case: inputs equal up to case give the same outcome and value. */
  lemma CaseInsensitive(a: string, b: string)
    requires ToLower(a) == ToLower(b)
    ensures NewFileType(a).Success? == NewFileType(b).Success?
    ensures NewFileType(a).Success? ==> NewFileType(a).value == NewFileType(b).value
  {
  }

  /** "PDF", "Pdf" and "pdf" all give the PDF file type. */
  lemma PdfSpellings()
    ensures NewFileType("PDF") == NewFileType("Pdf") == NewFileType("pdf") == Success(FileType(PDF))
  {
    assert ToLower("PDF") == "pdf";
    assert ToLower("Pdf") == "pdf";
    assert ToLower("pdf") == "pdf";
  }

  /** Exactly one of `isPDF` and `isDOCX` holds. */
  lemma ExactlyOneKind(ft: FileType)
    ensures ft.IsPdf() != ft.IsDocx()
  {
  }

  /** Re-normalising a file type's string gives the same file type back. */
  lemma RenormaliseIsIdentity(ft: FileType)
    ensures NewFileType(ft.ToString()) == Success(ft)
  {
    match ft.value
    case PDF => assert ToLower("pdf") == "pdf";
    case DOCX => assert ToLower("docx") == "docx";
  }
}
