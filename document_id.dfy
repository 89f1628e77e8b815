/** The `DocumentId` value object: a non-blank identifier kept exactly as given. */
module DocumentIdVo {
  import opened Wrappers
  import opened JsText

  datatype DocumentId = DocumentId(value: string) {

    function GetValue(): string {
      value
    }

    /** Two identifiers are equal when their stored strings are. */
    predicate Equals(other: DocumentId) {
      value == other.value
    }
  }

  /** `new DocumentId(value)`: throws for the empty or all-white-space string,
      otherwise stores the input untrimmed. */
  function NewDocumentId(value: string): (r: Result<DocumentId, Error>)
    ensures r.Success? <==> exists i :: 0 <= i < |value| && !IsWhitespace(value[i])
    ensures r.Success? ==> r.value.GetValue() == value
    ensures r.Failure? ==> r.error == DomainError("DocumentId cannot be empty")
  {
    BlankIffAllWhitespace(value);
    if IsBlank(value) then Failure(DomainError("DocumentId cannot be empty"))
    else Success(DocumentId(value))
  }

  /** `equals` is an equivalence relation, and it coincides with equality of the values. */
  lemma EqualsIsEquivalence(a: DocumentId, b: DocumentId, c: DocumentId)
    ensures a.Equals(a)
    ensures a.Equals(b) ==> b.Equals(a)
    ensures a.Equals(b) && b.Equals(c) ==> a.Equals(c)
    ensures a.Equals(b) <==> a == b
  {
  }

  /** Two identifiers built from the same string are `equals`. */
  lemma SameStringSameId(s: string)
    requires NewDocumentId(s).Success?
    ensures NewDocumentId(s).value.Equals(NewDocumentId(s).value)
    ensures NewDocumentId(s).value.GetValue() == s
  {
  }
}
