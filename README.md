# Standardized lesson-plan PDF: a Dafny model

This project models the backend core of *a_recreativa*, a service that turns an uploaded
lesson-plan document (PDF or DOCX) into a standardized, single-page A4 PDF.

- **Layout engine** (`StandardizedPDFGenerator`). It draws a banner, the title and the
  description. It then draws the lesson-plan sections in a fixed order: subject, target
  audience, duration, objectives, activities, resources and evaluation. Last comes a footer
  at fixed coordinates.
  - A vertical cursor only moves down as the sections are drawn.
  - Space pressure never starts a second page. Instead:
    - list lines are skipped below `y = 80`;
    - activities are skipped unless the cursor is above 150;
    - resources and evaluation are skipped unless it is above 100.
  - `wrapText` is the greedy word wrap the sections use.
  - `addSection` draws a heading and at most two wrapped lines.
- **Domain model**:
  - the `LessonPlanData` value object;
  - the `Document` entity, with its validation and state transitions;
  - the `FileType` and `DocumentId` value objects.
- **Use cases**:
  - *upload* checks the file extension, creates the document and saves it;
  - *standardize* looks the document up, gives it the submitted lesson-plan data, writes
    its page, marks it standardized and stores it, in that order.

How the model is built:

- **The page** is a `Page` object that records the draw calls made on it, in order
  (`page_layout.dfy`).
- **`Layout`** is a reference definition of the whole page. It is a table of gated blocks
  (`FieldEntries`) walked by a cursor fold (`Flow`).
- **The generator** (`pdf_generator.dfy`) is imperative, as in the source: a cursor
  variable, loops over lines and items, and draw calls. Its methods are proved to produce
  exactly `Layout`. The properties of the page are then proved about `Layout`
  (`layout_properties.dfy`).
- **`wrapText`** is a loop (`TextWrap.WrapText`). It is proved equal to a fold, and the
  fold's properties are proved as lemmas.
- **The `Document` entity** is a class whose `props` its methods overwrite.
- **The use cases** are classes holding their repository, generator and disk.
- **The database** is a `DocumentRepository` class holding a map from identifier to stored
  document, plus a ghost log of every row written.
- **The file system** is a `Disk` class holding a map from path to written page.
- **Exceptions** become `Result`/`Outcome` values carrying an `Error`:
  - `DomainError` for the domain layer's `Error`;
  - `AppError` with its HTTP status;
  - `StorageError` for a failure of the database;
  - `GenerationError` for a failure while the page is drawn or written.
- **Inputs that cannot be computed here** are parameters:
  - clock readings (`now`);
  - the printed date (`date`);
  - the generated identifier (`generatedId`);
  - whether drawing the page or writing the file throws (`generationFails`).

## Model

Paths are relative to the repository root.

| member | source | states |
|---|---|---|
| TextWrap.WrapText | backend/src/infra/services/pdf-generator/standardized-pdf-generator.ts:288-307 | the loop over the words returns exactly the lines of the greedy fold `Wrap(text, maxChars)` |
| TextWrap.WrapEmpty | backend/src/infra/services/pdf-generator/standardized-pdf-generator.ts:289-306 | the empty text wraps to no lines: `''.split(' ')` is `['']` and an empty current line is never pushed |
| TextWrap.WrapIsWellWrapped | backend/src/infra/services/pdf-generator/standardized-pdf-generator.ts:294-304 | no line is empty; every line fits the budget or is a single word; a line is flushed only when it, a space and the next line's first word would exceed the budget |
| TextWrap.WrapWordsWellWrapped | backend/src/infra/services/pdf-generator/standardized-pdf-generator.ts:293-304 | each step of the fold keeps the lines well wrapped, given a current line well placed after them |
| TextWrap.FlushWellWrapped | backend/src/infra/services/pdf-generator/standardized-pdf-generator.ts:299-304 | pushing a non-empty current line that is well placed keeps the lines well wrapped |
| TextWrap.ExtendKeepsFirstWord | backend/src/infra/services/pdf-generator/standardized-pdf-generator.ts:294-297 | appending `' ' + word` within the budget keeps the line within it and keeps its first word |
| TextWrap.WrapRoundTrip | backend/src/infra/services/pdf-generator/standardized-pdf-generator.ts:289-304 | when every `' '`-separated word is non-empty, joining the lines with one space gives the text back |
| TextWrap.WrapWordsJoin | backend/src/infra/services/pdf-generator/standardized-pdf-generator.ts:293-304 | the fold neither loses nor adds text between the words |
| TextWrap.ShortTextIsOneLine | backend/src/infra/services/pdf-generator/standardized-pdf-generator.ts:294-304 | a well-spaced non-empty text no longer than the budget is returned as one line, unchanged |
| TextWrap.WrapFirstLine | backend/src/infra/services/pdf-generator/standardized-pdf-generator.ts:293-297 | a text whose first word fits the budget wraps to a first line starting with that word |
| TextWrap.WrapWordsFirstLine | backend/src/infra/services/pdf-generator/standardized-pdf-generator.ts:293-304 | with nothing flushed yet, the first line returned starts with the line being built |
| TextWrap.WrapWordsKeepsLines | backend/src/infra/services/pdf-generator/standardized-pdf-generator.ts:299-304 | lines already pushed stay, in order, at the front of the result |
| JsText.JoinSplit | backend/src/infra/services/pdf-generator/standardized-pdf-generator.ts:289 | joining the pieces of `split(sep)` with `sep` gives the string back |
| JsText.SplitAppend | backend/src/infra/services/pdf-generator/standardized-pdf-generator.ts:289 | splitting `a + sep + b` gives the pieces of `a` followed by those of `b` |
| JsText.SplitPiecesLackSeparator | backend/src/infra/services/pdf-generator/standardized-pdf-generator.ts:289 | no piece of a split contains the separator |
| JsText.SplitWithoutSeparator | backend/src/infra/services/pdf-generator/standardized-pdf-generator.ts:289 | a string without the separator splits into itself alone |
| JsText.FirstPieceAfterSeparator | backend/src/infra/services/pdf-generator/standardized-pdf-generator.ts:289 | what follows the first separator does not change the first piece |
| JsText.TrimStartEmptyIff | backend/src/core/domain/entities/document.entity.ts:28 | trimming the start leaves nothing exactly when every character is white space |
| JsText.BlankIffAllWhitespace | backend/src/core/domain/entities/document.entity.ts:28 | `!s \|\| s.trim().length === 0` holds exactly when every character of `s` is white space |
| JsText.NotBlankWhenLeadingVisible | backend/src/core/domain/entities/document.entity.ts:99 | a string starting with a visible character is not blank |
| JsText.ToLowerIdempotent | backend/src/core/domain/value-objects/file-type.vo.ts:10 | lower-casing twice is lower-casing once |
| JsText.LastPieceAfterLastSeparator | backend/src/core/application/use-cases/upload-document.usecase.ts:14 | `split(sep).pop()` is the text after the last separator |
| JsText.LastPieceWithoutSeparator | backend/src/core/application/use-cases/upload-document.usecase.ts:14 | with no separator, `pop()` gives the whole string |
| JsText.LastPieceOfTrailingSeparator | backend/src/core/application/use-cases/upload-document.usecase.ts:14 | a string ending in the separator pops `""` |
| LessonPlanDataVo.LessonPlanData.GetObjectives | backend/src/core/domain/value-objects/lesson-plan-data.vo.ts:18-20 | the stored list when present, `[]` when absent |
| LessonPlanDataVo.LessonPlanData.GetActivities | backend/src/core/domain/value-objects/lesson-plan-data.vo.ts:22-24 | the stored list when present, `[]` when absent |
| LessonPlanDataVo.GettersReturnStored | backend/src/core/domain/value-objects/lesson-plan-data.vo.ts:14-44 | built from a record, the value returns each of its fields, lists defaulted to `[]`, optional strings as given including absence |
| LessonPlanDataVo.IsEmptyByGetters | backend/src/core/domain/value-objects/lesson-plan-data.vo.ts:50-55 | `isEmpty` holds exactly when no objectives, no activities, and evaluation and resources are absent or `""` |
| LessonPlanDataVo.IsEmptyIgnoresScalars | backend/src/core/domain/value-objects/lesson-plan-data.vo.ts:50-55 | duration, target audience and subject do not affect `isEmpty`; data setting only those is empty |
| LessonPlanDataVo.ToJsonRoundTrip | backend/src/core/domain/value-objects/lesson-plan-data.vo.ts:46-48 | `toJSON` returns the constructor input field for field, and rebuilding from it gives the same value |
| FileTypeVo.NewFileType | backend/src/core/domain/value-objects/file-type.vo.ts:9-15 | succeeds exactly when the lower-cased input is `pdf` or `docx`, storing that lower-cased form; otherwise the error names the input |
| FileTypeVo.FileType.ToString | backend/src/core/domain/value-objects/file-type.vo.ts:29-31 | always `"pdf"` or `"docx"` |
| FileTypeVo.CaseInsensitive | backend/src/core/domain/value-objects/file-type.vo.ts:10-14 | inputs equal up to case give the same outcome and the same value |
| FileTypeVo.PdfSpellings | backend/src/core/domain/value-objects/file-type.vo.ts:10-14 | `"PDF"`, `"Pdf"` and `"pdf"` all give the PDF type |
| FileTypeVo.ExactlyOneKind | backend/src/core/domain/value-objects/file-type.vo.ts:21-27 | exactly one of `isPDF` and `isDOCX` holds |
| FileTypeVo.RenormaliseIsIdentity | backend/src/core/domain/value-objects/file-type.vo.ts:9-31 | `new FileType(ft.toString())` equals `ft` |
| DocumentIdVo.NewDocumentId | backend/src/core/domain/value-objects/document-id.vo.ts:4-9 | succeeds exactly when some character is not white space, storing the input untrimmed; otherwise `DocumentId cannot be empty` |
| DocumentIdVo.EqualsIsEquivalence | backend/src/core/domain/value-objects/document-id.vo.ts:15-17 | `equals` is reflexive, symmetric and transitive, and coincides with equality |
| DocumentIdVo.SameStringSameId | backend/src/core/domain/value-objects/document-id.vo.ts:4-17 | two identifiers built from the same string are `equals` and hold that string |
| DocumentEntity.Validate | backend/src/core/domain/entities/document.entity.ts:27-37 | passes exactly when title, file name and file path are all non-blank; the first blank one, in that order, names the error |
| DocumentEntity.CreateProps | backend/src/core/domain/entities/document.entity.ts:121-138 | identifier checked first, then the file type, then validation; on success every given field is stored, the file type is the lower-cased input, and there is no lesson-plan data, no standardized path or time, and both times are `now` |
| DocumentEntity.Document.constructor | backend/src/core/domain/entities/document.entity.ts:22-25 | the entity holds the props once they pass `validate` |
| DocumentEntity.Document.Reconstitute | backend/src/core/domain/entities/document.entity.ts:145-147 | fails with `validate`'s error exactly when the props are invalid; otherwise a new valid document holding them |
| DocumentEntity.Document.Create | backend/src/core/domain/entities/document.entity.ts:121-138 | fails exactly as `CreateProps` does; a new document is neither standardized nor has lesson-plan data |
| DocumentEntity.Document.IsStandardized | backend/src/core/domain/entities/document.entity.ts:85-87 | holds exactly when the standardized path is present and non-empty |
| DocumentEntity.Document.HasLessonPlanData | backend/src/core/domain/entities/document.entity.ts:89-91 | holds exactly when data is present and not `isEmpty` |
| DocumentEntity.Document.UpdateLessonPlanData | backend/src/core/domain/entities/document.entity.ts:93-96 | replaces the data wholesale and sets `updatedAt`; nothing else changes and the document stays valid |
| DocumentEntity.Document.MarkAsStandardized | backend/src/core/domain/entities/document.entity.ts:98-105 | a blank path fails with state unchanged; otherwise path, `standardizedAt` and `updatedAt` are set, and the document is standardized |
| DocumentEntity.Document.UpdateTitle | backend/src/core/domain/entities/document.entity.ts:107-113 | a blank title fails and the old title stays; otherwise title and `updatedAt` are set, nothing else |
| DocumentEntity.Document.UpdateDescription | backend/src/core/domain/entities/document.entity.ts:115-118 | any description, `""` included, is stored with `updatedAt`; nothing else changes |
| DocumentEntity.FreshDocumentIsBare | backend/src/core/domain/entities/document.entity.ts:121-138 | a created document is not standardized and has no lesson-plan data; a file type other than pdf/docx in any case makes creation fail |
| PageLayout.Page.DrawText | backend/src/infra/services/pdf-generator/standardized-pdf-generator.ts:52-58 | appends one text command to the recorded page |
| PageLayout.Page.DrawRectangle | backend/src/infra/services/pdf-generator/standardized-pdf-generator.ts:33-39 | appends one rectangle command |
| PageLayout.Page.DrawLine | backend/src/infra/services/pdf-generator/standardized-pdf-generator.ts:232-237 | appends one line command |
| PageLayout.Column | backend/src/infra/services/pdf-generator/standardized-pdf-generator.ts:274-283 | one text command per body line |
| PageLayout.DecimalString | backend/src/infra/services/pdf-generator/standardized-pdf-generator.ts:150 | `${n}`: non-empty, decimal digits only, no leading zero unless `n` is 0, and reading back as `n` |
| StandardizedPdf.StandardizedPdfGenerator.Generate | backend/src/infra/services/pdf-generator/standardized-pdf-generator.ts:9-251 | succeeds exactly when neither drawing nor writing throws; then the file at `outputPath` holds exactly `Layout` of the document's title, description and lesson-plan data; on failure no file changes |
| StandardizedPdf.StandardizedPdfGenerator.DrawPage | backend/src/infra/services/pdf-generator/standardized-pdf-generator.ts:30-246 | a blank page ends up holding exactly `Layout`: header, sections, footer |
| StandardizedPdf.StandardizedPdfGenerator.DrawHeader | backend/src/infra/services/pdf-generator/standardized-pdf-generator.ts:30-60 | draws the banner rectangle, its caption and the title; the cursor ends at `height - 170` |
| StandardizedPdf.StandardizedPdfGenerator.DrawSections | backend/src/infra/services/pdf-generator/standardized-pdf-generator.ts:62-229 | appends the flow of the description and, when there is data, the lesson-plan sections |
| StandardizedPdf.StandardizedPdfGenerator.DrawDescription | backend/src/infra/services/pdf-generator/standardized-pdf-generator.ts:62-89 | when set, the description heading, its first two 80-character lines 20 below, then a 10-point gap; otherwise nothing |
| StandardizedPdf.StandardizedPdfGenerator.DrawLessonPlan | backend/src/infra/services/pdf-generator/standardized-pdf-generator.ts:91-229 | appends exactly the flow of the seven lesson-plan sections with their gates |
| StandardizedPdf.StandardizedPdfGenerator.DrawDetails | backend/src/infra/services/pdf-generator/standardized-pdf-generator.ts:94-134 | subject, target audience and duration, each drawn when set, as the first three sections of the flow |
| StandardizedPdf.StandardizedPdfGenerator.DrawLists | backend/src/infra/services/pdf-generator/standardized-pdf-generator.ts:136-200 | objectives when non-empty; activities when non-empty and the cursor is above 150 |
| StandardizedPdf.StandardizedPdfGenerator.DrawClosing | backend/src/infra/services/pdf-generator/standardized-pdf-generator.ts:202-228 | resources, then evaluation, each when set and the cursor is above 100 |
| StandardizedPdf.StandardizedPdfGenerator.DrawSectionIf | backend/src/infra/services/pdf-generator/standardized-pdf-generator.ts:95-106 | a gated `addSection` call places one entry of the flow |
| StandardizedPdf.StandardizedPdfGenerator.DrawListIf | backend/src/infra/services/pdf-generator/standardized-pdf-generator.ts:136-167 | a gated numbered list places one entry of the flow |
| StandardizedPdf.StandardizedPdfGenerator.AddSection | backend/src/infra/services/pdf-generator/standardized-pdf-generator.ts:253-286 | appends the heading and body commands of `RenderParagraph` and returns its cursor |
| StandardizedPdf.StandardizedPdfGenerator.DrawLines | backend/src/infra/services/pdf-generator/standardized-pdf-generator.ts:274-283 | draws the lines 15 apart from `y` and returns `y - 15 * lines` |
| StandardizedPdf.StandardizedPdfGenerator.DrawNumberedList | backend/src/infra/services/pdf-generator/standardized-pdf-generator.ts:139-166 | appends the heading and guarded item lines of `RenderList` and returns its cursor |
| StandardizedPdf.StandardizedPdfGenerator.DrawGuardedLines | backend/src/infra/services/pdf-generator/standardized-pdf-generator.ts:153-163 | draws a line and drops the cursor by 15 only while the cursor is not below 80 |
| LayoutProperties.SectionShape | backend/src/infra/services/pdf-generator/standardized-pdf-generator.ts:263-285 | `addSection` draws the heading at `y`, then line `i` of the 80-character wrap at `y - 18 - 15i` for at most two lines, never more than three texts, and returns `y - 18 - 15 * min(2, lines) - 10` |
| LayoutProperties.ColumnAt | backend/src/infra/services/pdf-generator/standardized-pdf-generator.ts:274-283 | line `i` of a section body is drawn `15 * i` below the first |
| LayoutProperties.ColumnDescends | backend/src/infra/services/pdf-generator/standardized-pdf-generator.ts:274-283 | body lines are strictly descending, from `y` down to just above `y - 15 * lines` |
| LayoutProperties.GuardedFits | backend/src/infra/services/pdf-generator/standardized-pdf-generator.ts:153-163 | the list lines drawn are a prefix of the lines, each at or above 80 and 15 apart; the cursor drops only for drawn lines; a line is left out only once the cursor is below 80 |
| LayoutProperties.GuardedAppend | backend/src/infra/services/pdf-generator/standardized-pdf-generator.ts:149-164 | drawing the lines of one item after another continues from where the previous item left the cursor |
| LayoutProperties.ItemNumbered | backend/src/infra/services/pdf-generator/standardized-pdf-generator.ts:149-151 | the first line of item `i` of the three shown starts with `i + 1`, which is the single digit `1`, `2` or `3`, and a period |
| LayoutProperties.ListIgnoresLaterItems | backend/src/infra/services/pdf-generator/standardized-pdf-generator.ts:149 | items after the third never reach the page |
| LayoutProperties.ParagraphDescends | backend/src/infra/services/pdf-generator/standardized-pdf-generator.ts:263-285 | a section's texts are strictly descending and the cursor ends below them all |
| LayoutProperties.ListDescends | backend/src/infra/services/pdf-generator/standardized-pdf-generator.ts:139-166 | a list's texts are strictly descending and the cursor ends below them all |
| LayoutProperties.RenderDescends | backend/src/infra/services/pdf-generator/standardized-pdf-generator.ts:93-228 | every block's texts descend from the cursor, which ends strictly lower |
| LayoutProperties.FlowDescends | backend/src/infra/services/pdf-generator/standardized-pdf-generator.ts:62-228 | the cursor never moves up, and every command of the sections is text, strictly lower than the one before |
| LayoutProperties.PlaceHeading | backend/src/infra/services/pdf-generator/standardized-pdf-generator.ts:95-106 | a section draws something exactly when it is shown, starting with its heading at the cursor; a skipped section leaves the cursor alone |
| LayoutProperties.FieldGates | backend/src/infra/services/pdf-generator/standardized-pdf-generator.ts:93-228 | subject, audience, duration and objectives show exactly when set; activities when set and the cursor is above 150; resources and evaluation when set and it is above 100 |
| LayoutProperties.FlowPlacesAt | backend/src/infra/services/pdf-generator/standardized-pdf-generator.ts:93-228 | section `k` is placed at the cursor the sections before it leave, after their commands and before those of later sections |
| LayoutProperties.ParagraphSpan | backend/src/infra/services/pdf-generator/standardized-pdf-generator.ts:263-285 | a section reaches no lower than 15 below its first line, which is `drop` below the heading, and leaves the cursor at most 40 below that line |
| LayoutProperties.ListSpan | backend/src/infra/services/pdf-generator/standardized-pdf-generator.ts:139-166 | a list whose heading is above 60 stays above 60: its lines are at or above the floor of 80 |
| LayoutProperties.GatedFlowAbove | backend/src/infra/services/pdf-generator/standardized-pdf-generator.ts:169-228 | sections shown only while the cursor is above 100 never reach `y = 60`, wherever the cursor stands |
| LayoutProperties.ParagraphsFlowAbove | backend/src/infra/services/pdf-generator/standardized-pdf-generator.ts:62-134 | ungated sections drop the cursor by at most 60 each, so a run of them started high enough stays above `y = 60` |
| LayoutProperties.PlanFlowAbove | backend/src/infra/services/pdf-generator/standardized-pdf-generator.ts:62-228 | four ungated sections, then a list, then sections gated above 100, started above 300, stay above `y = 60` |
| LayoutProperties.FlowAboveFooter | backend/src/infra/services/pdf-generator/standardized-pdf-generator.ts:62-228 | for every description and lesson plan, every draw call of the sections is anchored strictly above `y = 60` |
| LayoutProperties.ContentAboveFooter | backend/src/infra/services/pdf-generator/standardized-pdf-generator.ts:30-246 | on every page, every draw call between the title and the footer is anchored strictly above the footer's divider at `y = 60` |
| LayoutProperties.PageFrame | backend/src/infra/services/pdf-generator/standardized-pdf-generator.ts:30-246 | every page starts with the full-width banner at `height - 70`, its caption and the title at `height - 140`; the sections below are strictly descending under `height - 170`; it ends with the divider at `y = 60` and the caption at `y = 40`, whatever the content |
| LayoutProperties.BlankPage | backend/src/infra/services/pdf-generator/standardized-pdf-generator.ts:62-246 | with no description and nothing set in the lesson plan, the page is the header and footer only |
| LayoutProperties.NoLessonPlanNoFields | backend/src/infra/services/pdf-generator/standardized-pdf-generator.ts:91-229 | without lesson-plan data, only the description can appear between header and footer |
| LayoutProperties.FlowOfAbsent | backend/src/infra/services/pdf-generator/standardized-pdf-generator.ts:93-228 | sections without content draw nothing and leave the cursor where it was |
| DocumentRepositoryStore.DocumentRepository.Save | backend/src/infra/database/repositories/prisma-document.repository.ts:11-35 | inserts the row `SavedRow` makes of the document under its identifier and logs one write; an identifier already stored fails with nothing changed |
| DocumentRepositoryStore.SavedRow | backend/src/infra/database/repositories/prisma-document.repository.ts:15-32 | `save` writes the document as it stands, except that the lesson-plan lists are written through their getters; a document without data is written unchanged, and validity is unaffected |
| DocumentRepositoryStore.StoredData | backend/src/infra/database/repositories/prisma-document.repository.ts:22-27 | both lists are stored as their getters return them, so an absent list of present data is stored as `[]`; the getters, `isEmpty` and the five strings are unchanged |
| DocumentRepositoryStore.ListColumn | backend/src/infra/database/repositories/prisma-document.repository.ts:22-23 | a list column is `null` exactly when the document has no data, and otherwise the getter's list |
| DocumentRepositoryStore.AbsentListStoredAsEmpty | backend/src/infra/database/repositories/prisma-document.repository.ts:22-23 | data whose lists are absent is stored with both lists `[]`, by `save` and by `update` alike |
| DocumentRepositoryStore.DocumentRepository.FindById | backend/src/infra/database/repositories/prisma-document.repository.ts:37-45 | a new valid document holding the stored row exactly when the identifier is stored |
| DocumentRepositoryStore.DocumentRepository.Update | backend/src/infra/database/repositories/prisma-document.repository.ts:55-75 | writes the row `UpdatedRow` gives over an existing row and logs one write; a missing row fails with nothing changed |
| DocumentRepositoryStore.UpdatedData | backend/src/infra/database/repositories/prisma-document.repository.ts:63-69 | objectives and activities are always written, as `null` without data and as their getters' lists (`[]` when absent) with it; each of the five lesson-plan strings is written when present and otherwise keeps the stored value |
| DocumentRepositoryStore.UpdatedRow | backend/src/infra/database/repositories/prisma-document.repository.ts:58-74 | identifier, file name, path, type and creation time are never written; title and `updatedAt` always are; description, standardized path and time are written when present and otherwise keep the stored value; the lesson-plan columns follow `UpdatedData` |
| DocumentRepositoryStore.UpdateOfCompleteDocument | backend/src/infra/database/repositories/prisma-document.repository.ts:55-75 | a document read from the row with every optional field present is stored exactly as `save` would store it, so nothing stale survives |
| DocumentRepositoryStore.AbsentFieldKeepsStoredValue | backend/src/infra/database/repositories/prisma-document.repository.ts:65 | data without an evaluation, written over a row whose data had one, keeps the stored evaluation, so the row differs from the document |
| DocumentResponse.ToDto | backend/src/core/application/use-cases/upload-document.usecase.ts:35-53 | `isStandardized` exactly when the path is truthy; `hasLessonPlanData` exactly when data is present and not empty; file type `pdf` or `docx`; lesson-plan data present exactly when the document has it |
| DocumentResponse.DtoDeterminesProps | backend/src/core/application/use-cases/upload-document.usecase.ts:35-53 | the response loses nothing: documents with equal responses are equal |
| UploadDocument.ExtensionAfterLastDot | backend/src/core/application/use-cases/upload-document.usecase.ts:14 | the extension is the lower-cased text after the last `'.'` |
| UploadDocument.BareNameIsItsOwnExtension | backend/src/core/application/use-cases/upload-document.usecase.ts:14-16 | a name with no `'.'` is used whole, so a bare `"PDF"` is accepted |
| UploadDocument.EmptyExtensionRejected | backend/src/core/application/use-cases/upload-document.usecase.ts:14-16 | the empty name and a name ending in `'.'` give `""` and are rejected |
| UploadDocument.AllowedExtensionIsFileType | backend/src/core/application/use-cases/upload-document.usecase.ts:15-26 | an accepted extension always makes a file type whose string is the extension |
| UploadDocument.UploadDocumentUseCase.Execute | backend/src/core/application/use-cases/upload-document.usecase.ts:10-33 | a wrong extension fails with 400 and saves nothing; a creation error is passed on; otherwise exactly one row is saved, holding the given fields with the extension as file type, and the response is neither standardized nor carries lesson-plan data |
| UploadDocument.UploadDocumentUseCase.CreateAndSave | backend/src/core/application/use-cases/upload-document.usecase.ts:19-32 | `Document.create` then `save`, with the same outcomes |
| StandardizeDocument.StandardizeDocumentUseCase.Execute | backend/src/core/application/use-cases/standardize-document.usecase.ts:18-45 | a blank identifier fails first; an unknown one fails with 404; when generation fails nothing is written anywhere; otherwise the page of the document already carrying the submitted data is written at `uploads/standardized/<id>-standardized.pdf`, the row `update` makes of the marked document is written to the repository exactly once, and the marked document's response is returned |
| StandardizeDocument.MarkedResponse | backend/src/core/application/use-cases/standardize-document.usecase.ts:47-65 | the response after standardizing is standardized, carries the path and the submitted data, and `hasLessonPlanData` is `!isEmpty()` of that data |
| StandardizeDocument.StandardizedRow | backend/src/core/application/use-cases/standardize-document.usecase.ts:28-42 | the row left after standardizing: marked with this run's path and time, the submitted lists (`[]` for a list left out) and strings, any lesson-plan string the submission leaves out keeping the value an earlier run stored, and everything else as stored |
| StandardizeDocument.StaleEvaluationSurvives | backend/src/core/application/use-cases/standardize-document.usecase.ts:28-45 | standardizing again with objectives only leaves the earlier evaluation `"Prova"` in the table, while the response carries the submission alone |
| StandardizeDocument.StandardizedPathNotBlank | backend/src/core/application/use-cases/standardize-document.usecase.ts:33-39 | the output path is never blank, so `markAsStandardized` cannot throw there |

## Left out

- pdf-lib is not modelled: document creation, font embedding, colours and the PDF byte
  format. A page is the list of its draw calls, and a text keeps only its size and whether
  it is bold.
- Writing the file is modelled as storing the page under its path in `Disk`.
  `ensureDirectory` and `writeFile` are not modelled separately.
- Generate: whether it throws is the parameter `generationFails`, and it then fails with
  `GenerationError`. This covers two things the model does not compute. pdf-lib's
  `drawText` with the standard Helvetica fonts throws on any character outside WinAnsi,
  such as `→`, `≥` or an emoji in a title or field. Creating the directory or writing the
  file can also fail. Either way no complete page is stored, and the standardize use case
  writes nothing to the database. The model does not keep what a failure leaves behind: the
  directory `ensureDirectory` made before any drawing, or a truncated file from a
  `writeFile` that failed part way.
- The clock is a parameter. `new Date()` is `now`, and `toLocaleDateString('pt-BR')` is
  `date`. Where one operation reads the clock twice, the two readings are one value:
  - `create` for `createdAt`/`updatedAt`;
  - `markAsStandardized` for `standardizedAt`/`updatedAt`;
  - the two entity updates inside the standardize use case.
- `Document.generateId`, which uses `Date.now` and `Math.random`, is the parameter
  `generatedId`.
- The database is a map from identifier to props.
  - `save` fails on an identifier already stored and `update` on a missing row, as the
    unique key and `update` of the real client do.
  - A row is held as the document props it was written from. Each lesson-plan list stands
    for its JSON text, which reads back as the same list. When there is data, both lists are
    written through their getters, so an absent list is stored as `[]` (`SavedRow`,
    `UpdatedData`).
  - `update` writes a field only when the document has it. A field the document lacks is
    `undefined` in the client call and leaves the column as stored, so an absent field
    never clears a stored one. A second standardize with fewer fields keeps the earlier
    values of the fields it leaves out (`StaleEvaluationSurvives`).
  - FindById: returns the stored props exactly. The real mapping back from the table
    drops lesson-plan data whose objectives, activities, evaluation and resources are all
    falsy, and turns `""` strings into absent ones. That loss is not modelled.
  - `findAll` and `delete` serve only use cases outside this model.
- `Document`'s getters are reads of `props` fields.
- Errors are values, not exceptions. A plain `Error` becomes `DomainError` with its message.
- The standardize use case talks to the PDF generator through an interface. Here it holds
  the concrete generator.
- In the source, `markAsStandardized` and `update` return nothing and would propagate a
  throw. In the model they return an `Outcome`. The model's `Execute` discards those two
  outcomes, having proved that neither can fail at that point.
- `toLowerCase` lower-cases ASCII letters only. Accepting or rejecting `pdf`/`docx` does
  not depend on this: no other character lower-cases to one of their letters.
- JS `length` counts UTF-16 code units; strings here are sequences of characters. They
  differ only for characters outside the Basic Multilingual Plane.
- `generate` is one method in the source. Here it is split into helpers:
  - the header, the sections and the lesson-plan groups;
  - a line-drawing loop;
  - a guarded line loop.

  The source's two copies of the numbered-list code are one method, `DrawNumberedList`.
- `async` and concurrency are not modelled: each use case is one sequential run.
- The following are not modelled:
  - the Express controller, routes, server, error-handler middleware and the multer upload
    middleware;
  - the DOCX and PDF processors;
  - the get and list use cases, which only read the repository and copy the same response;
  - the DTO and interface files;
  - the frontend.
- FlowAboveFooter, ContentAboveFooter: these state where each draw call is anchored. pdf-lib's
  `drawText` also breaks its text at `\n`, `\r`, `\f` and `\v` and draws each later piece one
  line height lower. That splitting is not modelled, because `wrapText` splits on `' '` only.
  A multi-line evaluation drawn near the bottom can therefore reach below the divider,
  although its first line is anchored above it.
- Three behaviours of the generator that the model keeps as they are:
  - `wrapText` splits on the single space `' '` only, not on every white-space character.
  - `addSection` draws its lines with no floor check. Only list lines test `y < 80`.
  - Activities are skipped unless the cursor is above 150.
