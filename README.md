# ClearTech background checks — a Dafny model

This project models the core of a Next.js application that prepares background-check
reports. An administrator picks a client and a form type and fills in the applicant's
identification. They then select the checks performed, set a status (cleared, pending
or denied), upload the report PDF and download a packet. The packet is meant to be a
generated cover letter followed by the submitted and uploaded files, merged into one PDF.
As written, the cover letter's cleanup always throws, so the packet holds only the files
(see "## Findings").

The model covers the rules behind that workflow:

- the record, its schema and its constant tables;
- the browser-side form-state hook with its storage slot;
- the REST handlers over a key-value store;
- the upload guards and progress bar;
- the client pre-fill and the list filters;
- the PDF file classifier, the cover-letter text, page merging, drag-and-drop reordering
  and the collect-then-merge download run;
- the Content-Security-Policy middleware;
- the small display mappings of the admin page and of the document tile.

There is one Dafny module per source file. `Wrappers` (an `Option` type) and `Text`
(string helpers) are shared.

- **Pure code** (`src/types/index.ts`, the status and letter mappings, `DocumentCard.tsx`)
  becomes datatypes, functions and lemmas.
- **Code that updates state** becomes classes whose fields are the component or hook state:
  - `UseFormData.FormDataHook`, `PdfDownloadSection.DownloadSection`,
    `FileUploadSection.UploadSection` and `SubmittedFormsSection.FormsPanel`;
  - `UpstashStorage.FormStore` holds the remote store as a map field;
  - `Middleware.Headers` holds a header map.
- **Methods** are proved against specification functions:
  - `DownloadPdf` against `DownloadResult`/`Collected`;
  - `MergePdfs` against `AllPages`;
  - `HandleGet` against `GetResponse`;
  - `Load` against `Loaded`.
- **Collaborators become parameters.** This covers network calls, cover rendering, image
  conversion and PDF parsing, which appear as function-typed parameters or `Env` fields
  that return `None` on failure. The clock is a parameter, and so is the random nonce.

## Model

| member | source | states |
|---|---|---|
| FormTypes.ParseFormType | src/types/index.ts:90 | the form-type enumeration accepts exactly the three type names, and returns the type carrying that name |
| FormTypes.ParseFormTypeName | src/types/index.ts:90 | every form type's name parses back to that type |
| FormTypes.RequiredChecksAreOffered | src/types/index.ts:160-200 | every required check of a form type is among the options offered for that type; "Other" is never required; there are strictly more options than required checks |
| FormTypes.BackgroundCheckOptions | src/types/index.ts:35-71 | defines the checks offered for each form type, in the listed order, ending with "Other" |
| FormTypes.Title | src/types/index.ts:160-200 | defines each form type's display title |
| FormTypes.RequiredChecks | src/types/index.ts:160-200 | defines the checks each form type requires, in the listed order |
| FormTypes.OptionsEndWithOther | src/types/index.ts:35-71 | every option list is non-empty, ends with "Other" and has no other "Other" |
| FormTypes.IdentificationIssuesEmptyIff | src/types/index.ts:74-86 | the identification schema reports no issue iff the five required fields are non-empty, the state is exactly 2 UTF-16 code units long and the postal code at least 5 |
| Text.Utf16Length | src/types/index.ts:80-84 | the length the schema's minimum and maximum measure (JavaScript's `length`) is at least the number of characters and at most twice it, and zero only for the empty text |
| Text.Utf16LengthAppend | src/types/index.ts:80-84 | the code units of a concatenation are the sum of the parts' |
| Text.Utf16LengthOfBmp | src/types/index.ts:80-84 | a text without characters beyond the Basic Multilingual Plane has as many code units as characters |
| Text.Utf16LengthOfAstral | src/types/index.ts:80-84 | every character beyond the Basic Multilingual Plane counts as two code units, so one such character is a 2-unit state |
| FormTypes.SafeParse | src/types/index.ts:88-107 | parsing succeeds iff the record is valid, and then yields the record without keys outside the schema; otherwise it yields the non-empty list of issues |
| FormTypes.IdentificationValid | src/types/index.ts:74-86 | defines the identification schema: non-empty first and last name, street address, city and birthdate, a state of exactly two UTF-16 units and a postal code of at least five |
| FormTypes.FormDataValid | src/types/index.ts:88-107 | defines the record schema: a non-empty client, one of the three form types, a valid identification, at least one check, one of the three statuses, and an uploaded file only with a `Date` upload time |
| FormTypes.IdentificationIssues | src/types/index.ts:74-86 | defines the identification issues, one per failed rule, in field order, each with the schema's own message |
| FormTypes.FormDataIssues | src/types/index.ts:88-107 | defines the record issues in field order: client, form type, the identification issues, checks, status, upload date |
| FormTypes.Strip | src/types/index.ts:88-107 | defines the parsed record: the input with the key the schema does not declare (`fileChannelId`) removed |
| FormTypes.SafeParseIdempotent | src/types/index.ts:88-107 | a parsed record parses to itself |
| FormTypes.DefaultRejected | src/types/index.ts:113-129 | the default record fails the schema, with the client, seven identification fields and the checks reported in order |
| FormTypes.DEFAULT_FORM_DATA | src/types/index.ts:113-129 | defines the default record: empty client, identification and checks, tenant type, pending status, empty memo, no file |
| FormTypes.JsonRoundTrip | src/types/index.ts:97-106 | a JSON round trip keeps whether a file is attached, and leaves a record without a file unchanged |
| FormTypes.JsonThenParse | src/types/index.ts:97-106 | after a JSON round trip a record without a file parses back iff it is valid; a record with a file never parses, since its upload date has become a string |
| FormTypes.UploadedFileRejected | src/types/index.ts:97-106 | a record parsed from JSON that carries an uploaded file fails the schema, and the last issue reported is the upload date's |
| UpstashStorage.StoreKey | src/lib/upstash-storage.ts:8 | the key is `form:` followed by the user id |
| UpstashStorage.StoreKeyInjective | src/lib/upstash-storage.ts:8-16 | distinct user ids give distinct keys |
| UpstashStorage.ReadYourWrites | src/lib/upstash-storage.ts:7-17 | a read after a save of the same user returns the saved record; a read after a delete finds nothing |
| UpstashStorage.OtherUsersUnaffected | src/lib/upstash-storage.ts:7-17 | saving or deleting one user's record leaves every other user's record as it was |
| UpstashStorage.FormStore.Save | src/lib/upstash-storage.ts:7-9 | the store maps the user's key to the record, and no other user's record changes |
| UpstashStorage.FormStore.Get | src/lib/upstash-storage.ts:11-13 | returns the record under `form:`+user id, or none when the key is absent |
| UpstashStorage.FormStore.Delete | src/lib/upstash-storage.ts:15-17 | the user's key is removed, and no other user's record changes |
| FormDataRoute.GetResponse | src/app/api/form-data/route.ts:10-27 | a missing or empty user id gives 400 "Missing userId"; a store failure gives 500 "Failed to fetch form data"; otherwise 200 with the stored record, or null exactly when there is none |
| FormDataRoute.HandleGet | src/app/api/form-data/route.ts:10-27 | the GET handler answers what `GetResponse` specifies for the store's contents |
| FormDataRoute.HandlePost | src/app/api/form-data/route.ts:29-56 | a body that is not JSON gives 500. The user-id check comes before validation. Invalid data gives 400 "Invalid data" with the issues; in particular, since the body is parsed JSON, any record carrying an uploaded file gets 400 with the upload-date issue. Any failure leaves the store unchanged. Valid data stores the parsed record under the user and gives success, unless the store fails (500) |
| FormDataRoute.HandleDelete | src/app/api/form-data/route.ts:58-74 | a missing user id gives 400 and no change; a store failure gives 500 and no change; otherwise the record is removed and the answer is success |
| FormDataRoute.PostDeleteThenGet | src/app/api/form-data/route.ts:47-67 | a GET after a successful POST returns the parsed record; a GET after a successful DELETE returns null |
| FormDataRoute.GetIsolated | src/app/api/form-data/route.ts:18-19 | a GET for one user is not affected by a save or delete for another |
| UseFormData.ApplyPatch | src/hooks/useFormData.ts:45-51 | the merged record takes each field given in the update and keeps every other field |
| UseFormData.PatchLaws | src/hooks/useFormData.ts:45-51 | the empty update changes nothing, an update applied twice acts once, and two updates in a row act as their merge |
| UseFormData.MergeIdentification | src/hooks/useFormData.ts:54-61 | the merged identification takes each subfield given and keeps every other subfield |
| UseFormData.FullIdentificationPatch | src/hooks/useFormData.ts:54-61 | an update giving all eight subfields makes the result independent of the previous identification |
| UseFormData.Loaded | src/hooks/useFormData.ts:16-31 | the load replaces the record only when the slot holds JSON that validates, and then with the parsed record |
| UseFormData.SaveThenLoad | src/hooks/useFormData.ts:16-42 | saving a valid record without a file and loading on a fresh mount restores it; a record with a file is not restored, and the default stays |
| UseFormData.FormDataHook.Mount | src/hooks/useFormData.ts:10-13 | the first render holds the default record, is loading, has no save time and no unsaved changes |
| UseFormData.FormDataHook.Load | src/hooks/useFormData.ts:16-31 | the record becomes `Loaded` of the slot and the loading flag is cleared; nothing else changes |
| UseFormData.FormDataHook.SaveToStorage | src/hooks/useFormData.ts:34-42 | a save writes the record's JSON to the slot, records the time and clears the dirty flag; a storage exception changes nothing |
| UseFormData.FormDataHook.UpdateFormData | src/hooks/useFormData.ts:45-51 | the record becomes the update merged over it and the dirty flag is set; slot and save time are untouched |
| UseFormData.FormDataHook.UpdateIdentification | src/hooks/useFormData.ts:54-61 | only the identification changes, merged with the given subfields, and the dirty flag is set |
| UseFormData.FormDataHook.ResetFormData | src/hooks/useFormData.ts:64-69 | the record is the default, the slot is empty, the dirty flag is clear and the save time is null |
| UseFormData.FormDataHook.SaveFormData | src/hooks/useFormData.ts:72-74 | the manual save writes the current record as `SaveToStorage` does |
| UseFormData.FormDataHook.AutoSaveFires | src/hooks/useFormData.ts:77-85 | the auto-save acts exactly like a save when there are unsaved changes, and does nothing otherwise |
| PdfUtils.Classify | src/lib/pdf-utils.ts:421-466 | a PDF-like type (including empty) is kept iff it has the `%PDF` header or is larger than 1000 bytes; an `image/` type is converted; everything else is dropped |
| PdfUtils.ProcessFileForPdf | src/lib/pdf-utils.ts:418-467 | a kept blob is returned unchanged, a converted one is the conversion's result (none on failure), a dropped one is null |
| PdfUtils.ProcessedOrigin | src/lib/pdf-utils.ts:421-466 | with a PDF header the blob comes back unchanged; without one, something comes back iff the blob exceeds 1000 bytes; an unsupported type gives null |
| PdfUtils.StatusColor | src/lib/pdf-utils.ts:335-342 | each of the three statuses gets a colour other than the default grey, and every other status gets the default grey |
| PdfUtils.StatusColorsDistinct | src/lib/pdf-utils.ts:335-342 | two different statuses never share a colour |
| PdfUtils.StatusLabel | src/lib/pdf-utils.ts:344-357 | the tag is the status upper-cased followed by a colon |
| PdfUtils.StatusContent | src/lib/pdf-utils.ts:344-361 | the content is empty iff the status is not one of the three; otherwise it contains the status tag and the status colour |
| PdfUtils.FirstSegment | src/lib/pdf-utils.ts:86 | the segment is the longest dash-free prefix of the client id |
| PdfUtils.ReferenceNumber | src/lib/pdf-utils.ts:86 | a client id without a dash gives `BGC-` followed by the whole id |
| PdfUtils.ReferenceIgnoresSuffix | src/lib/pdf-utils.ts:86 | the reference number is `BGC-` followed by the id up to its first dash, whatever follows |
| PdfUtils.ApplicantLines | src/lib/pdf-utils.ts:95-102 | the applicant block has a second address line iff `streetAddress2` is non-empty, holding that value |
| PdfUtils.LetterHead | src/lib/pdf-utils.ts:65-87 | the heading is three sections ending with the reference line |
| PdfUtils.ApplicantBlock | src/lib/pdf-utils.ts:90-106 | the applicant block is present iff the record has a client |
| PdfUtils.LetterBody | src/lib/pdf-utils.ts:109-130 | the body shows the selected checks and then the status paragraph |
| PdfUtils.NotesBlock | src/lib/pdf-utils.ts:133-138 | the notes block is present iff the memo is non-empty |
| PdfUtils.CoverLetter | src/lib/pdf-utils.ts:54-167 | a letter exists iff the form type is one of the three (otherwise the builder throws) |
| PdfUtils.CoverLetterLayout | src/lib/pdf-utils.ts:54-167 | places every section of the letter, with the optional applicant and notes blocks shifting the positions after them |
| PdfUtils.CoverLetterUnique | src/lib/pdf-utils.ts:54-167 | the applicant, checks, status and notes sections occur only at their places |
| PdfUtils.CoverLetterContents | src/lib/pdf-utils.ts:90-138 | the letter lists the checks once, in selection order. It has an applicant block iff there is a client and a notes block iff the memo is non-empty. Its status paragraph is the status content |
| PdfUtils.RemoveChild | src/lib/pdf-utils.ts:330 | the removal succeeds iff the node is a child, and then exactly that node is gone |
| PdfUtils.Mounted | src/lib/pdf-utils.ts:190-191 | while the letter renders the body holds the container, and the letter's `div` is a child of the body only if it already was |
| PdfUtils.CoverOutcome | src/lib/pdf-utils.ts:196-331 | a letter comes back only as rendered, and nothing comes back when rendering fails or the node the cleanup removes is not a child of the body |
| PdfUtils.CoverCleanupAsWritten | src/lib/pdf-utils.ts:329-331 | removing the letter's `div` from the body always throws, so the renderer never returns a letter |
| PdfUtils.CoverCleanupCorrected | src/lib/pdf-utils.ts:190-191 | removing the container instead restores the body's children and returns the rendered letter |
| PdfUtils.MergedLayout | src/lib/pdf-utils.ts:469-480 | the merged page count is the sum of the inputs', and each input's pages appear unchanged, in order, after those of the inputs before it |
| PdfUtils.MergePdfs | src/lib/pdf-utils.ts:469-480 | the merge succeeds iff every blob loads, and then its pages are all inputs' pages in input order |
| PdfDownloadSection.RemoveAt | src/components/admin/PDFDownloadSection.tsx:49 | removing an index shortens the list by one and shifts later items down |
| PdfDownloadSection.InsertAt | src/components/admin/PDFDownloadSection.tsx:50 | inserting puts the item at the index and shifts later items up |
| PdfDownloadSection.MovedIsPermutation | src/components/admin/PDFDownloadSection.tsx:48-52 | a move keeps length and multiset, puts the dragged item at the destination and keeps the other items in relative order |
| PdfDownloadSection.Moved | src/components/admin/PDFDownloadSection.tsx:45-53 | defines the drag result: the item at the source index removed and reinserted at the destination index |
| PdfDownloadSection.MovedBack | src/components/admin/PDFDownloadSection.tsx:48-52 | dragging the item back undoes the move |
| PdfDownloadSection.ItemPdf | src/components/admin/PDFDownloadSection.tsx:146-174 | a cover counts iff it renders to an `application/pdf` blob, and then it is that blob; another item needs a non-empty url and a successful fetch, and then it is exactly the processing result of the fetched blob |
| PdfDownloadSection.CollectedAppend | src/components/admin/PDFDownloadSection.tsx:145-175 | the PDFs of earlier items come before those of later items |
| PdfDownloadSection.Collected | src/components/admin/PDFDownloadSection.tsx:143-179 | defines the collected PDFs: each item's PDF in item order, items that fail skipped |
| PdfDownloadSection.CollectedFromItems | src/components/admin/PDFDownloadSection.tsx:145-175 | at most one PDF per item, and each collected PDF is the one some item contributes |
| PdfDownloadSection.CollectedEmptyIff | src/components/admin/PDFDownloadSection.tsx:145-179 | nothing is collected iff every item fails |
| PdfDownloadSection.WithoutCover | src/components/admin/PDFDownloadSection.tsx:145-179 | the items left hold no cover letter and are no more than the items |
| PdfDownloadSection.CollectedAsWritten | src/components/admin/PDFDownloadSection.tsx:146-157 | with the cleanup as written, the packet is exactly what the items other than the cover letter contribute |
| PdfDownloadSection.CollectedCorrected | src/components/admin/PDFDownloadSection.tsx:146-157 | with the corrected cleanup, every item, the cover letter included, contributes what the collaborators give |
| PdfDownloadSection.DownloadResult | src/components/admin/PDFDownloadSection.tsx:177-188 | no PDF is the error outcome; one PDF is used as it is; two or more are merged, or fail if one does not load |
| PdfDownloadSection.DownloadName | src/components/admin/PDFDownloadSection.tsx:192 | the file name is the first name, then `_` and the last name, then `_Background_Check.pdf`, with nothing else in it |
| PdfDownloadSection.DownloadSection.SyncItems | src/components/admin/PDFDownloadSection.tsx:41-43 | a new item list replaces the displayed order |
| PdfDownloadSection.DownloadSection.ButtonDisabled | src/components/admin/PDFDownloadSection.tsx:307 | the download button is disabled while a packet is being generated or when the list is empty |
| PdfDownloadSection.DownloadSection.DragEnd | src/components/admin/PDFDownloadSection.tsx:45-53 | a drop outside the list changes nothing; otherwise the list becomes the move, a permutation of the old list |
| PdfDownloadSection.DownloadSection.DownloadPdf | src/components/admin/PDFDownloadSection.tsx:140-298 | the run ends in `DownloadResult` of the displayed items, leaves the list as it was and clears the in-progress flag; afterwards the button is disabled iff the list is empty |
| FileUploadSection.GuardError | src/components/admin/FileUploadSection.tsx:76-85 | a file passes iff its type is exactly `application/pdf` and it is at most 10 MiB; the type is checked first |
| FileUploadSection.NextProgress | src/components/admin/FileUploadSection.tsx:94-100 | one firing adds 10 below 90 and holds at 90 otherwise, keeping multiples of ten in [0,90] |
| FileUploadSection.ProgressClosedForm | src/components/admin/FileUploadSection.tsx:89-101 | after k firings from 0 the bar shows min(10k, 90) |
| FileUploadSection.FolderName | src/components/admin/FileUploadSection.tsx:44-45 | the folder is `ClearTech Reports - ` followed by the form type's title |
| FileUploadSection.FirstFile | src/components/admin/FileUploadSection.tsx:61-71 | of several files only the first is taken, and none of none |
| FileUploadSection.UploadedInfo | src/components/admin/FileUploadSection.tsx:110-117 | the stored file info has the file's name, size and type, the object url, a date upload time and an id that reads back as the clock value |
| FileUploadSection.UploadSection.SetDragOver | src/components/admin/FileUploadSection.tsx:47-55 | sets the drag-over flag and nothing else |
| FileUploadSection.UploadSection.HandleFileUpload | src/components/admin/FileUploadSection.tsx:74-130 | a rejected file only sets the guard's error. Otherwise the bar climbs by `ProgressAfter` and the interval clears itself on its tenth firing. Success shows 100 and stores the file info in the record. Failure sets the error, stops uploading, resets progress, leaves the record alone and leaves a still-running interval behind |
| FileUploadSection.UploadSection.LeakedIntervalFires | src/components/admin/FileUploadSection.tsx:93-101 | a leaked interval climbs the bar by ten; on the firing that finds it at 90 or more it sets 90 and stops |
| FileUploadSection.UploadSection.SettleAfterSuccess | src/components/admin/FileUploadSection.tsx:121-124 | the post-upload timer clears the uploading flag and the progress |
| FileUploadSection.UploadSection.HandleDrop | src/components/admin/FileUploadSection.tsx:57-65 | the drag highlight goes off; no file changes nothing else; otherwise the first file meets the guard, success or failure outcome of the upload |
| FileUploadSection.UploadSection.HandleFileSelect | src/components/admin/FileUploadSection.tsx:67-72 | the drag highlight is untouched; no file changes nothing; otherwise the first file meets the guard, success or failure outcome of the upload |
| FileUploadSection.UploadSection.HandleRemoveFile | src/components/admin/FileUploadSection.tsx:132-135 | the record loses its file and the error is cleared |
| ConfigurationSection.FindClient | src/components/admin/ConfigurationSection.tsx:106-108 | the result is the first listed client with the chosen id, and none exactly when no listed client has it |
| ConfigurationSection.ChannelIdFor | src/components/admin/ConfigurationSection.tsx:123-129 | the channel id is exactly that of the first channel of the client when it is non-empty, and undefined when it is empty or there is no such channel |
| ConfigurationSection.CustomField | src/components/admin/ConfigurationSection.tsx:114-121 | a custom field's value when present, else the empty string |
| ConfigurationSection.Prefill | src/components/admin/ConfigurationSection.tsx:110-122 | the pre-fill gives all eight identification fields |
| ConfigurationSection.PrefillReplaces | src/components/admin/ConfigurationSection.tsx:110-122 | the pre-filled identification takes the names from given and family name and the address from the custom fields (unit from `unitapartment`); nothing typed before survives |
| ConfigurationSection.OfferedClients | src/components/admin/ConfigurationSection.tsx:137-138 | every offered client has an id |
| ConfigurationSection.OfferedClientsExact | src/components/admin/ConfigurationSection.tsx:138 | a client is offered iff it is listed and has an id |
| ConfigurationSection.OfferedAppend | src/components/admin/ConfigurationSection.tsx:137-147 | the offered clients keep the list's order |
| ConfigurationSection.OnClientSelect | src/components/admin/ConfigurationSection.tsx:101-131 | the record's client becomes the chosen id. For a listed client the identification is pre-filled and the file channel becomes the client's first channel. Otherwise nothing else changes |
| ConfigurationSection.OnFormTypeChange | src/components/admin/ConfigurationSection.tsx:173-174 | the form type is set and the selected checks are emptied |
| SubmittedFormsSection.NonNull | src/components/admin/SubmittedFormsSection.tsx:95 | exactly the non-null responses are kept |
| SubmittedFormsSection.AllResponsesAppend | src/components/admin/SubmittedFormsSection.tsx:88-95 | responses are grouped by form, in form order |
| SubmittedFormsSection.AllResponses | src/components/admin/SubmittedFormsSection.tsx:88-95 | defines the flattened responses: each form's responses in form order, a failed or data-less form contributing none, null entries removed |
| SubmittedFormsSection.FailedFormContributesNothing | src/components/admin/SubmittedFormsSection.tsx:77-94 | a form whose response call fails or has no data contributes nothing |
| SubmittedFormsSection.ClientForms | src/components/admin/SubmittedFormsSection.tsx:98-100 | a response is kept iff its client id is the selected client |
| SubmittedFormsSection.ClientFormsAppend | src/components/admin/SubmittedFormsSection.tsx:98-100 | the client filter keeps the order of the responses |
| SubmittedFormsSection.SignedContracts | src/components/admin/SubmittedFormsSection.tsx:134 | a contract is kept iff its status is `signed` |
| SubmittedFormsSection.SignedContractsAppend | src/components/admin/SubmittedFormsSection.tsx:134 | the status filter keeps the order of the contracts |
| SubmittedFormsSection.FormsPanel.StartLoadForms | src/components/admin/SubmittedFormsSection.tsx:55-62 | an empty client clears the forms and ends the load; otherwise the forms spinner starts and the error is cleared |
| SubmittedFormsSection.FormsPanel.IsLoading | src/components/admin/SubmittedFormsSection.tsx:51 | the panel is loading while either the forms or the contracts load is in progress |
| SubmittedFormsSection.FormsPanel.FinishLoadForms | src/components/admin/SubmittedFormsSection.tsx:64-108 | an error result keeps the forms and the error; an exception sets the forms error; a list makes the forms the client's responses; the spinner stops |
| SubmittedFormsSection.FormsPanel.LoadForms | src/components/admin/SubmittedFormsSection.tsx:55-109 | an empty client clears the forms without loading. An error result returns early with the forms unchanged, and an exception sets the error. Otherwise the forms are the client's responses. The loading flag ends cleared |
| SubmittedFormsSection.FormsPanel.StartLoadContracts | src/components/admin/SubmittedFormsSection.tsx:112-119 | an empty client clears the contracts and ends the load; otherwise the contracts spinner starts and the error is cleared |
| SubmittedFormsSection.FormsPanel.FinishLoadContracts | src/components/admin/SubmittedFormsSection.tsx:121-147 | an error result keeps the contracts and the error; an exception or a missing list sets the contracts error; a list makes the contracts the signed ones; the spinner stops |
| SubmittedFormsSection.FormsPanel.LoadContracts | src/components/admin/SubmittedFormsSection.tsx:112-148 | an empty client clears the contracts. An error result leaves them. A missing list or an exception sets the error. Otherwise the contracts are the signed ones. The loading flag ends cleared |
| SubmittedFormsSection.FormsPanel.Refresh | src/components/admin/SubmittedFormsSection.tsx:152-155 | both loads start before either finishes; afterwards nothing is loading, each list that arrives is the filtered result and a list whose load fails keeps its old value; the error is cleared only when neither load fails, a single failure's message stays, and with two failures the later one's shows |
| Middleware.DropSpaces | src/middleware.ts:19 | drops exactly the leading whitespace |
| Middleware.DropTrailingSpaces | src/middleware.ts:19 | drops exactly the trailing whitespace |
| Middleware.Collapse | src/middleware.ts:18 | the collapse never lengthens the text and keeps whether it starts with whitespace |
| Middleware.CollapseNoDoubleSpace | src/middleware.ts:18 | after the collapse no two whitespace characters are adjacent |
| Middleware.CollapseFixed | src/middleware.ts:18 | a text without double whitespace is left unchanged |
| Middleware.CollapseKeepsVisible | src/middleware.ts:18 | the non-whitespace characters survive the collapse, in order |
| Middleware.CollapseRun | src/middleware.ts:18 | a run of two or more whitespace characters between visible characters becomes exactly one space, and the texts on either side collapse independently |
| Middleware.Trim | src/middleware.ts:19 | the result is a contiguous slice of the input, everything cut off on either side is whitespace, and the result neither starts nor ends with whitespace |
| Middleware.TrimKeepsVisible | src/middleware.ts:19 | trimming keeps every non-whitespace character, in order |
| Middleware.TrimNoDoubleSpace | src/middleware.ts:17-19 | trimming keeps the absence of double whitespace |
| Middleware.TrimFixed | src/middleware.ts:19 | a text already without leading or trailing whitespace is left unchanged |
| Middleware.Normalize | src/middleware.ts:17-19 | the policy value has no two adjacent whitespace characters and no leading or trailing whitespace |
| Middleware.NormalizeKeepsVisible | src/middleware.ts:17-19 | squeezing keeps every non-whitespace character of the policy, in order |
| Middleware.NormalizeIdempotent | src/middleware.ts:17-19 | squeezing twice is squeezing once |
| Middleware.HeaderKeys | src/middleware.ts:21-37 | the two header names are stored under their lower-case keys |
| Middleware.Headers.Set | src/middleware.ts:22 | setting a header stores the value under the lower-cased name |
| Middleware.HandleRequest | src/middleware.ts:3-40 | in development the request passes through. Otherwise request and response carry the same squeezed policy, the request also gets `x-nonce`, and the other request headers are kept |
| InternalPage.FormatLastSaved | src/app/internal/page.tsx:107-116 | null gives "Never saved"; under a minute (negative included) gives "Saved just now"; one whole minute gives "Saved 1 minute ago"; otherwise "Saved N minutes ago" with N ≥ 2 the number of whole minutes elapsed, written in decimal without leading zeros |
| InternalPage.Capitalize | src/app/internal/page.tsx:197-198 | the badge text is the status with its first character upper-cased and the rest unchanged |
| InternalPage.CapitalizeIdempotent | src/app/internal/page.tsx:197-198 | capitalizing a capitalized status changes nothing |
| InternalPage.StatusBadge | src/app/internal/page.tsx:181-188 | default iff cleared, secondary iff pending, destructive for everything else |
| DocumentCard.TypeLabel | src/components/shared/DocumentCard.tsx:39-43 | "PDF" iff the type is `pdf` or `application/pdf`; otherwise "Image" iff it starts with `image/` or is `image`; "Document" for the rest |
| DocumentCard.TypeIcon | src/components/shared/DocumentCard.tsx:29-37 | the file-text icon for PDF types, the image icon for image types, the generic icon otherwise |
| DocumentCard.IconFollowsLabel | src/components/shared/DocumentCard.tsx:29-43 | icon and label make the same three-way split |
| DocumentCard.VisibleActions | src/components/shared/DocumentCard.tsx:77-116 | View shows iff a view handler is given; Download shows iff the variant is admin and a download handler is given, so never for clients |

## Left out

- **SDK and network glue** (`src/lib/actions/`): `listForms`, `listFormResponses`, `listContracts`, the client and file-channel lists and `createFile` are not part of this model.
  - Their results are parameters.
  - A client or channel list missing from a response is the empty list.
  - `createFile` is an opaque success or failure.
- **Cover-letter rendering**: the DOM, the canvas and the PDF writer turn the letter into pages, and the page-fit arithmetic is floating point.
  - The letter is modelled as its sequence of sections and their text. Markup and styling are not modelled.
  - The rendered blob is a parameter. Of the DOM, only the body's list of children is modelled, for the cleanup in the `finally` block.
  - Everything except `PdfDownloadSection.CollectedAsWritten` and `PdfUtils.CoverCleanupAsWritten` takes the cover renderer as able to succeed, which is the corrected behaviour described under "## Findings".
- **Image conversion and PDF parsing and saving** are parameters.
  - `MergePdfs` returns the merged document rather than its saved bytes.
  - A blob that does not load aborts the merge.
- **`processFileForPDF` read failures**: an `arrayBuffer` read failure in the PDF branch is not modelled. It would also give null.
- **`formatFileSize`** is floating point.
- **The download delivery**: the blob URL, the iframe detection, the pop-up and the link click, and the revoke timer.
  - `DownloadPdf` ends with the outcome that would be offered.
  - The alert is the `NoFiles`/`MergeFailed` outcome.
- **Timers** are not modelled. The 200 ms progress interval is the number of firings, and the 500 ms settle, the 30 s auto-save, the 5 s revoke and each firing of a leaked progress interval are methods the caller invokes.
- FileUploadSection.UploadSection.HandleFileUpload: the firings of intervals leaked by earlier failed uploads are `LeakedIntervalFires` calls between operations; their interleaving with a later upload's own firings, which makes that bar climb faster, is not modelled.
- **Time and randomness** are parameters: the clock value and the nonce.
- **Concurrency**: the per-form response calls, which run concurrently, are taken in form order. The two loads of a refresh both start, then finish in an order given as a parameter; a refresh overlapping an earlier one is not modelled.
- **Stale closures**: React state setters are modelled as immediate field updates. `updateIdentification` reads the render's identification while the model reads the current one; this makes no difference when all eight fields are given, as in the client pre-fill.
- FileUploadSection.UploadSection.HandleDrop and FileUploadSection.UploadSection.HandleFileSelect: the drop and select handlers are memoised once, so in the source they call the first render's upload function (with that render's folder name and file channel); the model uses the current one.
- Middleware.Collapse: whitespace is the ASCII set of `Text.IsSpace`; JavaScript's `\s` also matches Unicode spaces.
- Middleware.HandleRequest: header names are lower-cased for ASCII letters only.
- Middleware.Headers.constructor: keeps the names of `init` as given, where `new Headers(init)` lower-cases them. The names it copies come from the incoming request's own `Headers`, which are already lower-case.
- InternalPage.Capitalize: only ASCII letters are upper-cased; JavaScript's `toUpperCase` also maps other letters and can lengthen one (`ß`).
- SubmittedFormsSection.NonNull: response entries are objects or null; an `undefined` entry would pass the null filter and make the client filter throw, which takes the error path in the source.
- **Custom fields** are a string-to-string map, and client ids are strings.
- **Schema messages**:
  - Validation messages that the schema leaves to the validator are shortened (`Invalid enum value`, `Expected date`, `Required`).
  - The issue objects carry only a path and a message.
- **JSON and storage**:
  - JSON text is represented by the record it parses back to. The only change a round trip makes is the upload date turning into a string.
  - Text in the slot that is not JSON is `Unparsable`.
  - The Redis serialization of records is not modelled.
- **Types not in the model**:
  - `BackgroundCheckFormData` and `BackgroundCheckFile` are not defined in `src/types/index.ts`, so the store holds the schema's record type.
  - `FileItem` is imported from `AdminInterface.tsx`, which does not export it. Its shape is taken from the commented interface in `PDFDownloadSection.tsx`.
- PdfDownloadSection.DownloadSection.DragEnd: requires both indexes to be within the list, which the drag-and-drop library guarantees.
- **UI-only parts**:
  - the per-check file trackers, `updateCheckFileStatus`, and the parent's `onClientSelect` callback;
  - the list icons and captions, the badge colour classes and the button icons;
  - the client-list and channel-list fetch effects of the admin page.

## Findings

| source | as written | input that shows it | evidently intended | confidence | as-written member | corrected member |
|---|---|---|---|---|---|---|
| src/lib/pdf-utils.ts:329-331 | the `finally` block calls `document.body.removeChild(tempDiv)`, but `tempDiv` was appended to the isolating container (:190), not to the body; the removal throws, the exception replaces the rendered blob, and `PDFDownloadSection.tsx:155-157` drops it | any download whose list holds the cover letter: the packet is produced without it | remove the container from the body (`document.body.removeChild(isolatedContainer)`), which restores the body and returns the letter | high; not executed | PdfDownloadSection.CollectedAsWritten | PdfDownloadSection.CollectedCorrected |
