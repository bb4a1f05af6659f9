# Upload session, project page and dashboard of a personalised-video campaign app

The application lets a user build a bulk personalised-video campaign. The model covers three pieces of its logic, with the UI taken away:

- **The upload step** (`UploadStep`, module `UploadStep`). This is the session state of the component: the parsed CSV (`csvData`), the mapping of four prospect fields to CSV columns (`columnMapping`), and two video slots (`video1` required, `video2` optional). The class `UploadSession` holds these four fields. Its methods are the component's handlers:
  - load a parsed CSV;
  - set one mapping field;
  - attach a video after checking its MIME type;
  - remove the CSV or a video;
  - `handleNext`.

  Each method's `modifies` clause names exactly the fields that the source's setters write. Object URLs come from the class `ObjectUrls`. It draws handles from a counter and keeps a ghost set of live handles. `createObjectURL` adds a handle to that set and `revokeObjectURL` removes it. `UploadSession.Leaked()` is the set of live handles that no slot refers to any more.
- **The project page** (`ProjectDetail`, module `ProjectDetail`). The class `ProjectPage` holds the fields `project`, `isEditing`, `projectName` and `currentStep`. The model covers:
  - the step chosen from the loaded status;
  - starting processing;
  - the rename and its trim guard;
  - cancel-edit;
  - the wiring of the upload step's `onNext` to `handleStartProcessing`.

  The status label and colour lookups are pure functions.
- **The dashboard** (`Dashboard`, module `Dashboard`). This part is pure: the status lookups, the `_count.prospects` enrichment of the query's rows, and the record a new project is inserted with.

Supporting modules: `Wrappers` (an `Option` type for `null`/`undefined`), `Text` (`trim` and `startsWith`), and `Status` (the four status keys `draft`, `processing`, `completed` and `error`).

External calls become method parameters:
- The outcome of `Papa.parse` is given as a `ParseResult`, a sequence of rows with empty lines already skipped, or an error message.
- The answer of the project query is an `Option<Project>`.
- The success of the rename write is a `bool`.
- The query rows of the dashboard are given as a value.

Four behaviours of the code are looser than what one would expect of an upload form. The model follows the code in each case:
- Replacing the CSV does not reset the mapping. Only `removeFile("csv")` resets it, so a new upload keeps the column names chosen for the old file (`UploadStep.tsx:55`).
- `canProceed` checks only that the four mapping strings are non-empty. It does not check that they name headers of the current CSV (`UploadStep.tsx:124-131`).
- Re-attaching a video does not revoke the slot's previous object URL, so a slot can leave more than one live handle behind (`UploadStep.tsx:89-95`). `HandleVideoUpload` moves the old handle into `Leaked()`, and `AttachTwice` shows two live handles for one slot.
- Submitting the upload step does not move the project from draft to processing. It changes only the page's local step; persisting the status is a TODO (`ProjectDetail.tsx:99-106`).

An empty parse result (no row at all) is not refused by the code. `results.data[0]` is then `undefined`, so `FromRows` gives `headers == None` with no data and no preview, and `csvData` becomes present.

## Model

| member | source | states |
|---|---|---|
| `UploadStep.FromRows` | src/components/UploadStep.tsx:51-53 | for a non-empty row sequence, the header row followed by the data rows gives back exactly the input; for an empty one the headers are absent and there is no data; the preview is a prefix of the data of length min(5, number of data rows) |
| `UploadStep.ColumnMapping.With` | src/components/UploadStep.tsx:211 | the chosen field takes the given value, whatever it is, and every other field is unchanged |
| `UploadStep.ColumnMapping.IsComplete` | src/components/UploadStep.tsx:127-130 | true iff every one of the four fields is a non-empty string; headers are not consulted |
| `Text.StartsWith` | src/components/UploadStep.tsx:80 | true iff the string is the prefix followed by the rest of the string |
| `UploadStep.IsVideo` | src/components/UploadStep.tsx:80 | a file is accepted iff its MIME type is "video/" followed by any subtype, the empty one included |
| `UploadStep.IsVideoExamples` | src/components/UploadStep.tsx:80-87 | "video/mp4" and "video/" pass; "text/plain", "audio/mpeg", "Video/mp4" and "video" are refused |
| `UploadStep.CanProceed` | src/components/UploadStep.tsx:124-131 | true iff the CSV is present, the first video slot has a file and all four mapping fields are non-empty; the second slot is not an argument, so it cannot affect the result |
| `UploadStep.ObjectUrls.Create` | src/components/UploadStep.tsx:89 | returns a never-issued handle, numbered by the counter, which then advances by one; that handle becomes live and no other handle changes |
| `UploadStep.ObjectUrls.Revoke` | src/components/UploadStep.tsx:112 | removes exactly that handle from the live set; harmless on a dead one |
| `UploadStep.UploadSession.constructor` | src/components/UploadStep.tsx:29-37 | no CSV, an all-empty mapping, two empty slots |
| `UploadStep.UploadSession.HandleCsvUpload` | src/components/UploadStep.tsx:45-71 | no file or a parse error leaves `csvData` unchanged (and reports which); a successful parse sets `csvData` to the split of the rows and reports the number of data rows; it writes `csvData` only, so the mapping and both slots survive |
| `UploadStep.UploadSession.SetMapping` | src/components/UploadStep.tsx:209-268 | writes the mapping only, to the old mapping with one field replaced by the given value |
| `UploadStep.UploadSession.HandleVideoUpload` | src/components/UploadStep.tsx:73-102 | accepted iff a file is given and its type starts with "video/"; otherwise nothing changes; when accepted, the chosen slot becomes {file, fresh url, preview = url}, the other slot and the CSV state are unchanged, one never-issued handle (the counter's value, after which the counter advances) is added to the live set and the slot's previous handle stays live, joining the leaked set |
| `UploadStep.UploadSession.RemoveFile` | src/components/UploadStep.tsx:104-122 | "csv" clears the data and all four mapping fields and leaves the slots and handles alone; a video kind revokes that slot's handle if it has one, empties the slot and touches nothing else; the leaked set is unchanged |
| `UploadStep.UploadSession.HandleNext` | src/components/UploadStep.tsx:133-137 | `onNext` is called exactly when `canProceed` holds; no state changes |
| `UploadStep.AttachTwice` | src/components/UploadStep.tsx:89-95 | two accepted uploads to one slot leave two distinct live handles, the slot holding the second and the first leaked |
| `UploadStep.AttachRemoveAttach` | src/components/UploadStep.tsx:89-119 | attaching after a removal gets a new handle, distinct from the revoked one, which stays dead |
| `Text.Trim` | src/pages/ProjectDetail.tsx:74 | the result is the name with exactly its leading and trailing white space cut off: a contiguous piece of it, framed by white space only, that neither starts nor ends with white space; it is empty iff the name is all white space |
| `Text.TrimIdempotent` | src/pages/ProjectDetail.tsx:84 | trimming the stored, already trimmed name again changes nothing |
| `ProjectDetail.StepAfterLoad` | src/pages/ProjectDetail.tsx:53-59 | draft selects upload, processing selects processing, completed selects results; the step only changes for those three statuses, so "error" and unknown statuses keep the current step (upload on a fresh page) |
| `ProjectDetail.StepOfStatusOfStep` | src/pages/ProjectDetail.tsx:53-59 | loading the status a step stands for selects that step from any current step |
| `ProjectDetail.StatusOfSelectedStep` | src/pages/ProjectDetail.tsx:53-59 | whenever loading changes the step, the new step stands for the loaded status |
| `ProjectDetail.StepAfterLoadIdempotent` | src/pages/ProjectDetail.tsx:53-59 | loading the same status twice selects what loading it once did |
| `ProjectDetail.StatusColor` | src/pages/ProjectDetail.tsx:108-115 | the class differs from the grey default iff the status is completed, processing or error |
| `ProjectDetail.StatusColorsDistinct` | src/pages/ProjectDetail.tsx:108-115 | completed, processing and error get three different classes; draft gets the default |
| `ProjectDetail.StatusText` | src/pages/ProjectDetail.tsx:117-125 | the label differs from the status iff the status is one of the four known ones; any other status is shown verbatim |
| `ProjectDetail.StatusTextInjective` | src/pages/ProjectDetail.tsx:117-125 | different known statuses get different labels |
| `ProjectDetail.ProjectPage.constructor` | src/pages/ProjectDetail.tsx:27-31 | no project, not editing, empty edit buffer, the upload step |
| `ProjectDetail.ProjectPage.FetchProject` | src/pages/ProjectDetail.tsx:39-71 | a record sets the project and the edit buffer and selects the step by `StepAfterLoad`; a failed query changes nothing here and navigates back to the dashboard; editing is untouched |
| `ProjectDetail.ProjectPage.StartProcessing` | src/pages/ProjectDetail.tsx:99-106 | the step becomes processing from any step; the project, its status included, is untouched |
| `ProjectDetail.ProjectPage.StartEditing` | src/pages/ProjectDetail.tsx:188 | editing starts; nothing else changes |
| `ProjectDetail.ProjectPage.EditName` | src/pages/ProjectDetail.tsx:164 | the edit buffer takes the typed text unchanged |
| `ProjectDetail.ProjectPage.UpdateProjectName` | src/pages/ProjectDetail.tsx:73-97 | nothing is attempted without a project or when the buffer trims to ""; after a successful write the project has the trimmed name with every other field kept, and editing ends; the buffer stays untrimmed; a failed write changes nothing |
| `ProjectDetail.ProjectPage.CancelEdit` | src/pages/ProjectDetail.tsx:174-177 | the edit buffer is restored to the project's name and editing ends; the project is untouched |
| `ProjectDetail.ProjectPage.SubmitUpload` | src/pages/ProjectDetail.tsx:211-214 | the page moves to processing exactly when the upload session can proceed, and otherwise keeps its step |
| `Dashboard.StatusColor` | src/pages/Dashboard.tsx:94-101 | the class differs from the grey default iff the status is completed, processing or error; draft gets the default |
| `Dashboard.StatusColorsDistinct` | src/pages/Dashboard.tsx:94-101 | completed, processing and error get three different classes; draft gets the default |
| `Dashboard.StatusColorAgreesOnColoured` | src/pages/Dashboard.tsx:94-101 | the dashboard colours a status iff the project page does |
| `Dashboard.StatusText` | src/pages/Dashboard.tsx:103-111 | an unknown status is returned unchanged |
| `Dashboard.StatusTextAgrees` | src/pages/Dashboard.tsx:103-111 | for every string, the dashboard's label equals the project page's label |
| `Dashboard.ProspectCount` | src/pages/Dashboard.tsx:47 | the count is the length of the prospects list when present and 0 when missing |
| `Dashboard.WithCount` | src/pages/Dashboard.tsx:44-48 | every field of the row is kept and the prospect count is added |
| `Dashboard.WithCounts` | src/pages/Dashboard.tsx:44-49 | the same number of rows, in the same order, each enriched |
| `Dashboard.ProjectsWithCounts` | src/pages/Dashboard.tsx:44-49 | a missing answer gives the empty list; otherwise one enriched row per row, in order |
| `Dashboard.WithCountsRoundTrip` | src/pages/Dashboard.tsx:44-49 | dropping the added counts gives back exactly the query's rows |
| `Dashboard.NewProjectRecord` | src/pages/Dashboard.tsx:71-77 | a new project always has status draft and belongs to the given user |
| `Dashboard.NewProjectOpensOnUpload` | src/pages/Dashboard.tsx:74 | a newly created project opens on the upload step with the draft label |

## Left out

- CSV tokenisation by `Papa.parse` is an external library. Its output is an input to `HandleCsvUpload`, with empty lines already skipped. The asynchronous callback is treated as part of the same step.
- The browser URL API is modelled only as allocating and releasing handles. No bytes or playback are modelled.
- Toasts, clearing the file inputs (`inputRef.current.value`), JSX rendering and the `isLoading` flags are UI side effects. The rendering crash that an undefined header row would cause is also UI behaviour and is not modelled.
- All Supabase and auth calls are left out: fetch, insert, update, the `order("created_at")` sort and the user lookup. Their answers become parameters. `src/pages/Index.tsx` is auth-session plumbing and is not part of this model.
- `Dashboard.ProspectCount` takes `prospects` as a given optional list. What the embedded `prospects (count)` select actually returns is decided by the database client and is not modelled.
- Date formatting (`toLocaleDateString`) is left out. `NewProjectRecord` takes the formatted date as a string.
- `useEffect` and promise scheduling are left out. Each handler runs to completion in one step.
- Text.Trim: uses a small fixed set of white-space characters (space, tab, line feed, carriage return, vertical tab, form feed), not the full Unicode white-space class of JavaScript's `trim`.
- Status transitions to completed or error, and persisting processing on submit, are not implemented by the code, so they are not modelled.
