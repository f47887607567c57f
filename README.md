# BaseFund, modelled in Dafny

BaseFund is a crowdfunding app. A creator fills in a project form. The form asks an
image service for a logo, registers the project on a contract, and POSTs the record to
the `/api/projectlist` route. The route saves it in a project collection. A list page
shows the stored projects and lets a visitor contribute through the contract. A header
shows the connected wallet.

This project models that core and proves properties of it. There is one module per
source file:

- `ProjectModel` (`project_model.dfy`) is the project schema. It has the document, a
  draft of the values handed to it, validation, and the two defaults.
- `ProjectListRoute` (`projectlist_route.dfy`) is the route.
  - The contributors filter is a pure function.
  - The POST and GET answers are functions.
  - The store is a class `ProjectStore` whose `records` the POST handler appends to.
- `ProjectForm` (`project_form.dfy`) is the form.
  - The field update, the contributors list sent to the contract and the POST body are
    pure functions.
  - The submit sequence is the function `Submit`.
  - The component state is the class `ProjectFormState`. Its validation builds the
    error map step by step, and its submit handler updates `loading`, `imageUrl` and
    `errors`.
- `ProjectListPage` (`project_list_page.dfy`) is the list page.
  - It has the contributors line, the cards and the status line.
  - The class `ProjectListState` holds the fetched list, the loading flag and the
    transaction status.
- `Header` (`header.dfy`) is the shortened address and the wallet area.
- `ImageService` (`image_service.dfy`) is the image service's `/generate` endpoint.
  - It has the prompt and its inverse.
  - The answer is specified as a function.
  - The handler is a method whose loop takes the first reply part with inline data and
    stops.
- `CreateFlow` (`create_flow.dfy`) composes the pieces. It states what each side
  receives from the others.
- Supporting modules:
  - `Text` (`text.dfy`) holds the JavaScript string operations the app uses: `trim`,
    `split` on one character, `join`, and `slice`.
  - `Json`, `Http` and `Wrappers` hold JSON values, HTTP answers, `Option` and `Result`.

Everything outside the app's own code is a parameter of the model:
- the wallet and the contract write, given as "written" or "threw";
- the database, given as "reachable" or "not" and "write accepted" or "not";
- the image model's reply;
- `fetch` and `axios` outcomes;
- `parseFloat`, as an uninterpreted function from a string to an optional number, where
  None stands for NaN.

The composition lemmas in `CreateFlow` show how the pieces fit together as written:
- The form sends the date as `endDate`. The schema requires `deadline`. So the route
  answers every form submission with 500, whatever the form holds.
- The form sends `contributors` as the raw comma-separated string. The route turns a
  non-array into no contributors. The contract call, by contrast, gets at least one
  entry.
- The form shows its success alert whenever the POST resolves, including on that 500.
- A valid form's description always passes the image service's guard.
- An error answer from the image service makes the image URL
  `data:image/png;base64,undefined`, and the flow goes on.
- No card on the list page passes a project id to `contribute`, because a document
  saved by the route has no `projectId`.

Two further facts about the code:
- The form writes no funding goal or deadline to the contract: `createProject` receives
  the image URL, title, description and contributors only.
- The positivity check on the funding goal lives only in the form. The schema does not
  check it.

## Model

Some definitions carry no contract of their own and are used by the members below:
- `ProjectForm.Fails` and `ProjectForm.Passes` are the form's checks,
  app/projectform/page.tsx:34-42.
- `ProjectModel.Valid` is the schema's required paths and casts, app/models/Project.ts:6-43.
- `ProjectListRoute.Destructure` and `ProjectListRoute.DraftOf` are the destructuring and
  the document constructor's argument, app/api/projectlist/route.ts:7-33.
- `ProjectListPage.CardOf` is one card, app/projectlist/page.tsx:58-86.
- `ProjectListRoute.Stored` is what every stored document satisfies.
- `ProjectListRoute.Properties` is what destructuring sees: `null` throws, and other
  non-objects have none of the nine properties, app/api/projectlist/route.ts:7-17.
- `ProjectForm.Message` is the six error texts, app/projectform/page.tsx:34-42.
- `ProjectForm.CreateArgsOf` is the `createProject` arguments,
  app/projectform/page.tsx:65-70.
- `ProjectForm.NumberOrNull` is how `JSON.stringify` sends a parsed number, with NaN as
  `null`, app/projectform/page.tsx:79-80.
- `CreateFlow.ImageRequest` is the image request's body, app/projectform/page.tsx:55.
- `ProjectListPage.Resolves` is when axios resolves: a 2xx answer,
  app/projectlist/page.tsx:37.
- `Text.Join` is `join`, app/projectlist/page.tsx:76.

| member | source | states |
|---|---|---|
| Text.Trim | app/api/projectlist/route.ts:20 | `trim` gives "" exactly when the string is all white space; otherwise the result neither starts nor ends with white space; `TrimIsInfix` adds that only white-space ends are removed |
| Text.TrimIsInfix | app/projectform/page.tsx:34-38 | trimming removes only white space, and only from the two ends: the result occurs contiguously in the input, with white space alone before and after it |
| Text.Split | app/projectform/page.tsx:69 | `split(",")` yields at least one piece, and no piece contains the separator |
| Text.SplitLength | app/projectform/page.tsx:69 | `split(",")` yields one more piece than there are commas |
| Text.JoinSplit | app/projectform/page.tsx:69 | joining the pieces of a split with the separator gives back the original string |
| Text.SplitJoin | app/projectform/page.tsx:69 | splitting a join of separator-free pieces gives back the pieces |
| Text.JoinHasPart | app/projectlist/page.tsx:76 | every piece appears whole in the joined string |
| Text.SliceTo | app/components/Headers.tsx:10 | `slice(0, k)` is the prefix of length min(k, n) |
| Text.SliceLast | app/components/Headers.tsx:10 | `slice(-k)` is the suffix of length min(k, n) |
| ProjectModel.StringSlot | app/models/Project.ts:7-22 | undefined or null counts as absent; a string is given; any other JSON value fails the String cast |
| ProjectModel.NumberSlot | app/models/Project.ts:23-30 | undefined or null counts as absent; a number is given; any other JSON value fails the Number cast |
| ProjectModel.WithDefault | app/models/Project.ts:35-42 | a path with a default keeps a supplied value and takes the default when absent |
| ProjectModel.Build | app/models/Project.ts:6-43 | saving succeeds exactly when the draft is valid; the seven required fields are stored as given |
| ProjectModel.CategoryDefault | app/models/Project.ts:35-38 | a missing category is stored as "General"; a supplied one is stored unchanged |
| ProjectModel.WebsiteUrlDefault | app/models/Project.ts:39-42 | a missing website is stored as ""; a supplied one is stored unchanged |
| ProjectModel.MissingRequiredRejected | app/models/Project.ts:7-34 | a draft missing any required field is not saved |
| ProjectModel.NumbersUnconstrained | app/models/Project.ts:23-30 | changing the funding goal or the deadline to any number, negative or past, never changes whether a draft saves |
| ProjectListRoute.KeepNonBlank | app/api/projectlist/route.ts:20 | every kept contributor has a non-empty trim, and a string is kept exactly when it is in the input with a non-empty trim |
| ProjectListRoute.KeepNonBlankIsSubsequence | app/api/projectlist/route.ts:20 | the kept contributors are the original, untrimmed strings, in their original order |
| ProjectListRoute.KeepNonBlankNoBlanks | app/api/projectlist/route.ts:20 | a list without blank entries passes through unchanged |
| ProjectListRoute.KeepNonBlankIdempotent | app/api/projectlist/route.ts:20 | cleaning twice is cleaning once |
| ProjectListRoute.KeepNonBlankCounts | app/api/projectlist/route.ts:20 | every non-blank string is kept as many times as it occurs, and every blank one is dropped |
| ProjectListRoute.KeepNonBlankAppend | app/api/projectlist/route.ts:20 | cleaning a concatenation is concatenating the cleaned parts: the filter judges each entry alone |
| ProjectListRoute.PostStoresValidRecord | app/api/projectlist/route.ts:19-35 | the record a 201 POST returns has non-blank contributors and a non-empty title, description, image URL and creator name |
| ProjectListRoute.Strings | app/api/projectlist/route.ts:19-20 | the strings of an all-string JSON array, element by element |
| ProjectListRoute.CleanContributors | app/api/projectlist/route.ts:19-21 | a missing or non-array value becomes []; an array with a non-string element throws; otherwise the result is the array's strings with the blank ones removed, so no blank survives |
| ProjectListRoute.SaveOutcome | app/api/projectlist/route.ts:19-35 | 201 exactly when the write is accepted, the cleaning succeeds and the draft validates, carrying the built record; otherwise the 500 answer |
| ProjectListRoute.PostOutcome | app/api/projectlist/route.ts:4-42 | POST answers 201 with the record or 500 "Server error"; 201 needs a connected database, a readable body and an accepted write, and the stored contributors are non-blank |
| ProjectListRoute.PostCreatedExactly | app/api/projectlist/route.ts:19-35 | an object body is saved exactly when the database is up and writes, the contributors clean, and the picked fields validate; the answer is the built record |
| ProjectListRoute.PostNeedsObject | app/api/projectlist/route.ts:7-35 | a body that is not a JSON object (null, an array, a string, a number or a boolean) is always answered 500 "Server error" |
| ProjectListRoute.PostOnlyPicksNineFields | app/api/projectlist/route.ts:7-33 | removing every property but the nine destructured ones leaves the answer unchanged |
| ProjectListRoute.GetOutcome | app/api/projectlist/route.ts:44-56 | GET answers 200 with all records exactly when the database is reachable and the query works, otherwise 500 "Failed to fetch projects" |
| ProjectListRoute.ProjectStore.constructor | app/models/Project.ts:45-46 | the collection behind the `Project` model, which the model assumes starts empty (see "Left out"), so the store invariant holds from the start |
| ProjectListRoute.ProjectStore.Post | app/api/projectlist/route.ts:4-42 | answers as `PostOutcome`; a 201 appends exactly the returned record; every other answer leaves the store unchanged; every stored document stays non-blank in its contributors and required strings |
| ProjectListRoute.ProjectStore.Get | app/api/projectlist/route.ts:44-56 | answers as `GetOutcome` over the current records; every project a 200 lists has non-blank contributors and non-empty required strings |
| ProjectForm.HandleChange | app/projectform/page.tsx:29-30 | the changed field takes the new value and every other field keeps its value |
| ProjectForm.PassesIffNoFailure | app/projectform/page.tsx:32-44 | the form is valid exactly when no field's check fails |
| ProjectForm.NaNFundingGoalPasses | app/projectform/page.tsx:39-40 | a non-empty funding goal that parses to NaN does not fail the check |
| ProjectForm.CollectErrors | app/projectform/page.tsx:32-43 | the new error map has a key exactly for each failing check, holding that check's message |
| ProjectForm.NoErrorsIffPasses | app/projectform/page.tsx:44 | the error map is empty exactly when the form passes |
| ProjectForm.ChainContributors | app/projectform/page.tsx:69 | the contract gets one entry per comma-separated piece, each trimmed, blanks kept |
| ProjectForm.TrimEach | app/projectform/page.tsx:69 | each entry is trimmed, and the count is kept |
| ProjectForm.EmptyContributorsSendOneBlank | app/projectform/page.tsx:69 | an empty contributors input sends one empty contributor to the contract |
| ProjectForm.ImageDataUrl | app/projectform/page.tsx:58 | the URL is the PNG data prefix followed by the reply's `base64`, or by "undefined" when the reply has none |
| ProjectForm.PostBody | app/projectform/page.tsx:76-81 | the store request's body is a JSON object; its keys and values are stated by the two lemmas below |
| ProjectForm.PostBodyKeysExact | app/projectform/page.tsx:76-81 | the store body has exactly the nine form fields and `imageUrl`, and no `deadline` |
| ProjectForm.PostBodyValues | app/projectform/page.tsx:76-81 | the store body carries the raw fields, contributors as the raw string, the image URL, and the two parsed numbers, with an empty minimum contribution parsed as "0" |
| ProjectForm.Submit | app/projectform/page.tsx:47-91 | calls run in the order image fetch, contract write, store POST and stop at the first throw; none on an invalid form; no alert exactly when invalid; the success alert exactly when all three ran and the POST resolved |
| ProjectForm.AlertIgnoresStoreStatus | app/projectform/page.tsx:73-84 | the alert is the same whatever status the store answers with |
| ProjectForm.NoStoreWriteAfterThrow | app/projectform/page.tsx:52-87 | if the image fetch or the contract write throws, nothing is POSTed and a valid form gets the error alert |
| ProjectForm.ProjectFormState.constructor | app/projectform/page.tsx:13-27 | the form starts empty, with no image, no errors, and not loading |
| ProjectForm.ProjectFormState.Change | app/projectform/page.tsx:29-30 | the form becomes `HandleChange` of the old form |
| ProjectForm.ProjectFormState.ValidateForm | app/projectform/page.tsx:32-45 | the errors are replaced by exactly the failing checks with their messages; the result is true exactly when the form passes |
| ProjectForm.ProjectFormState.GenerateImageAndSubmit | app/projectform/page.tsx:47-91 | the calls and the alert are those of `Submit`; the form is unchanged; the preview is set when the image reply arrives; `loading` is false after every path that set it |
| ProjectForm.ProjectFormState.RunSteps | app/projectform/page.tsx:50-90 | on a valid form, the steps give the calls and alert of `Submit`, and `loading` ends false |
| ProjectListPage.ContributorsText | app/projectlist/page.tsx:75-78 | up to three contributors are joined by ", "; longer lists show the first three followed by "..." |
| ProjectListPage.ContributorsTextShowsFirst | app/projectlist/page.tsx:75-78 | each of the first min(3, n) contributors appears whole in the text |
| ProjectListPage.ContributorsTextHidesRest | app/projectlist/page.tsx:75-78 | contributors past the third never change the text, which then ends in "..." |
| ProjectListPage.NoContributorsShowsNothing | app/projectlist/page.tsx:75-78 | an empty list shows an empty line |
| ProjectListPage.View | app/projectlist/page.tsx:52-58 | the loading line exactly while loading; "No projects found." exactly when loaded and empty; otherwise one card per project, in order |
| ProjectListPage.NoCardHasProjectId | app/projectlist/page.tsx:82 | no card's Contribute button passes a project id |
| ProjectListPage.StatusLine | app/projectlist/page.tsx:90-94 | the status line is shown exactly when the status is not empty |
| ProjectListPage.ProjectListState.constructor | app/projectlist/page.tsx:10-12 | the page starts with no projects, loading, and an empty status |
| ProjectListPage.ProjectListState.FetchProjects | app/projectlist/page.tsx:34-47 | the list is replaced only when axios resolves; otherwise it is kept; `loading` is false afterwards |
| ProjectListPage.ProjectListState.ContributeToProject | app/projectlist/page.tsx:17-32 | the call is `contribute(projectId, address)`; the status shows "Sending transaction..." and then exactly one of the sent or failed texts |
| Header.ShortAddress | app/components/Headers.tsx:9-11 | null exactly for a missing or empty address; otherwise the first six characters (or all of them), then "...", then the last four (or all of them) |
| Header.ShortAddressOfLongAddress | app/components/Headers.tsx:10 | an address of ten or more characters gives thirteen characters, with "..." at positions 6 to 8 |
| Header.ShortAddressKeepsOnlyEnds | app/components/Headers.tsx:10 | addresses that share their first six and last four characters look the same |
| Header.Wallet | app/components/Headers.tsx:35-52 | "Not connected" exactly when no wallet is connected; otherwise the short address |
| Header.ConnectedShowsAddressEnds | app/components/Headers.tsx:35-43 | a connected long address shows thirteen characters that begin and end like the address |
| ImageService.MakeVisualPrompt | app/api/app.py:23-28 | the prompt is the fixed prefix, the description verbatim in single quotes, and the fixed suffix |
| ImageService.DescriptionOf | app/api/app.py:23-28 | whatever description is read back out of a prompt rebuilds that prompt |
| ImageService.PromptRoundTrip | app/api/app.py:23-28 | the description is recovered from its prompt |
| ImageService.PromptInjective | app/api/app.py:23-28 | different descriptions give different prompts |
| ImageService.FirstInline | app/api/app.py:48-60 | None exactly when no part has inline data; otherwise the payload of the first part that has some |
| ImageService.FirstInlineIgnoresLater | app/api/app.py:49-60 | parts after the first one with inline data are never looked at |
| ImageService.GenerateResponse | app/api/app.py:30-72 | 400 "Missing 'description'" exactly for a missing or empty description; 200 exactly when the first inline payload is non-empty, with the message, that payload and the prompt; every 500 holds only an error; a model reply without a non-empty inline payload gives 500 "No image found in response" |
| ImageService.MissingDescriptionIgnoresModel | app/api/app.py:33-36 | a missing description is answered before the model is consulted |
| ImageService.ExceptionTextReturned | app/api/app.py:71-72 | an exception is answered with 500 and its text |
| ImageService.GenerateImage | app/api/app.py:30-72 | the handler answers as `GenerateResponse`, whether or not the local save works; the file is saved only when an inline part was found and saving works |
| CreateFlow.ValidFormPassesImageGuard | app/projectform/page.tsx:36-37 | a valid form never meets the image service's 400 |
| CreateFlow.ServiceErrorGivesUndefinedImage | app/projectform/page.tsx:52-61 | an error answer from the image service gives the URL "data:image/png;base64,undefined", and the contract call is still made |
| CreateFlow.ServiceImageReachesForm | app/projectform/page.tsx:57-58 | on a 200 the image URL carries the payload the service picked |
| CreateFlow.FormBodyAlwaysRejected | app/projectform/page.tsx:73-82 | the route answers every body the form sends with 500, since the body has no `deadline` |
| CreateFlow.ContributorsLostOnTheWay | app/projectform/page.tsx:69-81 | the route cleans the form's contributors to [] while the contract gets at least one entry |
| CreateFlow.SuccessAlertOverRejectedSave | app/projectform/page.tsx:73-84 | the form shows the success alert while the route answered 500 |
| CreateFlow.ListShowsStoredRecords | app/projectlist/page.tsx:34-47 | the page takes the records exactly when GET answers 200, and shows one card per record |
| CreateFlow.CreateThenList | app/projectlist/page.tsx:52-55 | after creating a project through the form, the list page of a fresh store shows "No projects found." |

## Left out

- JSX markup, styling, the category options and the image preview are left out.
  `alert` and `console` output is modelled only as the alert kind.
- The async scheduling is left out. Each flow is one ordered chain of steps.
- The image model client, base64 decoding and the PIL save are left out. The model's
  reply and whether saving works are parameters.
- The wallet SDK, the contract and MongoDB are left out. Each is a success-or-throw
  parameter.
- Strings are sequences of Unicode scalar values. JavaScript's `slice`, `trim` and `split`
  count UTF-16 code units, and Python counts code points. The core only slices hex
  addresses and trims white space from the Basic Multilingual Plane, where the three agree.
- `parseFloat` and float arithmetic are left out. Numbers are Dafny `real`s, NaN is
  None. `parseFloat` is assumed to return a finite number or NaN. An input such as
  "Infinity" passes the form's positivity check and is then sent as `null`, like NaN;
  the model does not capture it.
- `app/page.tsx`, `app/api/generate/route.ts` and `next.config.mjs` are not part of this
  model. They only render, wrap the model client, or configure the build.
- ProjectModel.StringSlot: Mongoose's casts between types are not modelled. A number
  or boolean handed to a String path, or a numeric string handed to a Number path, is
  treated as a failed cast. The form never sends such values.
- ProjectModel.WithDefault: a `null` category or website is treated as absent, so it
  gets the default.
- The required validator on the `contributors` array accepts an empty array, as Mongoose
  5 and later do.
- ProjectListRoute.PostOutcome: the stored record is the schema's nine fields. The
  `_id` and `__v` that `toObject()` adds are not modelled.
- ProjectForm.ImageDataUrl: the image service's reply is a string-to-string object.
  `${data.base64}` of a non-string value is not modelled; the service only sends
  strings.
- ImageService.GenerateImage: a `description` that is present but not a string is not
  modelled; the form always sends a string.
- ProjectListPage.ContributorsText: the raw display of a non-array `contributors` is not
  modelled. Stored documents always hold an array.
- ProjectListPage.ProjectListState.FetchProjects: a 2xx answer whose body is not a list
  is not modelled. The route never sends one.
- The project collection is assumed to start empty and to be written only by the route's
  POST handler. Documents written any other way, which `Project.find()` would return with
  any extra fields such as a `projectId`, are not modelled. `ProjectStore.Get`'s
  guarantee about listed projects and `NoCardHasProjectId` rest on this.
