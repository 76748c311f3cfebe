# Project/Client folder helper: a Dafny model

The extension adds two buttons to the command bar of a SharePoint list view.
`COMMAND_1` opens a "New Project" dialog and `COMMAND_2` a "New Client" dialog.
Each dialog asks for a name and keeps a sanitised copy of it: the text is cut to
255 characters, and the characters `" * : < > ? / \ |` are removed. On Create
the dialog trims the name and asks SharePoint whether the folder exists. If it
does not, the dialog copies a template folder to the new path. A project folder
is then looked up by path and tagged `IsProjectFolder`. Finally the browser is
sent to the new folder.

The model has seven modules:

- `Wrappers`: `Option` and `Result`.
- `JsString`: the JavaScript string operations the code relies on.
  - `substring(0, n)`.
  - `trim()`, over ECMAScript's white-space and line-terminator set.
  - `replace` with a string pattern, which replaces only the first occurrence.
- `NameSanitizer`: the sanitiser and the validity rule.
- `DialogForm`: the dialog component's four-field state as a class. Its change
  and submit handlers are methods.
- `FolderPaths`: the tenant root, the parent folder (which the `ID` query
  parameter can override), the new folder's URLs, and the copy's source and
  destination.
- `SubmitWorkflow`: each dialog's `_submit` promise chain. It is a function from
  the scripted SharePoint replies to the trace of events it issues:
  `CheckExists`, `Copy`, `GetId`, `Patch`, `Alert`, `Close` and `Navigate`.
- `CommandSet`: the command set as a class. It holds the two commands'
  `visible` flags and a dispatcher that can fail.

Every SharePoint reply is an input. The existence check's reply is one of:

- `Rejected`: the request failed, and the `.catch(() => {})` yielded `undefined`.
- `Resolved(Some(b))`: a JSON body whose `value` is `b`.
- `Resolved(None)`: a body without a `value` field.

The copy and patch replies are booleans. The ID lookup reply is an
`Option<int>`.

Notes on the behaviour of the code that the model reproduces:

- A rejected existence check does not count as "not a duplicate". The code reads
  `response.value` of `undefined` at NewProjectReactDialog.tsx:145 (and
  NewClientReactDialog.tsx:131), which throws. The trace then holds only the
  check: no copy and no close.
- A body without `value` is falsy, so the chain goes on to the copy.
- The copy's boolean is never inspected. Neither is the patch's. A failed copy
  is followed by the ID lookup, the patch and the navigation exactly as a
  successful one. There is no "copy failed" outcome.
- The patch is sent with `IF-MATCH: *` (NewProjectReactDialog.tsx:251), so it overwrites whatever version of the item is current.
- The project flow closes the dialog and then navigates. The client flow
  navigates and then closes (NewClientReactDialog.tsx:139-140).
- Validity depends on the raw length only. `***` is valid although its
  sanitised name is empty.
- The tenant root removes the FIRST occurrence of the web's server-relative
  URL, not a trailing one. The lemma `TenantRootRemovesFirstOccurrence` shows
  that when the web's URL also appears earlier (a web `/t` at
  `https://tenant/t`), the earlier copy is cut, even inside the host name, and
  the trailing one stays. `TenantRootOfSiteUrl` proves that the usual case gives
  back the tenant root.

## Model

| member | source | states |
|---|---|---|
| `JsString.Substring` | src/extensions/projectClientHelper/NewProjectReactDialog.tsx:71 | the result is the first min(len, n) characters of the input |
| `JsString.IsTrimSpace` | src/extensions/projectClientHelper/NewProjectReactDialog.tsx:132 | the characters `trim()` removes: ECMAScript's white space (tab, vertical tab, form feed, space, no-break space, byte order mark, the space separators) and line terminators (line feed, carriage return, U+2028, U+2029) |
| `JsString.TrimStart` | src/extensions/projectClientHelper/NewProjectReactDialog.tsx:132 | the result is a suffix of the input. Everything cut is white space, and the result does not start with white space |
| `JsString.TrimEnd` | src/extensions/projectClientHelper/NewProjectReactDialog.tsx:132 | the result is a prefix of the input. Everything cut is white space, and the result does not end with white space |
| `JsString.Trim` | src/extensions/projectClientHelper/NewProjectReactDialog.tsx:132 | the trimmed name is no longer than the input, and neither of its ends is white space |
| `JsString.TrimIsSlice` | src/extensions/projectClientHelper/NewProjectReactDialog.tsx:132 | the trimmed name is the slice of the input that starts where the leading white space ends |
| `JsString.TrimCutsOnlySpace` | src/extensions/projectClientHelper/NewProjectReactDialog.tsx:132 | everything after the kept slice is white space |
| `JsString.TrimKeepsCharacters` | src/extensions/projectClientHelper/NewClientReactDialog.tsx:125 | every character of the trimmed name occurs in the input |
| `JsString.TrimIdempotent` | src/extensions/projectClientHelper/NewClientReactDialog.tsx:125 | trimming twice gives the same result as trimming once |
| `JsString.IndexOfFrom` | src/extensions/projectClientHelper/NewProjectReactDialog.tsx:133 | the result is the first occurrence of the pattern at or after `from`, or none when no such occurrence exists |
| `JsString.IndexOf` | src/extensions/projectClientHelper/NewProjectReactDialog.tsx:133 | the result is the first occurrence of the pattern, or none when the pattern does not occur |
| `JsString.ReplaceFirst` | src/extensions/projectClientHelper/NewProjectReactDialog.tsx:133 | an empty replacement never lengthens the string |
| `JsString.ReplaceFirstAbsent` | src/extensions/projectClientHelper/NewProjectReactDialog.tsx:133 | an absent pattern leaves the string unchanged |
| `JsString.ReplaceFirstAt` | src/extensions/projectClientHelper/NewProjectReactDialog.tsx:133 | when the pattern first occurs at i, exactly that occurrence is replaced |
| `NameSanitizer.IsReserved` | src/extensions/projectClientHelper/NewProjectReactDialog.tsx:70 | the reserved characters are exactly the nine of the regex class: `" * : < > ? / \ \|` (the client's regex is NewClientReactDialog.tsx:68) |
| `NameSanitizer.IsValidInput` | src/extensions/projectClientHelper/NewProjectReactDialog.tsx:74 | the input is valid exactly when the raw text has at least one character (the client's rule is NewClientReactDialog.tsx:72) |
| `NameSanitizer.StripReserved` | src/extensions/projectClientHelper/NewProjectReactDialog.tsx:70-72 | no reserved character survives, and the result is no longer than the input |
| `NameSanitizer.Sanitize` | src/extensions/projectClientHelper/NewProjectReactDialog.tsx:70-72 | the sanitised name has no reserved character and is at most 255 characters long and at most the raw length (the client copy is NewClientReactDialog.tsx:68-70) |
| `NameSanitizer.StripReservedIsSubsequence` | src/extensions/projectClientHelper/NewProjectReactDialog.tsx:72 | the kept characters stay in their original order |
| `NameSanitizer.StripReservedCount` | src/extensions/projectClientHelper/NewProjectReactDialog.tsx:72 | every occurrence of a reserved character is removed, and every occurrence of any other character is kept |
| `NameSanitizer.StripReservedOfClean` | src/extensions/projectClientHelper/NewProjectReactDialog.tsx:72 | a name without reserved characters is unchanged |
| `NameSanitizer.SanitizeKeepsOrder` | src/extensions/projectClientHelper/NewProjectReactDialog.tsx:71-72 | the sanitised name is the non-reserved characters of the first 255 raw characters, all of them, in order |
| `NameSanitizer.SanitizeIdempotent` | src/extensions/projectClientHelper/NewProjectReactDialog.tsx:59-72 | re-sanitising the field's value leaves it unchanged |
| `NameSanitizer.SanitizeOfCleanName` | src/extensions/projectClientHelper/NewProjectReactDialog.tsx:71-72 | a clean name of at most 255 characters is kept verbatim |
| `NameSanitizer.ValidityIgnoresSanitisedName` | src/extensions/projectClientHelper/NewProjectReactDialog.tsx:74 | `***` is valid while its sanitised name is empty. The empty text is invalid |
| `DialogForm.NameForm.CreateEnabled` | src/extensions/projectClientHelper/NewProjectReactDialog.tsx:64 | Create is enabled exactly when the input is valid and no submit is loading (the client's button is NewClientReactDialog.tsx:62) |
| `DialogForm.NameForm.constructor` | src/extensions/projectClientHelper/NewProjectReactDialog.tsx:33-42 | the initial state is not valid, not loading, has an empty name and no duplicate, and Create is disabled |
| `DialogForm.NameForm.InputOnChange` | src/extensions/projectClientHelper/NewProjectReactDialog.tsx:69-79 | the name becomes Sanitize(val) and isValid becomes raw length >= 1. Loading and duplicate are reset. Create is enabled iff val is non-empty (the same handler is NewClientReactDialog.tsx:67-77; the button rule is line 64) |
| `DialogForm.NameForm.SubmitClick` | src/extensions/projectClientHelper/NewProjectReactDialog.tsx:81-92 | sets isLoading and leaves the other three fields unchanged. It submits the kept name, which is clean and at most 255 characters. Called only while Create is enabled (its one caller is the button at line 64), and Create is disabled afterwards, so a second click cannot submit (the client copy is NewClientReactDialog.tsx:79-90) |
| `DialogForm.TypeAndSubmit` | src/extensions/projectClientHelper/NewProjectReactDialog.tsx:59-90 | typing raw text enables Create iff the text is non-empty. Pressing Create then submits exactly Sanitize(raw), and for empty text nothing is submitted |
| `FolderPaths.TenantRoot` | src/extensions/projectClientHelper/NewProjectReactDialog.tsx:133 | a web URL of length <= 1 leaves the absolute URL unchanged. The result is never longer than the absolute URL |
| `FolderPaths.TenantRootOfSiteUrl` | src/extensions/projectClientHelper/NewProjectReactDialog.tsx:133 | when the absolute URL is root + web URL and the web URL first occurs there, the tenant root is root |
| `FolderPaths.TenantRootWithoutOccurrence` | src/extensions/projectClientHelper/NewProjectReactDialog.tsx:133 | a web URL that does not occur in the absolute URL removes nothing |
| `FolderPaths.TenantRootCutsFirstOccurrence` | src/extensions/projectClientHelper/NewProjectReactDialog.tsx:133 | for a web URL longer than one character that first occurs at i, the tenant root is the absolute URL with exactly that occurrence cut out |
| `FolderPaths.TenantRootRemovesFirstOccurrence` | src/extensions/projectClientHelper/NewProjectReactDialog.tsx:189 | when the web URL first occurs at i and also ends the absolute URL, exactly the occurrence at i is cut (even inside the host name), and the tenant root still ends with the web URL |
| `FolderPaths.ProjectFolderPath` | src/extensions/projectClientHelper/NewProjectReactDialog.tsx:127-131 | the folder path is the decoded `ID` parameter when one is present, and the list URL otherwise |
| `FolderPaths.NewFolderRelativeUrl` | src/extensions/projectClientHelper/NewProjectReactDialog.tsx:135 | the relative URL splits into the folder, a slash and the name |
| `FolderPaths.NewFolderUrl` | src/extensions/projectClientHelper/NewProjectReactDialog.tsx:134 | the new folder URL is the tenant root followed by the new folder's relative URL |
| `FolderPaths.NewFolderRelativeUrlInjective` | src/extensions/projectClientHelper/NewProjectReactDialog.tsx:135 | for names without `/`, distinct (folder, name) pairs give distinct relative URLs |
| `FolderPaths.ProjectTemplateSource` | src/extensions/projectClientHelper/NewProjectReactDialog.tsx:190 | the copy source is tenant root + list URL + `/02. Project Folder Template`. It ignores the `ID` override |
| `FolderPaths.ProjectCopyDestination` | src/extensions/projectClientHelper/NewProjectReactDialog.tsx:184-191 | the copy destination, recomputed in `createFolderCopy`, equals the new folder URL from `_submit` |
| `FolderPaths.ClientTemplateSource` | src/extensions/projectClientHelper/NewClientReactDialog.tsx:161-162 | the copy source is tenant root + list URL + `/01. Client Folder Template` |
| `FolderPaths.ClientCopyDestination` | src/extensions/projectClientHelper/NewClientReactDialog.tsx:161-163 | the copy destination equals the client's new folder URL under the list |
| `SubmitWorkflow.ProjectPaths` | src/extensions/projectClientHelper/NewProjectReactDialog.tsx:127-135 | the name is the trimmed input, and the checked path is folder path + "/" + name. The navigation URL is the tenant root + that path. The copy destination, recomputed at lines 184-191, is that same URL. The template source is tenant root + list URL + `/02. Project Folder Template` |
| `SubmitWorkflow.ClientPaths` | src/extensions/projectClientHelper/NewClientReactDialog.tsx:125-129 | the same for the client, always under the list URL, with `/01. Client Folder Template` as template (the copy's paths are lines 161-163) |
| `SubmitWorkflow.ProjectChain` | src/extensions/projectClientHelper/NewProjectReactDialog.tsx:137-169 | the first event checks the relative URL. Close happens iff the check resolved. A copy happens iff the check resolved to a value other than true. Then the copy goes from the template to the destination and the last event navigates to the new folder. A duplicate raises an alert naming the folder |
| `SubmitWorkflow.ClientChain` | src/extensions/projectClientHelper/NewClientReactDialog.tsx:129-145 | the same statements for the client chain, with navigation somewhere after the copy |
| `SubmitWorkflow.ProjectSubmit` | src/extensions/projectClientHelper/NewProjectReactDialog.tsx:126-169 | the first event checks folder path + "/" + trimmed name. When the chain proceeds, the last event navigates to the tenant root + that path |
| `SubmitWorkflow.ClientSubmit` | src/extensions/projectClientHelper/NewClientReactDialog.tsx:124-145 | the first event checks list URL + "/" + trimmed name. When the chain proceeds, the trace navigates to the tenant root + that path |
| `SubmitWorkflow.DuplicateMessage` | src/extensions/projectClientHelper/NewProjectReactDialog.tsx:148 | the alert text is `A folder with the name '<name>' already exists` (the client's is NewClientReactDialog.tsx:134) |
| `SubmitWorkflow.IsDuplicate` | src/extensions/projectClientHelper/NewProjectReactDialog.tsx:145-147 | the alert branch is taken only when the check resolved with a `value` of true |
| `SubmitWorkflow.Proceeds` | src/extensions/projectClientHelper/NewProjectReactDialog.tsx:145-150 | the copy branch is taken when the check resolved with a `value` that is absent or false |
| `SubmitWorkflow.ExistsReplyCases` | src/extensions/projectClientHelper/NewProjectReactDialog.tsx:145-150 | every existence reply takes exactly one way: the throw on a rejected check, the alert, or the copy |
| `SubmitWorkflow.DuplicateMessageNamesFolder` | src/extensions/projectClientHelper/NewProjectReactDialog.tsx:148 | the alert text quotes the trimmed name |
| `SubmitWorkflow.ProjectDuplicateStops` | src/extensions/projectClientHelper/NewProjectReactDialog.tsx:144-150 | an existence value of true gives exactly check, alert naming the trimmed name, close. No copy or later call follows |
| `SubmitWorkflow.ProjectRejectedCheckStops` | src/extensions/projectClientHelper/NewProjectReactDialog.tsx:144-147 | a rejected check (line 179 yields undefined, line 145 throws) leaves the check as the only event |
| `SubmitWorkflow.ProjectChainProceeds` | src/extensions/projectClientHelper/NewProjectReactDialog.tsx:150-161 | with no duplicate, the chain is exactly check, copy from the template to the destination, ID lookup on the checked path, patch with the looked-up ID, close, navigation to the new folder |
| `SubmitWorkflow.ProjectChainOrder` | src/extensions/projectClientHelper/NewProjectReactDialog.tsx:126-161 | with no duplicate, the whole trace for typed text: check of folder path + "/" + trimmed name, copy from tenant root + list URL + template onto tenant root + that path, ID lookup on the checked path, patch with the looked-up ID, close, navigation to the copy's destination |
| `SubmitWorkflow.ProjectIgnoresCopyAndPatchResults` | src/extensions/projectClientHelper/NewProjectReactDialog.tsx:151-161 | the trace does not depend on the copy's or the patch's boolean |
| `SubmitWorkflow.ProjectTemplateIgnoresIdParam` | src/extensions/projectClientHelper/NewProjectReactDialog.tsx:190 | the copy source is the same whatever the `ID` parameter, and an `ID` equal to the list URL changes nothing |
| `SubmitWorkflow.ClientRejectedCheckStops` | src/extensions/projectClientHelper/NewClientReactDialog.tsx:129-131 | a rejected client check (line 155 yields undefined, line 131 throws) leaves the check as the only event: no alert, copy, navigation or close |
| `SubmitWorkflow.ClientDuplicateStops` | src/extensions/projectClientHelper/NewClientReactDialog.tsx:130-135 | an existence value of true gives exactly check, alert naming the trimmed name, close |
| `SubmitWorkflow.ClientChainOrder` | src/extensions/projectClientHelper/NewClientReactDialog.tsx:136-141 | with no duplicate, the trace is check, one copy of the client template onto the new folder URL, navigation there, close. Flipping the copy's boolean changes nothing |
| `SubmitWorkflow.ClientNeverTagsFolder` | src/extensions/projectClientHelper/NewClientReactDialog.tsx:124-145 | no client trace contains an ID lookup or a patch |
| `SubmitWorkflow.SubmittedFolderNameIsClean` | src/extensions/projectClientHelper/NewProjectReactDialog.tsx:132 | the folder name `_submit` uses for typed text is clean and at most 255 characters long |
| `SubmitWorkflow.ProjectUnderSiteRoot` | src/extensions/projectClientHelper/NewProjectReactDialog.tsx:132-135 | for a site at root + web URL with no `ID` parameter, the check targets list URL + "/" + name, the copy reads root + list URL + template, and the copy and the navigation both target root + list URL + "/" + name |
| `CommandSet.CommandsVisible` | src/extensions/projectClientHelper/ProjectClientHelperCommandSet.ts:41-42 | a command is visible exactly when the list's title is `Client & Partner Data` (the same test is at lines 54 and 59) |
| `CommandSet.ProjectClientHelperCommandSet.OnInit` | src/extensions/projectClientHelper/ProjectClientHelperCommandSet.ts:32-45 | both commands' visibility equals (title == `Client & Partner Data`). A missing command makes the unguarded assignment throw, and later assignments do not happen |
| `CommandSet.ProjectClientHelperCommandSet.OnListViewUpdated` | src/extensions/projectClientHelper/ProjectClientHelperCommandSet.ts:48-61 | the same rule is applied to each command that was found. A missing command keeps its flag |
| `CommandSet.ProjectClientHelperCommandSet.OnExecute` | src/extensions/projectClientHelper/ProjectClientHelperCommandSet.ts:64-82 | `COMMAND_1` shows a project dialog with "What is your project's name?" and `COMMAND_2` shows a client dialog with "What is your client's name?". Both get the command set's context. Any other id fails with `Unknown command` |
| `CommandSet.InitThenUpdate` | src/extensions/projectClientHelper/ProjectClientHelperCommandSet.ts:39-60 | with both commands present, init then a list-view update shows both buttons iff the title is `Client & Partner Data` |

## Left out

- Rendering (React, Fabric UI, the spinner, the label, the text field's JSX) is presentation. Only the state record and the Create-button predicate are kept.
- The dialog lifecycle is host plumbing: `onBeforeOpen`'s `setTimeout`, `onAfterClose` and unmounting, `getConfig`, and the internals of `show` and `close`. `Close` is a trace event.
- `SPHttpClient` calls are network I/O and are not modelled in detail. Each call is an event carrying its path argument, and each reply is an input. Not modelled: endpoint strings, OData bodies and headers (`RetainEditorAndModifiedOnMove`, `IF-MATCH: *`, `X-HTTP-Method: MERGE`), and SharePoint's copy, ID and merge semantics.
- Promise timing is not modelled. The chain is linear, so it is modelled as a sequence of steps.
- `console.log` and `Log.info` are not modelled. `Dialog.alert` and the `location.href` assignment are trace events.
- `UrlQueryParameterCollection` parsing and `decodeURIComponent` are library calls. The decoded `ID` value is an input (`idParam`). The source parses the same `window.location.href` twice (lines 128 and 185 of NewProjectReactDialog.tsx). The model reads the parameter once for both uses.
- `decodeURIComponent` throws `URIError` on a malformed `%` escape in the `ID` parameter (NewProjectReactDialog.tsx:130 and 187). That would end `_submit` before any request. The model takes the decoded value as its input, so it cannot represent that failure.
- `FolderPaths.TenantRoot`: the test `serverRelativeUrl.length > 1` (NewProjectReactDialog.tsx:133 and 189, NewClientReactDialog.tsx:126 and 161) counts UTF-16 code units; the model counts Unicode scalar values. The two agree except for a one-character web URL outside the Basic Multilingual Plane.
- `JsString.Substring`: the model counts Unicode scalar values, but `substring(0, 255)` counts UTF-16 code units. The cut can therefore differ for names with characters outside the Basic Multilingual Plane.
- `CommandSet.ProjectClientHelperCommandSet.OnExecute`: the dialog object is represented by the value that is shown (kind, message, context). It is not a heap object whose fields are assigned before `show()`.
- The `message` prop handed to each dialog is never rendered: the text field's label is a literal. The model keeps it only on the shown dialog.
- `isDuplicate` is never set to true anywhere in the source. The model keeps the field, and only the change handler writes it (to false).
