# Snyk for Visual Studio: a Dafny model of its scan orchestration and notification logic

This project models the core of the Snyk extension for Visual Studio in Dafny
and proves properties of the model.

- **Snyk Code scan service** (`SnykCode`, `snyk_code_service.dfy`). Its behaviour is taken from its unit tests.
  - A scan with an existing, valid code cache returns the cached analysis. It reads that result once and makes no remote call.
  - With an existing but invalid cache, the scan extends the bundle cached under its id. The hashes of the filtered changed files and the removed-file list passed with it are the model's choice; the test fixes only the bundle id.
  - With no cache, it creates a bundle from all filtered files, or returns nothing when the filter leaves no file.
  - Both remote paths upload the bundle's missing files, fetch the analysis for the bundle's id and return it unchanged. The cache then keeps that result and bundle id.
  - The bundle and analysis services are functions passed in. Their calls are recorded in a ghost log, and the cache's reads in a ghost counter.
- **Open Source scan service** (`OssService`, `oss_service.dfy`). A result cache, also taken from its tests.
  - The first scan runs the CLI. Later scans return the kept result.
  - `ClearCache` makes the next scan run the CLI again.
- **Info-bar service** (`InfoBar`, `info_bar.dfy`).
  - Error messages are cached by text, so a message whose bar is open is not shown twice.
  - Closing a bar removes exactly its entry.
  - The bar's two hyperlinks open the issues page and the known-caveats page.
- **Data-flow steps panel** (`DataFlowSteps`, `data_flow_steps.dfy`).
  - Analysis markers become a numbered list of steps, one per position, in marker order and then position order.
  - Each step is labelled `file:line` from the part of the name after its last `/`.
  - Its navigation target has 0-based lines and start column and keeps the end column as given.
  - The header reads `Data Flow - N step(s)`. The editor path drops the file name's first character and combines the rest with the solution path.
- **Status-bar notifications** (`StatusBarNotifications`, `status_bar.dfy`).
  - For each scan or download event, a function chooses which status-bar message, if any, is shown. The choice depends on the options and on whether the other product's scan is running.
  - A handler that dereferences a field no initialiser has set yet ends in a NullReferenceException, which the model returns as an outcome.
  - The service's lazily created single instance is modelled too.
- **Vulnerability description** (`OssDescription`, `oss_description.dfy`).
  - The texts the panel derives from a vulnerability: joins with `", "` and `" > "`, and the `"Upgrade to "` fix text.
  - The fixed-in text falls back to a fixed sentence when the display text is missing or blank.

`wrappers.dfy` (an `Option` type for C# nulls) and `strings.dfy` model the .NET string operations the code uses:
- decimal `ToString`, with its inverse `ParseNat`;
- `string.Join`;
- `LastIndexOf` followed by `Substring`;
- `char.IsWhiteSpace` and `string.IsNullOrWhiteSpace`.

Collaborators that the code calls but that are not modelled become parameters. These are the CLI, the bundle, analysis and filter services, and the solution path. The info-bar factory becomes an allocation of a new element. The status bar and tool window become small classes that record what was asked of them. The editor call becomes the step's navigation target, a value.

## Model

| member | source | states |
|---|---|---|
| SnykCode.SnykCodeService.constructor | Snyk.Code.Library.Tests/SnykCode/SnykCodeServiceTest.cs:38-43 | the service is built over a code cache and has made no remote call yet |
| SnykCode.SnykCodeService.ScanAsync | Snyk.Code.Library.Tests/SnykCode/SnykCodeServiceTest.cs:46-319 | valid cache: the cached result, read once, the remote-call log unchanged; invalid cache: extend the bundle cached under its id (the test fixes the id; the filtered changed files' hashes and the provider's removed files are the model's choice of the other two arguments), upload missing files, fetch the analysis for the extended bundle's id, return it unchanged; no cache and no filtered file: no result, no remote call, cache unchanged; no cache otherwise: create a bundle, upload, fetch for its id, return it unchanged; after either remote path the cache holds that result and bundle id |
| SnykCode.CodeCache.GetCachedAnalysisResult | Snyk.Code.Library.Tests/SnykCode/SnykCodeServiceTest.cs:186-214 | returns the cached result and counts one read, nothing else changes |
| SnykCode.CodeCache.SetAnalysisResult | Snyk.Code.Library.Tests/SnykCode/SnykCodeServiceTest.cs:120-121 | keeps the new result; the cache then exists and is valid |
| SnykCode.CodeCache.SetCachedBundleId | Snyk.Code.Library.Tests/SnykCode/SnykCodeServiceTest.cs:123-124 | keeps the new bundle id and changes nothing else |
| SnykCode.CacheHitScenario | Snyk.Code.Library.Tests/SnykCode/SnykCodeServiceTest.cs:166-215 | with a valid cache and any provider and services, the result is the cached two-file analysis, the analysis service is called zero times and the cached result is read exactly once |
| SnykCode.IncrementalScenario | Snyk.Code.Library.Tests/SnykCode/SnykCodeServiceTest.cs:46-164 | with an existing invalid cache, the bundle "testBundleId" is extended (the removed-file list the model passes is the provider's, an argument the test leaves open), its missing files are uploaded, the analysis for "testBundleId" is fetched, and the returned result has three file analyses |
| SnykCode.FullScanScenario | Snyk.Code.Library.Tests/SnykCode/SnykCodeServiceTest.cs:225-311 | with no cache and two filtered files: create-bundle, upload-missing-files and get-analysis are each called exactly once (for "dummyId"), extend never; the result has two file analyses, app1.js then app2.js |
| SnykCode.NoFilesScenario | Snyk.Code.Library.Tests/SnykCode/SnykCodeServiceTest.cs:313-319 | with no cache and no file left by the filter, the scan returns no result and calls no remote service |
| OssService.OssService.constructor | Snyk.VisualStudio.Extension.Tests/OssServiceTest.cs:36 | a new service holds no cached result and has not run the CLI |
| OssService.OssService.ScanAsync | Snyk.VisualStudio.Extension.Tests/OssServiceTest.cs:36-79 | with a kept result: returns it without running the CLI; without one: runs the CLI once, returns and keeps its result; either way the returned result is the one kept afterwards |
| OssService.OssService.ClearCache | Snyk.VisualStudio.Extension.Tests/OssServiceTest.cs:107-116 | the kept result is dropped; the CLI count is unchanged |
| OssService.FirstScanRunsCli | Snyk.VisualStudio.Extension.Tests/OssServiceTest.cs:15-43 | the first scan of a new service returns the CLI's result after exactly one CLI run |
| OssService.SecondScanServedFromCache | Snyk.VisualStudio.Extension.Tests/OssServiceTest.cs:45-80 | a second scan returns the first scan's result; the CLI ran exactly once in all |
| OssService.ClearCacheRescans | Snyk.VisualStudio.Extension.Tests/OssServiceTest.cs:82-117 | scan, ClearCache, scan: the result is the CLI's and the CLI ran exactly twice |
| InfoBar.OpenedUrls | Snyk.VisualStudio.Extension.Shared/UI/Notifications/VsInfoBarService.cs:59-67 | at most one URL opens; the issues URL exactly for "submitIssue", the known-caveats URL exactly for "knownCaveats", none for any other context |
| InfoBar.ErrorInfoBarModel | Snyk.VisualStudio.Extension.Shared/UI/Notifications/VsInfoBarService.cs:85-91 | its only text span is the message and it has a close button; its first hyperlink reads "Known Caveats" and carries the known-caveats context, its second reads "Submit an issue" and carries the submit-issue context |
| InfoBar.ErrorInfoBarLinksOpen | Snyk.VisualStudio.Extension.Shared/UI/Notifications/VsInfoBarService.cs:59-67 | clicking the error bar's first link opens exactly the known-caveats page, its second exactly the issues page |
| InfoBar.VsInfoBarService.constructor | Snyk.VisualStudio.Extension.Shared/UI/Notifications/VsInfoBarService.cs:29-34 | the message cache starts empty |
| InfoBar.VsInfoBarService.ElementsAreDistinct | Snyk.VisualStudio.Extension.Shared/UI/Notifications/VsInfoBarService.cs:95-99 | two cached messages that share an element are the same message |
| InfoBar.VsInfoBarService.ShowErrorInfoBar | Snyk.VisualStudio.Extension.Shared/UI/Notifications/VsInfoBarService.cs:76-102 | a cached message changes nothing (no element, no bar added); a new one adds exactly one entry, mapping it to a fresh element built for it, leaves every other entry unchanged and adds that element to the tool window |
| InfoBar.VsInfoBarService.OnClosed | Snyk.VisualStudio.Extension.Shared/UI/Notifications/VsInfoBarService.cs:40-47 | for a cached element, removes exactly the entry holding it (one entry fewer) and keeps the others with their elements |
| InfoBar.VsInfoBarService.ShowErrorInfoBarTwice | Snyk.VisualStudio.Extension.Shared/UI/Notifications/VsInfoBarService.cs:80-101 | showing a message twice leaves one entry for it and adds at most one info bar |
| DataFlowSteps.DataFlowStepsControl.constructor | Snyk.VisualStudio.Extension/Snyk/VisualStudio/Extension/UI/Toolwindow/SnykCode/DataFlowStepsControl.xaml.cs:28-35 | a new panel lists no step |
| DataFlowSteps.DataFlowStepsControl.Clear | Snyk.VisualStudio.Extension/Snyk/VisualStudio/Extension/UI/Toolwindow/SnykCode/DataFlowStepsControl.xaml.cs:40-45 | the list is empty and the header reads "Data Flow - 0 steps" |
| DataFlowSteps.DataFlowStepsControl.AddStep | Snyk.VisualStudio.Extension/Snyk/VisualStudio/Extension/UI/Toolwindow/SnykCode/DataFlowStepsControl.xaml.cs:51-58 | the step is appended and the header is the one for the new count |
| DataFlowSteps.StepsHeaderPlural | Snyk.VisualStudio.Extension/Snyk/VisualStudio/Extension/UI/Toolwindow/SnykCode/DataFlowStepsControl.xaml.cs:57 | after N >= 1 steps the header ends in "steps" exactly when N > 1 and in " step" exactly when N = 1 |
| DataFlowSteps.DataFlowStepsControl.Display | Snyk.VisualStudio.Extension/Snyk/VisualStudio/Extension/UI/Toolwindow/SnykCode/DataFlowStepsControl.xaml.cs:64-105 | the previous list is replaced by Steps(markers), the panel is visible exactly when there is a marker, and the header matches the final count |
| DataFlowSteps.DataFlowStepsControl.AddPositions | Snyk.VisualStudio.Extension/Snyk/VisualStudio/Extension/UI/Toolwindow/SnykCode/DataFlowStepsControl.xaml.cs:74-103 | one marker's positions become steps numbered on from the running index, appended in order |
| DataFlowSteps.DataFlowStepsControl.AddPositionStep | Snyk.VisualStudio.Extension/Snyk/VisualStudio/Extension/UI/Toolwindow/SnykCode/DataFlowStepsControl.xaml.cs:89-102 | the step for one position, numbered by the running index, is appended, and the index moves on by one |
| DataFlowSteps.MarkerPositionIndex | Snyk.VisualStudio.Extension/Snyk/VisualStudio/Extension/UI/Toolwindow/SnykCode/DataFlowStepsControl.xaml.cs:72-74 | the positions are visited marker by marker: position j of marker i comes right after the positions of the markers before it, offset by j |
| DataFlowSteps.StepOfMarkerPosition | Snyk.VisualStudio.Extension/Snyk/VisualStudio/Extension/UI/Toolwindow/SnykCode/DataFlowStepsControl.xaml.cs:70-103 | position j of marker i is step n + j, numbered n + j + 1, where n counts the positions of the earlier markers: marker-then-position order, consecutive numbers from 1 |
| DataFlowSteps.StepsNumberedConsecutively | Snyk.VisualStudio.Extension/Snyk/VisualStudio/Extension/UI/Toolwindow/SnykCode/DataFlowStepsControl.xaml.cs:70-100 | the row number of step k is the decimal text of k + 1 |
| DataFlowSteps.StepLabel | Snyk.VisualStudio.Extension/Snyk/VisualStudio/Extension/UI/Toolwindow/SnykCode/DataFlowStepsControl.xaml.cs:76-82 | a label is the file name after its last '/', then ':' and the first row |
| Strings.AfterLast | Snyk.VisualStudio.Extension/Snyk/VisualStudio/Extension/UI/Toolwindow/SnykCode/DataFlowStepsControl.xaml.cs:77-78 | the trimmed name holds no '/' and is no longer than the file name |
| Strings.AfterLastIsSuffix | Snyk.VisualStudio.Extension/Snyk/VisualStudio/Extension/UI/Toolwindow/SnykCode/DataFlowStepsControl.xaml.cs:77-78 | the trimmed name is the end of the file name, and a '/' comes just before it unless it is the whole name |
| DataFlowSteps.StepOf | Snyk.VisualStudio.Extension/Snyk/VisualStudio/Extension/UI/Toolwindow/SnykCode/DataFlowStepsControl.xaml.cs:76-98 | a step carries the label, a row number that reads back as its index, the marker's file, start line rows[0]-1, end line rows[1]-1, start column cols[0]-1 and end column cols[1] |
| Strings.Join | Snyk.VisualStudio.Extension.Shared/UI/Toolwindow/OssDescriptionControl.xaml.cs:33-46 | definition of `string.Join`: no element gives the empty text, one element itself, more elements the first, the separator and the join of the rest; its properties are stated by JoinLength, JoinSplit and JoinHead |
| Strings.JoinLength | Snyk.VisualStudio.Extension.Shared/UI/Toolwindow/OssDescriptionControl.xaml.cs:33-41 | a join of n >= 1 elements is as long as the elements together plus n - 1 separators |
| Strings.JoinSplit | Snyk.VisualStudio.Extension.Shared/UI/Toolwindow/OssDescriptionControl.xaml.cs:45-46 | cut anywhere, a join is the join before the cut, the separator, and the join from the cut on |
| Strings.JoinHead | Snyk.VisualStudio.Extension.Shared/UI/Toolwindow/OssDescriptionControl.xaml.cs:32-41 | a join begins with its first element, followed by the separator when more elements follow |
| Strings.IsWhiteSpace | Snyk.VisualStudio.Extension.Shared/UI/Toolwindow/OssDescriptionControl.xaml.cs:37 | definition of `char.IsWhiteSpace`: the Unicode space, line and paragraph separators and the controls U+0009-U+000D and U+0085 |
| Strings.IsNullOrWhiteSpace | Snyk.VisualStudio.Extension.Shared/UI/Toolwindow/OssDescriptionControl.xaml.cs:37 | definition of `string.IsNullOrWhiteSpace`: a null text, or one whose every character is white space (so also the empty text) |
| Strings.IntToString | Snyk.VisualStudio.Extension/Snyk/VisualStudio/Extension/UI/Toolwindow/SnykCode/DataFlowStepsControl.xaml.cs:80-82 | the invariant decimal rendering of the `long` row: non-empty, starting with '-' exactly for a negative number, followed by the digits of its magnitude |
| DataFlowSteps.IsPathRooted | Snyk.VisualStudio.Extension/Snyk/VisualStudio/Extension/UI/Toolwindow/SnykCode/DataFlowStepsControl.xaml.cs:144 | definition of the `Path.IsPathRooted` test inside `Path.Combine`: a path starting with '\' or '/', or with a drive letter and colon |
| Strings.NatToString | Snyk.VisualStudio.Extension/Snyk/VisualStudio/Extension/UI/Toolwindow/SnykCode/DataFlowStepsControl.xaml.cs:92 | a number is rendered as non-empty decimal digits without a leading zero |
| Strings.ParseNatToString | Snyk.VisualStudio.Extension/Snyk/VisualStudio/Extension/UI/Toolwindow/SnykCode/DataFlowStepsControl.xaml.cs:92 | reading the rendered digits back gives the number, so distinct step numbers get distinct row texts |
| DataFlowSteps.PathCombine | Snyk.VisualStudio.Extension/Snyk/VisualStudio/Extension/UI/Toolwindow/SnykCode/DataFlowStepsControl.xaml.cs:144 | the combined path ends with the second path; it is the first path when the second is empty, the second when the first is empty or the second is rooted, the two concatenated when the first ends in a separator, and the two joined by '\' otherwise |
| DataFlowSteps.GetFullPath | Snyk.VisualStudio.Extension/Snyk/VisualStudio/Extension/UI/Toolwindow/SnykCode/DataFlowStepsControl.xaml.cs:138-145 | the full path ends with the file name less exactly its first character (the rest); it is the solution path for a one-character name, the rest when the solution path is empty or the rest is rooted, solution path + rest when the solution path ends in a separator, and solution path + '\' + rest otherwise |
| StatusBarNotifications.Notification | Snyk.VisualStudio.Extension.Shared/UI/Notifications/VsStatusBarNotificationService.cs:74-129 | no message exactly when suppressed: an Open Source error while either Snyk Code product is enabled, a Snyk Code error while Open Source is enabled, a finish while the other product's scan runs; otherwise the fixed message of each event: both starts "Snyk is scanning...", cancel "Snyk scan cancelled", both finishes "Snyk scan finished", the three download messages; an update shows "{ScanState} {Progress}%" |
| StatusBarNotifications.UpdateTextCarriesProgress | Snyk.VisualStudio.Extension.Shared/UI/Notifications/VsStatusBarNotificationService.cs:90-91 | an update text starts with the scan state and a space, ends with '%', and for a non-negative progress the digits between the last space and the '%' read back as the progress |
| StatusBarNotifications.VsStatusBarNotificationService.constructor | Snyk.VisualStudio.Extension.Shared/UI/Notifications/VsStatusBarNotificationService.cs:18-20 | a new service has no status bar and no options yet |
| StatusBarNotifications.VsStatusBarNotificationService.InitializeEventListeners | Snyk.VisualStudio.Extension.Shared/UI/Notifications/VsStatusBarNotificationService.cs:42-46 | the status bar is set and the options are kept |
| StatusBarNotifications.VsStatusBarNotificationService.InitializeCodeEventListeners | Snyk.VisualStudio.Extension.Shared/UI/Notifications/VsStatusBarNotificationService.cs:67-72 | the options are set and the status bar is kept |
| StatusBarNotifications.HandlerResult | Snyk.VisualStudio.Extension.Shared/UI/Notifications/VsStatusBarNotificationService.cs:74-129 | a handler throws a NullReferenceException exactly when it is an error handler and the options are unset, or it would show a message and the status bar is unset; otherwise it completes with the call Notification chooses; with both fields set it always completes |
| StatusBarNotifications.VsStatusBarNotificationService.Handle | Snyk.VisualStudio.Extension.Shared/UI/Notifications/VsStatusBarNotificationService.cs:74-129 | the outcome is HandlerResult for the fields' current state, and a set status bar receives exactly the call shown, or none when the handler shows nothing or throws |
| StatusBarNotifications.OssErrorBeforeCodeInitialiser | Snyk.VisualStudio.Extension.Shared/UI/Notifications/VsStatusBarNotificationService.cs:42-84 | an Open Source error after only the tasks-service initialiser throws, since the options are unset |
| StatusBarNotifications.ScanUpdateBeforeTasksInitialiser | Snyk.VisualStudio.Extension.Shared/UI/Notifications/VsStatusBarNotificationService.cs:67-91 | a scan update after only the Snyk Code initialiser throws, since the status bar is unset |
| StatusBarNotifications.OssErrorAfterBothInitialisers | Snyk.VisualStudio.Extension.Shared/UI/Notifications/VsStatusBarNotificationService.cs:42-80 | after both initialisers and with Snyk Code disabled, an Open Source error completes and the status bar shows exactly "Snyk Open Source scan error" |
| StatusBarNotifications.InstanceHolder.Instance | Snyk.VisualStudio.Extension.Shared/UI/Notifications/VsStatusBarNotificationService.cs:25-36 | the first use creates a fresh, uninitialised service; every later use returns that same object |
| StatusBarNotifications.InstanceHolder.InstanceIsStable | Snyk.VisualStudio.Extension.Shared/UI/Notifications/VsStatusBarNotificationService.cs:25-36 | two uses of the getter return one object, the one stored |
| OssDescription.Describe | Snyk.VisualStudio.Extension.Shared/UI/Toolwindow/OssDescriptionControl.xaml.cs:26-46 | grid visible; module = Name and exploit = Exploit; introduced-through texts are From joined with ", " and " > ", or empty for a null or empty From; the fix text starts with "Upgrade to " exactly when FixedIn is non-empty and is then followed by FixedIn joined with " > ", otherwise empty; the fixed-in text is never blank: the display text when not null or white space, else "There is no fixed version for {Name}" |
| OssDescription.JoinOrEmpty | Snyk.VisualStudio.Extension.Shared/UI/Toolwindow/OssDescriptionControl.xaml.cs:32-41 | for a present, non-empty list the text is string.Join of it with the separator, and so begins with its first element; for a null or empty one it is empty |
| OssDescription.IntroducedThroughTextsAgree | Snyk.VisualStudio.Extension.Shared/UI/Toolwindow/OssDescriptionControl.xaml.cs:32-43 | both introduced-through texts begin with the first package, and the detailed one is longer by one character per separator |
| OssDescription.FixTextSplitsAtPackage | Snyk.VisualStudio.Extension.Shared/UI/Toolwindow/OssDescriptionControl.xaml.cs:45-46 | cut anywhere, the fix text is "Upgrade to ", the versions before the cut, " > ", then the versions from the cut on |

## Left out

- `GetSnykCodeErrorMessage`: its body is not part of this model. Its test asserts only that the returned message is not null, and every Dafny string meets that. So nothing is stated about it.
- The Snyk Code scan's internals are not part of this model: hash reconciliation of changed and removed files, upload batching, the bundle-completeness check, analysis polling, back-off, time-outs, cancellation and progress callbacks. The model keeps to what the tests observe.
- The ignore-file filter (`IDcIgnoreService`) is left out. The full-scan test does not configure it, and an unconfigured filter answering no file would contradict that test's result. The single supported-files filter stands for the filtering.
- `ClearHistory`, `GetChangedFiles` and `CheckBundleAsync`/`UploadFilesAsync` are configured by the tests but never verified by them. The incremental path reads `GetAllChangedFiles`, which the test sets to the same list as `GetChangedFiles`. The other two run inside the bundle service's mocked upload, if at all.
- SnykCode.SnykCodeService.ScanAsync: several choices go beyond what the tests pin.
  - The incremental path always extends the bundle, even when no changed file passes the filter.
  - The hash map passed to the extension is the hashes of the filtered changed files, and the removed-file list is the provider's removed files as they are. The test matches both arguments with `It.IsAny` and fixes only the bundle id.
  - A path that is both changed and removed is therefore hashed and also listed as removed. The real service's precedence between the two lists, as in a rename, is not modelled.
  - After a store, the cache exists and is valid. How the cache service decides existence and validity is not part of this model.
- The OSS cache is modelled as one kept result whatever the path. The path passed to the CLI is taken to be the scan's argument. The tests use only the empty path.
- Info bar: several mechanics are not modelled.
  - Main-thread switching is left out.
  - The `Advise`/`Unadvise` cookie is left out.
  - The factory lookup becomes an allocation.
  - `Process.Start` becomes the list of opened URLs.
  - The bar's `KnownMonikers.StatusError` image is not modelled; the model holds only its text spans, hyperlinks and close button.
  - OnClosed requires the element to be cached. On a miss, `FirstOrDefault` yields a null key, and `Dictionary.Remove` throws on it.
- Data-flow panel: several parts are not modelled.
  - Reading a step's line content from the file is left out; steps carry no line content.
  - The solution-path lookup becomes a parameter.
  - The editor navigation is represented by the step's navigation target.
- DataFlowSteps.DataFlowStepsControl.Display: it requires every position to carry at least two rows and two columns, and a non-empty file name. The code indexes the rows and columns without a check. Reading a step's line content cuts the first character of the file name (`Substring(1, Length - 1)`, reached through `GetLineContent` outside its `try`), which throws on an empty name. The `ArgumentException` that `Path.Combine` raises on the same path for a character invalid in a path (`"`, `<`, `>`, `|` or a control character) is not modelled either: where the source stops part-way with only the earlier steps appended, the model lists every step. The `(int)` casts of 64-bit rows and columns are modelled on unbounded integers, so values beyond the 32-bit range are not truncated.
- Strings.AfterLast: it models the ordinal search for '/'. The culture-sensitive `LastIndexOf(string)` agrees with it for this character only for names without ignorable or combining characters, which the model does not treat.
- DataFlowSteps.GetFullPath: it requires a non-empty file name. The source throws `ArgumentOutOfRangeException` from `Substring` on an empty one, and the model has no outcome for that.
- DataFlowSteps.PathCombine: strings cannot be null here, so the `ArgumentNullException` of `Path.Combine` is not modelled. Nor is the `ArgumentException` for characters invalid in a path, or any path normalisation beyond the separator rule.
- StatusBarNotifications.Notification: it requires the options for the two error events, because it chooses the message of a handler that runs. The NullReferenceException when they are unset is modelled by `HandlerResult` and `Handle`.
- DataFlowSteps.DataFlowStepsControl.constructor: it states only that the list starts empty. The initial header text and visibility come from the XAML layout, which is not part of this model.
- StatusBarNotifications.VsStatusBarNotificationService.Handle: subscribing handlers to events is not modelled. `Handle` runs the handler of any event, whichever initialiser would have subscribed it. The status bar only records the calls made on it.
- Status bar: `ScanState` is modelled as its rendered text. The progress is modelled as an integer rendered in invariant decimal form.
- Vulnerability description: the Markdown overview and the `Uri` of the "more about this issue" link are not modelled. `Name` and `Exploit` are shown as they are.
- `SnykService.cs`, `SnykConsoleRunner.cs`, `MessagePanel.xaml.cs`, `ScanningState.cs`, `EmptyState.cs`, `TreeNode.cs` and `MarkerDto.cs` are not part of this model. They are wiring, process I/O, UI toggling or plain data holders.
