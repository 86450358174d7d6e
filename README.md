# Lombiq UI testing toolbox: port leases, the smtp4dev helper and the test executor

This Dafny project models the sequential core of three parts of the Lombiq UI testing toolbox
for Orchard Core, and proves what they promise.

- **PortLeaseManager** (`port_leasing.dfy`, module `PortLeasing`). A fixed range of candidate
  ports is built with `Enumerable.Range`, and the count is a 32-bit subtraction. Beside it sits
  the mutable set of leased ports.
  - Leasing picks any free candidate, adds it to the set and returns it. With no free candidate,
    `Random.Next(0)` is 0, so indexing the empty list throws and nothing changes.
  - Stopping a lease removes exactly that port.
- **SmtpService** (`smtp_service.dfy`, module `Smtp`).
  - The static part is a class `SmtpStatics`. It holds the two agent-offset lease managers and
    the process-wide "tool restore already ran" flag.
  - `Start` checks the local tool manifest, leases an SMTP port and a web UI port, and runs
    `dotnet tool restore` unless an earlier `Start` restored successfully. It then launches
    smtp4dev and scans its command events for the readiness line.
  - `DisposeAsync` releases both ports and requests cancellation at most once.
  - The manifest, the restore exit code and the event stream are inputs.
- **UITestExecutor.ExecuteOrchardCoreTest** (`ui_test_executor.dfy`, module `UITestExecutor`).
  It validates the test name and configuration, then prepares the shared configuration and the
  snapshot manager singleton. It computes the (optionally shortened) dump folder name and runs
  the retry loop.
  - Each attempt is a try block: `CreateContext`, the setup operation through the snapshot
    manager, the test body, and the app log and browser log assertions.
  - Then comes a catch block, which writes the flag-gated failure dump.
  - Last comes a finally block, which disposes what was created: the scope, then the app, then
    the SMTP service. None of these disposals is modelled as throwing (see "## Left out").
  - What the outside world does in attempt `i` (SMTP start inputs, which phase throws, the
    browser log contents, which capture step throws) is given as `scripts[i]`.
  - What the executor does is recorded as a trace of `Effect`s tagged with the attempt index.

The value-level description of an attempt lives in `ui_test_model.dfy` (module `UITestModel`):
`Attempt(n, settings, script, smtpStart)` and the retry-loop predicates `Retried`, `RetryLoop`
and `AttemptsAsScripted`. The imperative methods in `UITestExecutor` are proved to produce
exactly these values.

`attempt_proofs.dfy` (module `AttemptProofs`) proves that every attempt keeps the promises
collected in `AttemptWellFormed`:
- its steps follow the control flow, so each happens at most once;
- teardown balances creation;
- the browser log is fetched once and shared by all its uses;
- the failure dump is written only with a context, artifact by artifact under its own flag.

`run_proofs.dfy` (module `RunProofs`) proves what a whole run promises:
- how the retry loop ends and how MaxRetryCount bounds it;
- the order of the whole trace;
- the per-attempt promises within the whole trace;
- how `BeforeAppStart` handlers pile up across retries.

`strings.dfy` models `String.IndexOf`, `String.LastIndexOf` and `String.Contains`, and
`wrappers.dfy` holds `Option` and `Result`.

Behaviour of the source that the model states as it is:
- A missing tool manifest creates an exception but never throws it, so `Start` goes on and the
  manifest read is what fails.
- With a negative MaxRetryCount the equality test at the end of the catch block never holds, so
  the source retries without end. The model's loop then ends only when the scripts run out
  (`ScriptExhausted`). `RunProofs.AttemptsBounded` shows that a negative budget never rethrows.
- The `BeforeAppStart` handlers added in each attempt that obtained an SMTP context are never
  removed, so they accumulate across retries.
- `DisposeAsync` releases whatever the port fields hold. After a `Start` that failed before
  leasing, that is port 0, so port 0 may leave the leased set (`LeasesReturned`).
- The subtraction `upperBound - lowerBound` in the lease manager's constructor is unchecked.
  An inverted range whose difference overflows therefore constructs a manager instead of
  throwing.

## Model

| member | source | states |
|---|---|---|
| PortLeasing.CandidatePortsExact | Services/PortLeaseManager.cs:20-21 | without overflow the candidates are exactly lowerBound .. upperBound - 1, one each |
| PortLeasing.InvertedBoundsThrow | Services/PortLeaseManager.cs:20-21 | an upper bound below the lower bound gives a negative count, and Enumerable.Range throws ArgumentOutOfRangeException |
| PortLeasing.OverflowingBoundsConstruct | Services/PortLeaseManager.cs:20-21 | when the 32-bit subtraction wraps, an inverted range (int.MaxValue, int.MinValue) constructs with one candidate |
| PortLeasing.Except | Services/PortLeaseManager.cs:28 | Enumerable.Except yields exactly the candidates not leased, each once, no more of them than candidates |
| PortLeasing.PortLeaseManager.constructor | Services/PortLeaseManager.cs:20-21 | the manager keeps its bounds and the candidate list, with nothing leased |
| PortLeasing.PortLeaseManager.Create | Services/PortLeaseManager.cs:20-21 | construction succeeds exactly when Enumerable.Range accepts the bounds, otherwise ArgumentOutOfRange; a new manager has nothing leased |
| PortLeasing.PortLeaseManager.LeaseAvailableRandomPort | Services/PortLeaseManager.cs:24-33 | the lease fails iff every candidate is leased, leaving the set unchanged; otherwise the port is a candidate that was free, and the set gains exactly that port |
| PortLeasing.PortLeaseManager.StopLease | Services/PortLeaseManager.cs:35-41 | removes exactly the port (a no-op for one not leased), after which a candidate port is available again |
| PortLeasing.LeasedCountBounded | Services/PortLeaseManager.cs:28-39 | under any sequence of leases and releases, at most as many ports are leased as the range holds (upperBound - lowerBound without overflow) |
| PortLeasing.FullManagerHasNothingAvailable | Services/PortLeaseManager.cs:28-29 | once as many ports are leased as the range holds, no port is available, so the next lease throws |
| PortLeasing.Wrap32 | Services/PortLeaseManager.cs:21 | the unchecked `int` subtraction: the result is a 32-bit integer congruent to the exact difference modulo 2^32, and equal to it when that fits |
| PortLeasing.EnumerableRange | Services/PortLeaseManager.cs:21 | Enumerable.Range throws exactly when the count is negative or the last element would pass int.MaxValue; otherwise it yields `count` consecutive, increasing integers from `start` |
| PortLeasing.CandidatePorts | Services/PortLeaseManager.cs:20-21 | the constructor's candidate list: it is refused exactly when the wrapped count is negative or runs past int.MaxValue, and otherwise holds exactly the ports from lowerBound below lowerBound plus the wrapped count |
| Smtp.IsReadinessEvent | Services/SmtpService.cs:129-130 | the event that ends the wait: a standard-output event whose text contains the readiness marker (a definition, used by ScanForReadiness) |
| Strings.Contains | Services/SmtpService.cs:130 | String.Contains(string) as an ordinal substring test: some position of the text starts with the pattern (a definition, used by IsReadinessEvent; the character form at UITestExecutor.cs:59 is modelled as `c in s`) |
| Strings.IndexOf | Lombiq.Tests.UI/Services/UITestExecutor.cs:63 | the first index of the character, or -1 exactly when it does not occur |
| Strings.IndexOfIsFirst | Lombiq.Tests.UI/Services/UITestExecutor.cs:63 | a position holding the character with none before it is the one IndexOf returns |
| Strings.LastIndexOf | Lombiq.Tests.UI/Services/UITestExecutor.cs:63 | the last index of the character, or -1 exactly when it does not occur |
| Smtp.AgentPortRanges | Services/SmtpService.cs:46-51 | agent a gets SMTP ports [7000+100a, 8099+100a) and web UI ports [8000+100a, 8099+100a); every web UI candidate is also an SMTP candidate |
| Smtp.SmtpStatics.Initialize | Services/SmtpService.cs:46-51 | the static constructor builds two distinct managers with those bounds and nothing leased, with the restore flag unset; it fails exactly when a range is refused |
| Smtp.ScanForReadiness | Services/SmtpService.cs:124-141 | finds a readiness event iff a standard-output event contains the marker; stops right after the first one and skips every earlier event |
| Smtp.SmtpService.constructor | Services/SmtpService.cs:40-42 | a new service holds ports 0 and no token source |
| Smtp.SmtpService.Start | Services/SmtpService.cs:54-142 | the manifest fails before any lease, each lease adds exactly one fresh port (or fails and changes nothing), restore runs only while not yet restored and sets the flag only on exit code 0, success iff the readiness line comes, the context holds the SMTP port and http://localhost:webUIPort, leases stay taken on failure |
| Smtp.SmtpService.RestoreOnce | Services/SmtpService.cs:80-104 | restore runs only while the flag is unset; the flag ends set iff it was set or the exit code is 0 |
| Smtp.SmtpService.Launch | Services/SmtpService.cs:106-139 | a fresh uncancelled token source; ready iff a readiness event occurs; the enumerator is disposed on both paths |
| Smtp.SmtpService.DisposeAsync | Services/SmtpService.cs:144-155 | releases both ports whatever they hold, and requests cancellation only of an existing, uncancelled token source, so a second call changes nothing more |
| UITestModel.DumpFolderNameBase | Lombiq.Tests.UI/Services/UITestExecutor.cs:57-65 | the dump folder name is always a suffix of the test name |
| UITestModel.DumpFolderNameShape | Lombiq.Tests.UI/Services/UITestExecutor.cs:58-65 | unchanged unless short names are on and a `(` occurs; otherwise it starts just after a `.` (or at 0) with no `.` before the first `(`, which it keeps |
| UITestModel.DumpFolderNameIdempotent | Lombiq.Tests.UI/Services/UITestExecutor.cs:58-65 | shortening a short name changes nothing |
| UITestModel.Prelude | Lombiq.Tests.UI/Services/UITestExecutor.cs:67-74 | the steps before the loop: the dump root named by DumpFolderNameBase is deleted, then the report folder is ensured only with CreateReportAlways (a definition; PrepareRun is proved to produce it, RunInOrder places it first) |
| UITestModel.Creation | Lombiq.Tests.UI/Services/UITestExecutor.cs:90-111 | CreateContext as a value: the SMTP service only with UseSmtpService, the app unless its start failed, the scope unless an earlier step threw, with the first exception (a definition; CreateContext is proved to equal it) |
| UITestModel.TestRun | Lombiq.Tests.UI/Services/UITestExecutor.cs:131-155 | the test body, then the app log assertion, then the browser log assertion, with the first exception and the browser log printout on its failure (a definition; RunTest is proved to equal it) |
| UITestModel.TryBlock | Lombiq.Tests.UI/Services/UITestExecutor.cs:88-157 | the try block as a value: creation, then setup and navigation, then the test run, stopping at the first exception (a definition; TryAttempt is proved to equal it, AttemptRunsAsPromised states its properties) |
| UITestModel.CatchBlock | Lombiq.Tests.UI/Services/UITestExecutor.cs:159-201 | the catch block as a value: no dump without a context, otherwise the dump steps and the capture that throws (a definition; CaptureDiagnostics is proved to equal it, CatchCaptures and FailureDumpIsFaithful state its properties) |
| UITestModel.Disposals | Lombiq.Tests.UI/Services/UITestExecutor.cs:213-217 | the finally block as a value: scope, app, SMTP service, each when it exists, none throwing (a definition; Teardown is proved to equal it, DisposalsExactly states its properties) |
| UITestModel.AfterTry | Lombiq.Tests.UI/Services/UITestExecutor.cs:159-220 | after the try block: the catch block's steps when it threw, then the disposals (a definition; FinishAttempt is proved to equal it) |
| UITestModel.Attempt | Lombiq.Tests.UI/Services/UITestExecutor.cs:80-220 | one pass of the loop body as a value: its result, its SMTP context and its steps (a definition; RunAttempt is proved to equal it, AttemptIsWellFormed states its properties) |
| UITestModel.Verdict | Lombiq.Tests.UI/Services/UITestExecutor.cs:203-211 | the loop's reaction to an attempt: return after success, the capture exception escapes, rethrow at MaxRetryCount, else retry (a definition; Decide is proved to equal it, RetriedEach and RetriedFailed state its properties) |
| UITestModel.RetryLoop | Lombiq.Tests.UI/Services/UITestExecutor.cs:77-223 | how the loop ended: every attempt but the last was retried, and the last decided the outcome unless the scripts ran out (a definition; RetryAttempts is proved to satisfy it, RetryLoopEnds and AttemptsBounded state its properties) |
| UITestModel.AddedHandlers | Lombiq.Tests.UI/Services/UITestExecutor.cs:98-99 | at most one handler per attempt, each passing an SMTP port to the app |
| AttemptProofs.CatchCaptures | Lombiq.Tests.UI/Services/UITestExecutor.cs:163-200 | dump directories iff there is a context; an artifact is written iff there is a context and its flag (and, for the accessibility report, the exception kind) allows it, stopping at a capture step that throws |
| UITestModel.PageCapturesWritten | Lombiq.Tests.UI/Services/UITestExecutor.cs:171-185 | the app snapshot, the screenshot and the page source are each written exactly when their flag is on and neither an earlier page capture nor the step itself threw |
| UITestModel.LaterCapturesWritten | Lombiq.Tests.UI/Services/UITestExecutor.cs:187-200 | the browser log step is reached exactly when its flag is on and no page capture threw, and written unless writing it threw; the accessibility report is written only for an accessibility failure with CreateReportOnFailure on and no earlier capture step throwing |
| AttemptProofs.DisposalsExactly | Lombiq.Tests.UI/Services/UITestExecutor.cs:213-217 | the scope, the app and the SMTP service are disposed exactly when they were created, given that no disposal throws |
| AttemptProofs.AttemptIsOrdered | Lombiq.Tests.UI/Services/UITestExecutor.cs:88-220 | every attempt's steps carry its index and follow the control flow of the loop body, so each step happens at most once |
| AttemptProofs.AttemptRunsAsPromised | Lombiq.Tests.UI/Services/UITestExecutor.cs:88-157 | CreateContext always starts; the test runs only in a started context; a completed attempt ran the test; a failure comes from a step the configuration runs and the script throws; navigation goes to the setup URL |
| AttemptProofs.TeardownIsBalanced | Lombiq.Tests.UI/Services/UITestExecutor.cs:84-86 | in every attempt the scope and the app are disposed iff created, and the SMTP service is created and disposed iff UseSmtpService, given that no disposal throws |
| AttemptProofs.BrowserLogIsMemoised | Lombiq.Tests.UI/Services/UITestExecutor.cs:80-82 | the driver's log is fetched at most once per attempt, before its first use, and every use sees the same lines |
| AttemptProofs.FailureDumpIsFaithful | Lombiq.Tests.UI/Services/UITestExecutor.cs:159-201 | the dump is written only after a failure with a context, exactly the enabled artifacts up to the one whose capture threw |
| AttemptProofs.AttemptIsWellFormed | Lombiq.Tests.UI/Services/UITestExecutor.cs:78-223 | every attempt the loop body can produce keeps all the promises above |
| UITestExecutor.CreateContext | Lombiq.Tests.UI/Services/UITestExecutor.cs:90-111 | equals Creation: SMTP service (and a BeforeAppStart handler with its port) only with UseSmtpService, then app, then scope; the SMTP service and app are reported even when a later step throws; each manager's lease set gains at most its one port; Start ends as the attempt's script allows (StartAsScripted: manifest failures exactly for a bad manifest, the scripted restore exit code, success only after a readiness line) |
| UITestExecutor.GetBrowserLog | Lombiq.Tests.UI/Services/UITestExecutor.cs:80-82 | a cached log is returned without touching the driver; otherwise the driver's log is fetched once and cached |
| UITestExecutor.RunTest | Lombiq.Tests.UI/Services/UITestExecutor.cs:131-155 | equals TestRun: test body, app log assertion, browser log assertion, with the printouts on failure; the cache holds the driver's log whenever it was fetched |
| UITestExecutor.ObtainContext | Lombiq.Tests.UI/Services/UITestExecutor.cs:113-129 | CreateContext runs once, inside the setup callback or at one of the two fallbacks; setup fails iff the script makes it throw; navigation follows a setup |
| UITestExecutor.TryAttempt | Lombiq.Tests.UI/Services/UITestExecutor.cs:88-157 | the try block's exception, context, app, cache and effects equal TryBlock |
| UITestExecutor.CapturePage | Lombiq.Tests.UI/Services/UITestExecutor.cs:163-185 | the app snapshot, screenshot and page source each under its flag, stopping at the first capture that throws |
| UITestExecutor.CaptureLog | Lombiq.Tests.UI/Services/UITestExecutor.cs:187-200 | the browser log file through the cache and the accessibility report only for an accessibility failure with CreateReportOnFailure |
| UITestExecutor.CaptureDiagnostics | Lombiq.Tests.UI/Services/UITestExecutor.cs:159-201 | the catch block equals CatchBlock: no dump without a context, and a capture that throws escapes |
| UITestExecutor.Teardown | Lombiq.Tests.UI/Services/UITestExecutor.cs:213-217 | the finally block equals Disposals: scope, app and SMTP service disposed iff they exist (no disposal throws); the SMTP ports are released |
| UITestExecutor.FinishAttempt | Lombiq.Tests.UI/Services/UITestExecutor.cs:159-220 | the catch and finally blocks give AttemptResultOf and AfterTry of the try block's state |
| UITestExecutor.RunAttempt | Lombiq.Tests.UI/Services/UITestExecutor.cs:80-220 | one pass of the loop body equals Attempt for a Start that ended as the script allows (StartAsScripted); the handlers gain the SMTP port it obtained; every port leased during the attempt is released |
| UITestExecutor.SharedSnapshotManager | Lombiq.Tests.UI/Services/UITestExecutor.cs:47-53 | an existing singleton is kept; otherwise one exists afterwards iff there is a setup operation, created with this run's setup snapshot path |
| UITestExecutor.PrepareRun | Lombiq.Tests.UI/Services/UITestExecutor.cs:44-74 | sets the snapshot directory and the Atata test name, updates the singleton as above, and clears the dump root and makes the report folder (Prelude) |
| UITestExecutor.Decide | Lombiq.Tests.UI/Services/UITestExecutor.cs:203-211 | the loop's reaction to an attempt equals Verdict: return, let the capture exception escape, rethrow at MaxRetryCount, or retry |
| UITestExecutor.RetryStep | Lombiq.Tests.UI/Services/UITestExecutor.cs:78-222 | one pass extends the scripted attempts, the handlers and the retried prefix, and returns every lease |
| UITestExecutor.RetryAttempts | Lombiq.Tests.UI/Services/UITestExecutor.cs:77-223 | the loop's attempts are the scripted ones, every attempt but the last was retried, the last decides the outcome, handlers accumulate, leases are returned, and every attempt's Start ended as its script allows (StartsAsScripted) |
| UITestExecutor.ExecuteOrchardCoreTest | Lombiq.Tests.UI/Services/UITestExecutor.cs:29-224 | an empty name or a missing configuration is rejected before any effect; otherwise the configuration and singleton are set, the trace is the prelude followed by the attempts, and the loop ends as RetryLoop says, with every Start as its script allows |
| RunProofs.RetriedEach | Lombiq.Tests.UI/Services/UITestExecutor.cs:203-211 | the loop went on after each attempt iff each attempt's verdict was "retry" |
| RunProofs.RetriedFailed | Lombiq.Tests.UI/Services/UITestExecutor.cs:203-211 | every attempt the loop went on from failed, and none of them had retry count MaxRetryCount |
| RunProofs.RetryLoopRetried | Lombiq.Tests.UI/Services/UITestExecutor.cs:78-222 | all attempts but the last failed, none of them at retry count MaxRetryCount; when the scripts ran out, every attempt did |
| RunProofs.RetryLoopEnds | Lombiq.Tests.UI/Services/UITestExecutor.cs:78-222 | the test passed iff the last attempt completed; a capture exception escaped iff the last dump threw, naming its artifact; the error is rethrown iff the attempt at MaxRetryCount failed, with that error |
| RunProofs.RetriedWithinBudget | Lombiq.Tests.UI/Services/UITestExecutor.cs:203-222 | with a budget m >= 0 at most m attempts are retried |
| RunProofs.AttemptsBounded | Lombiq.Tests.UI/Services/UITestExecutor.cs:203-222 | at most MaxRetryCount + 1 attempts; a rethrow happens after exactly MaxRetryCount + 1; a negative budget never rethrows |
| RunProofs.RetryLoopDeterministic | Lombiq.Tests.UI/Services/UITestExecutor.cs:78-222 | the attempts determine the outcome |
| RunProofs.ScriptedEach | Lombiq.Tests.UI/Services/UITestExecutor.cs:78-222 | attempt i of a run is Attempt(i, ...) of its script and SMTP start |
| RunProofs.ScriptedPrefix | Lombiq.Tests.UI/Services/UITestExecutor.cs:78-222 | every prefix of a run is itself a run of the same scripts: a later attempt never rewrites an earlier one |
| RunProofs.EachAttemptWellFormed | Lombiq.Tests.UI/Services/UITestExecutor.cs:78-222 | every attempt of a run keeps the promises of AttemptWellFormed |
| RunProofs.FlattenInRunOrder | Lombiq.Tests.UI/Services/UITestExecutor.cs:78-223 | the attempts' steps, one attempt after the other, are in run order and carry indices below the number of attempts |
| RunProofs.FlattenStepsOf | Lombiq.Tests.UI/Services/UITestExecutor.cs:78-223 | a step of attempt k is among all the attempts' steps iff attempt k took it |
| RunProofs.RunInOrder | Lombiq.Tests.UI/Services/UITestExecutor.cs:67-223 | the whole trace is the prelude, then attempt after attempt, each in control-flow order: every attempt is torn down before the next starts |
| RunProofs.NoStepTwice | Lombiq.Tests.UI/Services/UITestExecutor.cs:78-223 | a trace in run order takes no step twice |
| RunProofs.RunStepsOnce | Lombiq.Tests.UI/Services/UITestExecutor.cs:78-223 | no step happens twice in a whole run: the prelude and every attempt together |
| RunProofs.CreateContextOncePerAttempt | Lombiq.Tests.UI/Services/UITestExecutor.cs:113-129 | CreateContext starts exactly once in each attempt of a run |
| RunProofs.RunStepsOf | Lombiq.Tests.UI/Services/UITestExecutor.cs:78-223 | attempt k's steps within the whole trace are exactly the steps it took |
| RunProofs.RunKeepsAttemptPromises | Lombiq.Tests.UI/Services/UITestExecutor.cs:80-217 | within the whole trace, each attempt disposes exactly what it created and has its own browser log cache, fetched at most once |
| RunProofs.HandlersAccumulate | Lombiq.Tests.UI/Services/UITestExecutor.cs:98-99 | when every attempt obtained an SMTP context, there is one handler per attempt, in attempt order, each with that attempt's port |
| RunProofs.NoContextsNoHandlers | Lombiq.Tests.UI/Services/UITestExecutor.cs:94-100 | attempts without an SMTP context add no handler |
| RunProofs.StartFailureEndsAttempt | Lombiq.Tests.UI/Services/UITestExecutor.cs:96-97 | a Start that threw ends the attempt with that exception (SmtpStartFailed), and the attempt obtains no SMTP context |
| RunProofs.StartAsScriptedInRun | Services/SmtpService.cs:64-75 | in a run with the SMTP service, an unreadable manifest or one without an smtp4dev entry fails that attempt with ManifestNotReadable or NoSmtp4devConfiguration; an attempt gets an SMTP context only after a readiness line |
| RunProofs.NoSmtpNoHandlers | Lombiq.Tests.UI/Services/UITestExecutor.cs:94-100 | without UseSmtpService a run adds no BeforeAppStart handler |

## Left out

- Locks, `SemaphoreSlim` and `async`/`await` are modelled sequentially. Only the atomicity of
  each locked block is captured, not exclusion between concurrent tests.
- PortLeasing.PortLeaseManager.LeaseAvailableRandomPort: `new Random().Next(n)` is a
  nondeterministic choice among the free candidates. Its uniformity is not modelled.
- Smtp.SmtpService.Start: the manifest file, its JSON parse, the `dotnet tool restore` run and
  the smtp4dev process are inputs (`ToolManifest`, the exit code, the command events). CliWrap
  itself and the URI's text form (`System.Uri`) are not modelled: a URI is its scheme, host and
  port. The agent index from TestConfigurationManager is a parameter of `SmtpStatics.Initialize`.
- UITestExecutor.ExecuteOrchardCoreTest: with a negative MaxRetryCount the source loops without
  end. The model's loop runs one attempt per script and ends with `ScriptExhausted` when they run
  out, so non-termination is not modelled.
- UITestExecutor.ExecuteOrchardCoreTest: a null test name and an empty one are both the empty
  string, and a null OrchardCoreConfiguration is `hasOrchardCoreConfiguration == false`.
- UITestExecutor.ExecuteOrchardCoreTest: the trace is a value returned next to the outcome. It
  is assembled from the attempts after the loop, rather than being a log written as the steps
  happen.
- SynchronizingWebApplicationSnapshotManager is not part of this model. Its
  `RunOperationAndSnapshotIfNew` is an oracle per attempt: it runs the callback or reuses a
  snapshot's URL. Its single-flight guarantee is not modelled.
- Which phase throws, whether the exception is an AccessibilityAssertionException, and which
  capture step throws are flags in the attempt's script. Exception objects and the axe result
  are not modelled.
- UITestExecutor.ObtainContext: navigation to the setup URL is a `Navigated(attempt, locator)`
  step. `GoToRelativeUrl`, `PathAndQuery` and the driver are not modelled, and navigation is
  assumed not to throw. In the source a throwing `GoToRelativeUrl` (UITestExecutor.cs:126) is
  caught at line 159 like any other exception of the try block: the dump is written and the
  attempt is retried. The model has no navigation phase that fails.
- UITestExecutor.Teardown: `Scope.Dispose`, the app's `DisposeAsync` and the SMTP service's
  `DisposeAsync` (UITestExecutor.cs:215-217) are assumed not to throw. In the source, a throwing
  disposal skips the disposals after it. Its exception replaces the attempt's outcome and escapes
  the `while (true)`, so `retryCount++` and any further attempt never happen. The model has no
  such path, so `UITestModel.Disposals` always emits every disposal of what exists.
- AttemptProofs.DisposalsExactly: "disposed exactly when created" holds only under the
  assumption above; in the source a throwing scope or app disposal leaves the later parts
  undisposed.
- AttemptProofs.TeardownIsBalanced: balanced teardown holds only under the same assumption.
- RunProofs.RunKeepsAttemptPromises: its "disposes exactly what it created" part rests on the
  same assumption, and so does RunProofs.RetryLoopEnds, which has no outcome for an exception
  escaping the finally block.
- UITestExecutor.GetBrowserLog: fetching the driver's log never fails, and its lines are given
  by the script.
- UITestExecutor.RunTest: printing the app log after a failed app log assertion
  (`GetLogOutput`) is logging and is not a step of the trace. Printing the browser log is a
  step, because it goes through the log cache.
- The file system is not modelled: directory deletion and creation, file writes, screenshots,
  the axe HTML report, `Path.Combine`, `MakeFileSystemFriendly` and the dump paths under
  `Attempt n`. They are steps of the trace tagged with the attempt index, and the dump folder
  name is modelled before sanitizing.
- Logging and timestamps (`testOutputHelper`, `DebugHelper`, `DateTime`) are left out, because
  message text carries no behaviour.
- The test body, the app log assertion and the browser log assertion are opaque steps that
  succeed or throw as scripted. What they do inside is not part of this model.
- Extensions/NavigationUITestContextExtensions.cs, Lombiq.Tests.UI/Extensions/FormWebDriverExtensions.cs
  and Lombiq.Tests.UI/Constants/CommonDisplayResolutions.cs are not part of this model. They
  are thin driver wrappers and a constant table. Services/UITestContext.cs is the
  `UITestContext` datatype, reduced to the fields the executor sets.
