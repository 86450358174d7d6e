/**
  The values UITestExecutor.ExecuteOrchardCoreTest works with
  (Lombiq.Tests.UI/Services/UITestExecutor.cs): the configuration flags it reads, the
  script of what each attempt's external collaborators do, the attempt outcomes, the
  trace of effects it leaves behind, and the properties each attempt's trace has.
*/
module UITestModel {
  import opened Wrappers
  import opened Strings
  import opened Smtp

  // ---------------------------------------------------------------------------
  // Short dump-folder name
  // ---------------------------------------------------------------------------

  /**
    The dump folder name before file-system sanitizing: with short names on and a `(` in the
    test name, the part after the last `.` that precedes the first `(`.
  */
  function DumpFolderNameBase(testName: string, useShortNames: bool): (r: string)
    ensures |r| <= |testName| && r == testName[|testName| - |r|..]
  {
    if useShortNames && '(' in testName then
      var prefix := testName[..IndexOf(testName, '(')];
      testName[LastIndexOf(prefix, '.') + 1..]
    else
      testName
  }

  /**
    What the short name is: the name itself unless short names are on and it has a `(`;
    otherwise the suffix starting at index `k`, where `k` is just after a `.` (or 0), no `.`
    lies between `k` and the first `(`, so the first `(` is kept.
  */
  lemma DumpFolderNameShape(testName: string, useShortNames: bool)
    ensures !(useShortNames && '(' in testName) ==> DumpFolderNameBase(testName, useShortNames) == testName
    ensures useShortNames && '(' in testName ==>
              var r := DumpFolderNameBase(testName, useShortNames);
              var k := |testName| - |r|;
              var open := IndexOf(testName, '(');
              && k <= open
              && (k == 0 || testName[k - 1] == '.')
              && '.' !in testName[k..open]
              && r[open - k] == '('
  {
    if useShortNames && '(' in testName {
      var open := IndexOf(testName, '(');
      var prefix := testName[..open];
      var k := LastIndexOf(prefix, '.') + 1;
      var r := testName[k..];
      assert DumpFolderNameBase(testName, useShortNames) == r && |testName| - |r| == k;
      assert k == 0 || testName[k - 1] == '.' by {
        if 0 < k { assert testName[k - 1] == prefix[k - 1]; }
      }
      assert testName[k..open] == prefix[k..];
      assert r[open - k] == testName[open];
    }
  }

  /** Shortening a short name changes nothing. */
  lemma DumpFolderNameIdempotent(testName: string, useShortNames: bool)
    ensures var r := DumpFolderNameBase(testName, useShortNames);
            DumpFolderNameBase(r, useShortNames) == r
  {
    if useShortNames && '(' in testName {
      var open := IndexOf(testName, '(');
      var prefix := testName[..open];
      var k := LastIndexOf(prefix, '.') + 1;
      var r := testName[k..];
      assert r[open - k] == '(';
      assert r[..open - k] == prefix[k..];
      assert '(' !in r[..open - k];
      IndexOfIsFirst(r, '(', open - k);
      assert '.' !in r[..open - k];
      assert r[0..] == r;
    }
  }

  // ---------------------------------------------------------------------------
  // Configuration and the per-attempt script
  // ---------------------------------------------------------------------------

  /** The members of OrchardCoreUITestExecutorConfiguration the executor only reads. */
  datatype Settings = Settings(
    hasSetupOperation: bool,
    setupSnapshotPath: string,
    useShortNames: bool,
    captureAppSnapshot: bool,
    captureScreenshot: bool,
    captureHtmlSource: bool,
    captureBrowserLog: bool,
    createReportAlways: bool,
    createReportOnFailure: bool,
    useSmtpService: bool,
    hasAppLogAssertion: bool,
    hasBrowserLogAssertion: bool,
    maxRetryCount: int)

  /** How a call into an external collaborator ends; `accessibility` marks an AccessibilityAssertionException. */
  datatype Step = Succeeds | Throws(accessibility: bool)

  /** How the configured SetupOperation ends: the relative URL to resume from, or an exception. */
  datatype SetupResult = SetupReturns(locator: string) | SetupThrows(accessibility: bool)

  /**
    SynchronizingWebApplicationSnapshotManager.RunOperationAndSnapshotIfNew, whose source is
    not part of this model: it either runs the callback (returning its URL) or returns the
    URL of an existing snapshot without running it.
  */
  datatype SnapshotOracle = RunsOperation | ReusesSnapshot(locator: string)

  /** What the external collaborators do during one attempt. */
  datatype AttemptScript = AttemptScript(
    manifest: ToolManifest,
    restoreExitCode: int,
    smtpEvents: seq<CommandEvent>,
    appStartUp: Step,
    scopeStart: Step,
    snapshot: SnapshotOracle,
    setupOperation: SetupResult,
    testBody: Step,
    appLogAssertion: Step,
    browserLogAssertion: Step,
    browserLog: seq<string>,
    failingCapture: Option<Artifact>)

  // ---------------------------------------------------------------------------
  // Outcomes
  // ---------------------------------------------------------------------------

  datatype Phase = AppStartUp | ScopeStart | SetupOperation | TestBody | AppLogAssertion | BrowserLogAssertion

  /** The exception that ended an attempt's try block. */
  datatype AttemptError =
    | SmtpStartFailed(cause: SmtpError)
    | PhaseFailed(phase: Phase, accessibility: bool)

  predicate IsAccessibilityFailure(e: AttemptError)
  {
    e.PhaseFailed? && e.accessibility
  }

  /** The failure-dump artifacts, in the order the catch block writes them. */
  datatype Artifact = AppSnapshot | Screenshot | PageSource | BrowserLogFile | AccessibilityReport

  function CaptureOrder(a: Artifact): nat
  {
    match a
    case AppSnapshot => 0
    case Screenshot => 1
    case PageSource => 2
    case BrowserLogFile => 3
    case AccessibilityReport => 4
  }

  /** Whether the catch block writes `a` after `error`: each artifact has its own flag. */
  predicate CaptureEnabled(settings: Settings, error: AttemptError, a: Artifact)
  {
    match a
    case AppSnapshot => settings.captureAppSnapshot
    case Screenshot => settings.captureScreenshot
    case PageSource => settings.captureHtmlSource
    case BrowserLogFile => settings.captureBrowserLog
    case AccessibilityReport => IsAccessibilityFailure(error) && settings.createReportOnFailure
  }

  /** How one attempt ended: its body completed, it failed, or a capture step threw in the catch block. */
  datatype AttemptResult =
    | Completed
    | Failed(error: AttemptError)
    | CaptureFailed(error: AttemptError, artifact: Artifact)

  /** How ExecuteOrchardCoreTest ends. `ScriptExhausted`: the source would run further attempts than were scripted. */
  datatype TestOutcome =
    | Passed
    | TestNameMissing
    | OrchardCoreConfigurationMissing
    | Rethrown(error: AttemptError)
    | CaptureThrew(artifact: Artifact)
    | ScriptExhausted

  // ---------------------------------------------------------------------------
  // Effects
  // ---------------------------------------------------------------------------

  /** What the browser log cached in an attempt was used for. */
  datatype LogUse = AssertionInput | FailurePrintout | DumpFile

  /** The externally visible steps of a test execution, tagged with the attempt index. */
  datatype Effect =
    | DumpRootDeleted(folderName: string)
    | AccessibilityReportsDirectoryEnsured
    | ContextCreationStarted(attempt: nat)
    | SmtpServiceCreated(attempt: nat)
    | AppCreated(attempt: nat)
    | ScopeStarted(attempt: nat)
    | SetupOperationRun(attempt: nat)
    | Navigated(attempt: nat, locator: string)
    | TestBodyRun(attempt: nat)
      /** The driver's log was read (and emptied) for its first use, `use`. */
    | BrowserLogFetched(attempt: nat, use: LogUse)
    | BrowserLogUsed(attempt: nat, use: LogUse, lines: seq<string>)
    | DumpDirectoriesCreated(attempt: nat)
    | Captured(attempt: nat, artifact: Artifact)
    | ScopeDisposed(attempt: nat)
    | AppDisposed(attempt: nat)
    | SmtpServiceDisposed(attempt: nat)

  predicate BelongsTo(e: Effect, n: nat)
  {
    !e.DumpRootDeleted? && !e.AccessibilityReportsDirectoryEnsured? && e.attempt == n
  }

  predicate IsDisposal(e: Effect)
  {
    e.ScopeDisposed? || e.AppDisposed? || e.SmtpServiceDisposed?
  }

  /**
    Where a step of an attempt sits in the control flow of the loop body: the try block
    (1-11), the catch block's failure dump (12-19), the finally block (20-22).
  */
  function StepIndex(e: Effect): nat
  {
    match e
    case DumpRootDeleted(_) => 0
    case AccessibilityReportsDirectoryEnsured => 0
    case ContextCreationStarted(_) => 1
    case SmtpServiceCreated(_) => 2
    case AppCreated(_) => 3
    case ScopeStarted(_) => 4
    case SetupOperationRun(_) => 5
    case Navigated(_, _) => 6
    case TestBodyRun(_) => 7
    case BrowserLogFetched(_, use) => UseIndex(use) - 1
    case BrowserLogUsed(_, use, _) => UseIndex(use)
    case DumpDirectoriesCreated(_) => 12
    case Captured(_, a) =>
      (match a
       case AppSnapshot => 13
       case Screenshot => 14
       case PageSource => 15
       case BrowserLogFile => 18
       case AccessibilityReport => 19)
    case ScopeDisposed(_) => 20
    case AppDisposed(_) => 21
    case SmtpServiceDisposed(_) => 22
  }

  function UseIndex(use: LogUse): nat
  {
    match use
    case AssertionInput => 9
    case FailurePrintout => 11
    case DumpFile => 17
  }

  /** The steps follow the control flow strictly: each happens at most once, in program order. */
  ghost predicate InSourceOrder(t: seq<Effect>)
  {
    forall i :: 0 <= i < |t| - 1 ==> StepIndex(t[i]) < StepIndex(t[i + 1])
  }

  /** All steps of `t` belong to attempt `n` and sit in the control-flow range [lo, hi]. */
  ghost predicate StepsWithin(t: seq<Effect>, n: nat, lo: nat, hi: nat)
  {
    forall i :: 0 <= i < |t| ==> BelongsTo(t[i], n) && lo <= StepIndex(t[i]) <= hi
  }

  /** A step of some attempt rather than of the prelude before the loop. */
  predicate IsAttemptStep(e: Effect)
  {
    !e.DumpRootDeleted? && !e.AccessibilityReportsDirectoryEnsured?
  }

  /**
    The order of a whole run: the dump root is cleared before the report folder is made, the
    prelude comes before every attempt, the attempts follow each other, and each attempt's steps
    follow its control flow.
  */
  predicate RunsBefore(a: Effect, b: Effect)
  {
    if !IsAttemptStep(a) then
      (a.DumpRootDeleted? && b.AccessibilityReportsDirectoryEnsured?) || IsAttemptStep(b)
    else
      IsAttemptStep(b) && (a.attempt < b.attempt || (a.attempt == b.attempt && StepIndex(a) < StepIndex(b)))
  }

  ghost predicate InRunOrder(t: seq<Effect>)
  {
    forall p, q :: 0 <= p < q < |t| ==> RunsBefore(t[p], t[q])
  }

  function Count(t: seq<Effect>, e: Effect): nat
  {
    multiset(t)[e]
  }

  /** The effects before the retry loop: the dump root is cleared, the always-on report folder made. */
  function Prelude(testName: string, settings: Settings): seq<Effect>
  {
    [DumpRootDeleted(DumpFolderNameBase(testName, settings.useShortNames))]
    + if settings.createReportAlways then [AccessibilityReportsDirectoryEnsured] else []
  }

  /** The URL the setup phase navigates to in an attempt. */
  function SetupLocator(script: AttemptScript): string
  {
    match script.snapshot
    case ReusesSnapshot(locator) => locator
    case RunsOperation => if script.setupOperation.SetupReturns? then script.setupOperation.locator else ""
  }

  /** The parts of UITestContext the executor sets: the test's name and the SMTP context, if any. */
  datatype UITestContext = UITestContext(testName: string, smtpContext: Option<RunningContext>)

  /** A handler appended to the app's BeforeAppStart event. */
  datatype AppStartHandler = AddSmtpPortArgument(port: int) | ConfiguredHandler

  /** Whether the script makes one of the attempt's phases throw (with that accessibility flag). */
  predicate ScriptThrows(settings: Settings, script: AttemptScript, phase: Phase, accessibility: bool)
  {
    match phase
    case AppStartUp => script.appStartUp == Throws(accessibility)
    case ScopeStart => script.scopeStart == Throws(accessibility)
    case SetupOperation =>
      settings.hasSetupOperation && script.snapshot.RunsOperation? && script.setupOperation == SetupThrows(accessibility)
    case TestBody => script.testBody == Throws(accessibility)
    case AppLogAssertion => settings.hasAppLogAssertion && script.appLogAssertion == Throws(accessibility)
    case BrowserLogAssertion => settings.hasBrowserLogAssertion && script.browserLogAssertion == Throws(accessibility)
  }

  /** No phase of the attempt throws. */
  predicate NothingThrows(settings: Settings, script: AttemptScript)
  {
    && script.appStartUp.Succeeds?
    && script.scopeStart.Succeeds?
    && (settings.hasSetupOperation && script.snapshot.RunsOperation? ==> script.setupOperation.SetupReturns?)
    && script.testBody.Succeeds?
    && (settings.hasAppLogAssertion ==> script.appLogAssertion.Succeeds?)
    && (settings.hasBrowserLogAssertion ==> script.browserLogAssertion.Succeeds?)
  }

  /** The exception that ended an attempt comes from a step that the configuration runs and the script makes throw. */
  predicate ErrorExplained(settings: Settings, script: AttemptScript, error: AttemptError)
  {
    match error
    case SmtpStartFailed(_) => settings.useSmtpService
    case PhaseFailed(phase, accessibility) => ScriptThrows(settings, script, phase, accessibility)
  }

  /**
    One attempt as recorded by the executor: how it ended, the SMTP context its CreateContext
    obtained (whose port was added to BeforeAppStart), and its effects.
  */
  datatype AttemptRecord = AttemptRecord(result: AttemptResult, smtpContext: Option<RunningContext>, effects: seq<Effect>)

  /** The steps are tagged with the attempt and follow the control flow, so each happens at most once and the disposals come last. */
  ghost predicate AttemptOrdered(t: seq<Effect>, n: nat)
  {
    StepsWithin(t, n, 1, 22) && InSourceOrder(t)
  }

  /** CreateContext runs; the test runs only in a started context; a failure comes from a step that throws. */
  ghost predicate AttemptRuns(record: AttemptRecord, n: nat, settings: Settings, script: AttemptScript)
  {
    var t := record.effects;
    var result := record.result;
    && ContextCreationStarted(n) in t
    && (TestBodyRun(n) in t ==> ScopeStarted(n) in t)
    && (result.Completed? ==> TestBodyRun(n) in t)
    && (!result.Completed? ==> ErrorExplained(settings, script, result.error))
    && (NothingThrows(settings, script) && !settings.useSmtpService ==> result.Completed?)
    && (SetupOperationRun(n) in t ==> settings.hasSetupOperation && script.snapshot.RunsOperation?)
    && (forall l :: Navigated(n, l) in t ==> settings.hasSetupOperation && l == SetupLocator(script))
    && (record.smtpContext.Some? ==> settings.useSmtpService)
    && (result.Completed? && settings.useSmtpService ==> record.smtpContext.Some?)
  }

  /** Each resource of the attempt is disposed exactly when it was created. */
  ghost predicate TeardownBalanced(t: seq<Effect>, n: nat, settings: Settings)
  {
    && (ScopeStarted(n) in t <==> ScopeDisposed(n) in t)
    && (AppCreated(n) in t <==> AppDisposed(n) in t)
    && (SmtpServiceCreated(n) in t <==> settings.useSmtpService)
    && (SmtpServiceDisposed(n) in t <==> settings.useSmtpService)
  }

  /** The browser log is fetched at most once, before any use, and every use sees the same lines. */
  ghost predicate BrowserLogMemoised(t: seq<Effect>, n: nat, script: AttemptScript)
  {
    && !(BrowserLogFetched(n, AssertionInput) in t && BrowserLogFetched(n, DumpFile) in t)
    && BrowserLogFetched(n, FailurePrintout) !in t
    && (forall use, lines :: BrowserLogUsed(n, use, lines) in t ==> lines == script.browserLog)
    && (forall use, lines :: BrowserLogUsed(n, use, lines) in t && use != DumpFile ==> BrowserLogFetched(n, AssertionInput) in t)
    && (forall lines :: BrowserLogUsed(n, DumpFile, lines) in t ==>
          BrowserLogFetched(n, AssertionInput) in t || BrowserLogFetched(n, DumpFile) in t)
  }

  /** The failure dump is written only after a failure with a context: exactly the enabled artifacts, up to a capture step that threw. */
  ghost predicate FailureDumpFaithful(record: AttemptRecord, n: nat, settings: Settings, script: AttemptScript)
  {
    var t := record.effects;
    var result := record.result;
    && (DumpDirectoriesCreated(n) in t <==> !result.Completed? && ScopeStarted(n) in t)
    && (forall a :: Captured(n, a) in t ==>
          !result.Completed? && ScopeStarted(n) in t && CaptureEnabled(settings, result.error, a))
    && (forall a ::
          (&& !result.Completed? && ScopeStarted(n) in t && CaptureEnabled(settings, result.error, a)
           && (result.Failed? || CaptureOrder(a) < CaptureOrder(result.artifact)))
          ==> Captured(n, a) in t)
    && (result.CaptureFailed? ==>
          && ScopeStarted(n) in t
          && script.failingCapture == Some(result.artifact)
          && CaptureEnabled(settings, result.error, result.artifact)
          && Captured(n, result.artifact) !in t)
  }

  /** The promises one attempt keeps. */
  ghost predicate AttemptWellFormed(record: AttemptRecord, n: nat, settings: Settings, script: AttemptScript)
  {
    && AttemptOrdered(record.effects, n)
    && AttemptRuns(record, n, settings, script)
    && TeardownBalanced(record.effects, n, settings)
    && BrowserLogMemoised(record.effects, n, script)
    && FailureDumpFaithful(record, n, settings, script)
  }

  // ---------------------------------------------------------------------------
  // One attempt, as a function of the configuration, the script and how Start ended
  // ---------------------------------------------------------------------------

  /** How SmtpService.Start ended in an attempt; None when the configuration does not use the service. */
  predicate SmtpStartMatches(settings: Settings, smtpStart: Option<Result<RunningContext, SmtpError>>)
  {
    smtpStart.Some? <==> settings.useSmtpService
  }

  /**
    How Start can end given the attempt's script, whatever the leases: the manifest's two
    failures exactly when the manifest is unreadable or lacks smtp4dev, a failed restore with the
    script's non-zero exit code, success only after a readiness line and DidNotStartProperly only
    without one.
  */
  predicate StartAsScripted(script: AttemptScript, r: Result<RunningContext, SmtpError>)
  {
    && (r == Failure(ManifestNotReadable) <==> script.manifest.ManifestUnreadable?)
    && (r == Failure(NoSmtp4devConfiguration) <==> script.manifest == Manifest(false))
    && (r.Failure? && r.error.RestoreFailed? ==> r.error.exitCode == script.restoreExitCode != 0)
    && (r.Success? ==> exists i :: 0 <= i < |script.smtpEvents| && IsReadinessEvent(script.smtpEvents[i]))
    && (r == Failure(DidNotStartProperly) ==>
          forall i :: 0 <= i < |script.smtpEvents| ==> !IsReadinessEvent(script.smtpEvents[i]))
  }

  /** Every attempt's Start, when it ran, ended as the attempt's script allows. */
  ghost predicate StartsAsScripted(smtpStarts: seq<Option<Result<RunningContext, SmtpError>>>, scripts: seq<AttemptScript>)
  {
    && |smtpStarts| <= |scripts|
    && forall k :: 0 <= k < |smtpStarts| && smtpStarts[k].Some? ==> StartAsScripted(scripts[k], smtpStarts[k].value)
  }

  /**
    The state the try block leaves: the exception that ended it (None: it returned), the SMTP
    context obtained, whether the context (its Atata scope) and the app exist, whether the
    browser log was fetched, and its effects.
  */
  datatype TryOutcome = TryOutcome(
    error: Option<AttemptError>,
    smtpContext: Option<RunningContext>,
    scopeStarted: bool,
    appCreated: bool,
    logFetched: bool,
    effects: seq<Effect>)

  /** A step that happens only when `happens` holds. */
  function Opt(happens: bool, e: Effect): seq<Effect>
  {
    if happens then [e] else []
  }

  /** CreateContext: the SMTP service (when used), then the app, then the Atata scope. */
  function Creation(n: nat, settings: Settings, script: AttemptScript, smtpStart: Option<Result<RunningContext, SmtpError>>): TryOutcome
    requires SmtpStartMatches(settings, smtpStart)
  {
    var smtpFailed := smtpStart.Some? && smtpStart.value.Failure?;
    var smtpContext := if smtpStart.Some? && smtpStart.value.Success? then Some(smtpStart.value.value) else None;
    var error :=
      if smtpFailed then Some(SmtpStartFailed(smtpStart.value.error))
      else if script.appStartUp.Throws? then Some(PhaseFailed(AppStartUp, script.appStartUp.accessibility))
      else if script.scopeStart.Throws? then Some(PhaseFailed(ScopeStart, script.scopeStart.accessibility))
      else None;
    TryOutcome(
      error, smtpContext, error.None?, !smtpFailed, false,
      [ContextCreationStarted(n)]
      + Opt(settings.useSmtpService, SmtpServiceCreated(n))
      + Opt(!smtpFailed, AppCreated(n))
      + Opt(error.None?, ScopeStarted(n)))
  }

  /** The test body and the two log assertions, once the context exists and the setup has returned. */
  datatype TestRunOutcome = TestRunOutcome(error: Option<AttemptError>, logFetched: bool, effects: seq<Effect>)

  function TestRun(n: nat, settings: Settings, script: AttemptScript): TestRunOutcome
  {
    var appLogFails := settings.hasAppLogAssertion && script.appLogAssertion.Throws?;
    var browserLogAsserted := script.testBody.Succeeds? && !appLogFails && settings.hasBrowserLogAssertion;
    var browserLogFails := browserLogAsserted && script.browserLogAssertion.Throws?;
    var error :=
      if script.testBody.Throws? then Some(PhaseFailed(TestBody, script.testBody.accessibility))
      else if appLogFails then Some(PhaseFailed(AppLogAssertion, script.appLogAssertion.accessibility))
      else if browserLogFails then Some(PhaseFailed(BrowserLogAssertion, script.browserLogAssertion.accessibility))
      else None;
    TestRunOutcome(
      error, browserLogAsserted,
      [TestBodyRun(n)]
      + Opt(browserLogAsserted, BrowserLogFetched(n, AssertionInput))
      + Opt(browserLogAsserted, BrowserLogUsed(n, AssertionInput, script.browserLog))
      + Opt(browserLogFails, BrowserLogUsed(n, FailurePrintout, script.browserLog)))
  }

  /** What follows the setup phase: its exception, or the test run. */
  function TestPhase(n: nat, settings: Settings, script: AttemptScript): TestRunOutcome
  {
    if SetupFails(settings, script) then
      TestRunOutcome(Some(PhaseFailed(SetupOperation, script.setupOperation.accessibility)), false, [])
    else
      TestRun(n, settings, script)
  }

  /** The setup operation runs when there is one and its snapshot is not reused. */
  predicate RunsSetup(settings: Settings, script: AttemptScript)
  {
    settings.hasSetupOperation && script.snapshot.RunsOperation?
  }

  predicate SetupFails(settings: Settings, script: AttemptScript)
  {
    RunsSetup(settings, script) && script.setupOperation.SetupThrows?
  }

  /** The setup phase: the setup operation (unless its snapshot is reused), then navigation to the page it returned. */
  function SetupSteps(n: nat, settings: Settings, script: AttemptScript): seq<Effect>
  {
    Opt(RunsSetup(settings, script), SetupOperationRun(n))
    + Opt(settings.hasSetupOperation && !SetupFails(settings, script), Navigated(n, SetupLocator(script)))
  }

  /** The try block: context creation (inside the setup callback or directly), setup, navigation, the test. */
  function TryBlock(n: nat, settings: Settings, script: AttemptScript, smtpStart: Option<Result<RunningContext, SmtpError>>): TryOutcome
    requires SmtpStartMatches(settings, smtpStart)
  {
    var created := Creation(n, settings, script, smtpStart);
    if created.error.Some? then
      created
    else
      var rest := TestPhase(n, settings, script);
      created.(error := rest.error, logFetched := rest.logFetched,
               effects := created.effects + SetupSteps(n, settings, script) + rest.effects)
  }

  /** The capture step that throws, if the script makes an enabled one throw. */
  function FailingCapture(settings: Settings, script: AttemptScript, error: AttemptError): Option<Artifact>
  {
    if script.failingCapture.Some? && CaptureEnabled(settings, error, script.failingCapture.value) then
      script.failingCapture
    else
      None
  }

  /** The catch block reaches the step for `a`: it is enabled and no earlier step threw. */
  predicate CaptureReached(settings: Settings, script: AttemptScript, error: AttemptError, a: Artifact)
  {
    var failing := FailingCapture(settings, script, error);
    CaptureEnabled(settings, error, a) && (failing.None? || CaptureOrder(a) <= CaptureOrder(failing.value))
  }

  /** The step for `a` is reached and does not throw. */
  predicate CaptureWritten(settings: Settings, script: AttemptScript, error: AttemptError, a: Artifact)
  {
    CaptureReached(settings, script, error, a) && FailingCapture(settings, script, error) != Some(a)
  }

  /** The catch block's failure dump: the capture step that threw, if any, and the effects. */
  datatype CatchOutcome = CatchOutcome(failedCapture: Option<Artifact>, effects: seq<Effect>)

  /** The artifacts the failure dump writes after `error`. */
  function WrittenArtifacts(settings: Settings, script: AttemptScript, error: AttemptError): (r: set<Artifact>)
    ensures forall a :: a in r <==> CaptureWritten(settings, script, error, a)
  {
    var r :=
      (if CaptureWritten(settings, script, error, AppSnapshot) then {AppSnapshot} else {})
      + (if CaptureWritten(settings, script, error, Screenshot) then {Screenshot} else {})
      + (if CaptureWritten(settings, script, error, PageSource) then {PageSource} else {})
      + (if CaptureWritten(settings, script, error, BrowserLogFile) then {BrowserLogFile} else {})
      + (if CaptureWritten(settings, script, error, AccessibilityReport) then {AccessibilityReport} else {});
    assert forall a :: a in r <==> CaptureWritten(settings, script, error, a) by {
      forall a
        ensures a in r <==> CaptureWritten(settings, script, error, a)
      {
        assert a == AppSnapshot || a == Screenshot || a == PageSource || a == BrowserLogFile || a == AccessibilityReport;
      }
    }
    r
  }

  /** A page capture is written when its flag is on and no capture step before it, nor itself, threw. */
  lemma PageCapturesWritten(settings: Settings, script: AttemptScript, error: AttemptError)
    ensures var w := WrittenArtifacts(settings, script, error);
            var snapshotThrows := settings.captureAppSnapshot && script.failingCapture == Some(AppSnapshot);
            var screenshotThrows := settings.captureScreenshot && script.failingCapture == Some(Screenshot);
            var sourceThrows := settings.captureHtmlSource && script.failingCapture == Some(PageSource);
            && (AppSnapshot in w <==> settings.captureAppSnapshot && !snapshotThrows)
            && (Screenshot in w <==> settings.captureScreenshot && !snapshotThrows && !screenshotThrows)
            && (PageSource in w <==> settings.captureHtmlSource && !snapshotThrows && !screenshotThrows && !sourceThrows)
  {
  }

  /**
    The browser log is reached unless a page capture threw, and written unless writing it threw;
    the accessibility report is written only when no capture step threw at all.
  */
  lemma LaterCapturesWritten(settings: Settings, script: AttemptScript, error: AttemptError)
    ensures var w := WrittenArtifacts(settings, script, error);
            var failing := FailingCapture(settings, script, error);
            var logReached := CaptureReached(settings, script, error, BrowserLogFile);
            && (logReached <==> settings.captureBrowserLog && (failing.None? || 3 <= CaptureOrder(failing.value)))
            && (BrowserLogFile in w <==> logReached && failing != Some(BrowserLogFile))
            && (AccessibilityReport in w <==> IsAccessibilityFailure(error) && settings.createReportOnFailure && failing.None?)
  {
  }

  /** The first captures of the failure dump: the app snapshot, the screenshot, the page source. */
  function PageCaptures(n: nat, written: set<Artifact>): seq<Effect>
  {
    Opt(AppSnapshot in written, Captured(n, AppSnapshot))
    + Opt(Screenshot in written, Captured(n, Screenshot))
    + Opt(PageSource in written, Captured(n, PageSource))
  }

  /** The browser log capture: the log is fetched unless already cached, used, and its file written. */
  function LogCapture(n: nat, written: set<Artifact>, logReached: bool, logFetched: bool, lines: seq<string>): seq<Effect>
  {
    Opt(logReached && !logFetched, BrowserLogFetched(n, DumpFile))
    + Opt(logReached, BrowserLogUsed(n, DumpFile, lines))
    + Opt(BrowserLogFile in written, Captured(n, BrowserLogFile))
  }

  /** The failure dump once its directories exist; the accessibility report comes last. */
  function DumpSteps(n: nat, written: set<Artifact>, logReached: bool, logFetched: bool, lines: seq<string>): seq<Effect>
  {
    [DumpDirectoriesCreated(n)]
    + PageCaptures(n, written)
    + LogCapture(n, written, logReached, logFetched, lines)
    + Opt(AccessibilityReport in written, Captured(n, AccessibilityReport))
  }

  /** The catch block: the failure dump, when the context exists. */
  function CatchBlock(n: nat, settings: Settings, script: AttemptScript, error: AttemptError, scopeStarted: bool, logFetched: bool): CatchOutcome
  {
    if !scopeStarted then
      CatchOutcome(None, [])
    else
      CatchOutcome(
        FailingCapture(settings, script, error),
        DumpSteps(n, WrittenArtifacts(settings, script, error), CaptureReached(settings, script, error, BrowserLogFile), logFetched, script.browserLog))
  }

  /** The finally block: the scope, the app, then the SMTP service, each if it exists. */
  function Disposals(n: nat, scopeStarted: bool, appCreated: bool, smtpCreated: bool): seq<Effect>
  {
    Opt(scopeStarted, ScopeDisposed(n)) + Opt(appCreated, AppDisposed(n)) + Opt(smtpCreated, SmtpServiceDisposed(n))
  }

  /** The effects after the try block: the failure dump (when it threw) and the disposals. */
  function AfterTry(n: nat, settings: Settings, script: AttemptScript, tried: TryOutcome): seq<Effect>
  {
    var disposals := Disposals(n, tried.scopeStarted, tried.appCreated, settings.useSmtpService);
    if tried.error.None? then disposals
    else CatchBlock(n, settings, script, tried.error.value, tried.scopeStarted, tried.logFetched).effects + disposals
  }

  /** How the attempt ends: the try block returned, or its exception is rethrown, or a capture step threw instead. */
  function AttemptResultOf(settings: Settings, script: AttemptScript, tried: TryOutcome): AttemptResult
  {
    if tried.error.None? then
      Completed
    else
      var failed := if tried.scopeStarted then FailingCapture(settings, script, tried.error.value) else None;
      if failed.Some? then CaptureFailed(tried.error.value, failed.value) else Failed(tried.error.value)
  }

  /** Attempt `n`: the try block, the catch block when it threw, the finally block. */
  function Attempt(n: nat, settings: Settings, script: AttemptScript, smtpStart: Option<Result<RunningContext, SmtpError>>): AttemptRecord
    requires SmtpStartMatches(settings, smtpStart)
  {
    var tried := TryBlock(n, settings, script, smtpStart);
    AttemptRecord(AttemptResultOf(settings, script, tried), tried.smtpContext, tried.effects + AfterTry(n, settings, script, tried))
  }

  function Flatten(attempts: seq<AttemptRecord>): seq<Effect>
  {
    if attempts == [] then [] else Flatten(attempts[..|attempts| - 1]) + attempts[|attempts| - 1].effects
  }

  /** The BeforeAppStart handlers the attempts appended, in order: one per SMTP context obtained. */
  function AddedHandlers(attempts: seq<AttemptRecord>): (r: seq<AppStartHandler>)
    ensures |r| <= |attempts|
    ensures forall i :: 0 <= i < |r| ==> r[i].AddSmtpPortArgument?
  {
    if attempts == [] then []
    else
      var last := attempts[|attempts| - 1];
      AddedHandlers(attempts[..|attempts| - 1])
      + if last.smtpContext.Some? then [AddSmtpPortArgument(last.smtpContext.value.port)] else []
  }

  // ---------------------------------------------------------------------------
  // The retry loop
  // ---------------------------------------------------------------------------

  /**
    What the loop does once attempt `index` ended with `result`: return (the test passed), let the
    capture step's exception escape, rethrow once the retry count equals MaxRetryCount, or retry (None).
  */
  function Verdict(result: AttemptResult, index: nat, maxRetryCount: int): Option<TestOutcome>
  {
    match result
    case Completed => Some(Passed)
    case CaptureFailed(_, artifact) => Some(CaptureThrew(artifact))
    case Failed(error) => if index == maxRetryCount then Some(Rethrown(error)) else None
  }

  /** Every attempt of `attempts` was followed by another one: each failed before the retry count reached MaxRetryCount. */
  ghost predicate Retried(attempts: seq<AttemptRecord>, maxRetryCount: int)
    decreases |attempts|
  {
    attempts == []
    || (&& Retried(attempts[..|attempts| - 1], maxRetryCount)
        && Verdict(attempts[|attempts| - 1].result, |attempts| - 1, maxRetryCount).None?)
  }

  /**
    The retry loop ran `attempts` out of `scriptCount` scripted ones and ended with `outcome`: every
    attempt but the last was retried, and the last one decided the outcome unless the scripts ran out.
  */
  ghost predicate RetryLoop(attempts: seq<AttemptRecord>, maxRetryCount: int, scriptCount: nat, outcome: TestOutcome)
  {
    && |attempts| <= scriptCount
    && if outcome == ScriptExhausted then
         |attempts| == scriptCount && Retried(attempts, maxRetryCount)
       else
         && attempts != []
         && Retried(attempts[..|attempts| - 1], maxRetryCount)
         && Verdict(attempts[|attempts| - 1].result, |attempts| - 1, maxRetryCount) == Some(outcome)
  }

  /** Attempt `i` of `attempts` is the one `scripts[i]` and `smtpStarts[i]` describe. */
  ghost predicate AttemptsAsScripted(
    attempts: seq<AttemptRecord>, smtpStarts: seq<Option<Result<RunningContext, SmtpError>>>, settings: Settings,
    scripts: seq<AttemptScript>)
    decreases |attempts|
  {
    && |smtpStarts| == |attempts| <= |scripts|
    && (attempts != [] ==>
          var k := |attempts| - 1;
          && AttemptsAsScripted(attempts[..k], smtpStarts[..k], settings, scripts)
          && SmtpStartMatches(settings, smtpStarts[k])
          && attempts[k] == Attempt(k, settings, scripts[k], smtpStarts[k]))
  }
}
