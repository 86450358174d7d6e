/**
  UITestExecutor.ExecuteOrchardCoreTest (Lombiq.Tests.UI/Services/UITestExecutor.cs): validate,
  prepare the shared configuration, then run attempts until one completes, a diagnostic capture
  throws, or the retry budget is spent. Each attempt runs the try block (context creation, setup,
  test, log assertions), the catch block (failure dump) and the finally block (teardown).
*/
module UITestExecutor {
  import opened Wrappers
  import opened PortLeasing
  import opened Smtp
  import opened UITestModel
  import RunProofs

  /** The snapshot manager singleton, identified by the snapshot directory it was created with. */
  datatype SnapshotManager = SnapshotManager(snapshotDirectoryPath: string)

  /**
    The mutable parts of OrchardCoreUITestExecutorConfiguration the executor writes:
    OrchardCoreConfiguration.SnapshotDirectoryPath, OrchardCoreConfiguration.BeforeAppStart and
    AtataConfiguration.TestName.
  */
  class OrchardCoreUITestExecutorConfiguration {
    const settings: Settings
    /** Whether OrchardCoreConfiguration is set at all. */
    const hasOrchardCoreConfiguration: bool
    var snapshotDirectoryPath: string
    var beforeAppStart: seq<AppStartHandler>
    var atataTestName: string

    constructor(settings: Settings, hasOrchardCoreConfiguration: bool, beforeAppStart: seq<AppStartHandler>)
      ensures this.settings == settings && this.hasOrchardCoreConfiguration == hasOrchardCoreConfiguration
      ensures this.beforeAppStart == beforeAppStart
      ensures snapshotDirectoryPath == "" && atataTestName == ""
    {
      this.settings := settings;
      this.hasOrchardCoreConfiguration := hasOrchardCoreConfiguration;
      this.beforeAppStart := beforeAppStart;
      snapshotDirectoryPath := "";
      atataTestName := "";
    }
  }

  /** The executor's static state: the setup snapshot manager singleton. */
  class ExecutorStatics {
    var setupSnapshotManagerInstance: Option<SnapshotManager>

    constructor()
      ensures setupSnapshotManagerInstance.None?
    {
      setupSnapshotManagerInstance := None;
    }
  }


  /** What one port lease manager's used set went through in Start: untouched with the port still 0, or the port added. */
  ghost predicate LeaseTaken(before: set<int>, after: set<int>, port: int)
  {
    (port == 0 && after == before) || (port !in before && after == before + {port})
  }

  /** Every lease taken since `before` was released; besides, port 0 may have been released. */
  ghost predicate LeasesReturned(before: set<int>, after: set<int>)
  {
    before - {0} <= after <= before
  }

  /** Releasing the port a lease took returns the used set to where it was, apart from port 0. */
  lemma LeaseReleased(before: set<int>, leased: set<int>, port: int)
    requires LeaseTaken(before, leased, port)
    ensures LeasesReturned(before, leased - {port})
  {
  }

  /**
    The local function CreateContext: start the SMTP service when configured (adding a handler that
    passes its port to the app), create and start the app, then start the Atata scope. The SMTP
    service and the app are reported even when a later step throws, so the finally block can
    dispose them.
  */
  method CreateContext(
    n: nat, testName: string, configuration: OrchardCoreUITestExecutorConfiguration, statics: SmtpStatics,
    script: AttemptScript)
    returns (r: Result<UITestContext, AttemptError>, smtpService: SmtpService?,
             smtpStart: Option<Result<RunningContext, SmtpError>>, appCreated: bool, t: seq<Effect>)
    requires statics.Valid()
    modifies configuration`beforeAppStart, statics, statics.smtpPortLeaseManager, statics.webUIPortLeaseManager
    ensures statics.Valid()
    ensures old(statics.wasRestored) ==> statics.wasRestored
    ensures SmtpStartMatches(configuration.settings, smtpStart)
    ensures smtpStart.Some? ==> StartAsScripted(script, smtpStart.value)
    // the outcome is the one Creation describes
    ensures var c := Creation(n, configuration.settings, script, smtpStart);
            && t == c.effects && appCreated == c.appCreated
            && (r.Success? <==> c.error.None?)
            && (r.Failure? ==> r.error == c.error.value)
            && (r.Success? ==> r.value == UITestContext(testName, c.smtpContext))
            && configuration.beforeAppStart
               == old(configuration.beforeAppStart)
                  + if c.smtpContext.Some? then [AddSmtpPortArgument(c.smtpContext.value.port)] else []
    // the SMTP service and the leases it took
    ensures smtpService != null <==> configuration.settings.useSmtpService
    ensures smtpService != null ==> fresh(smtpService)
    ensures smtpService != null && smtpStart.value.Success? ==> smtpStart.value.value.port == smtpService.smtpPort
    ensures smtpService == null ==>
              && statics.smtpPortLeaseManager.usedPorts == old(statics.smtpPortLeaseManager.usedPorts)
              && statics.webUIPortLeaseManager.usedPorts == old(statics.webUIPortLeaseManager.usedPorts)
    ensures smtpService != null ==>
              && LeaseTaken(old(statics.smtpPortLeaseManager.usedPorts), statics.smtpPortLeaseManager.usedPorts, smtpService.smtpPort)
              && LeaseTaken(old(statics.webUIPortLeaseManager.usedPorts), statics.webUIPortLeaseManager.usedPorts, smtpService.webUIPort)
  {
    t := [ContextCreationStarted(n)];
    smtpService := null;
    smtpStart := None;
    var smtpContext := None;
    if configuration.settings.useSmtpService {
      smtpService := new SmtpService();
      t := t + [SmtpServiceCreated(n)];
      var started := smtpService.Start(statics, script.manifest, script.restoreExitCode, script.smtpEvents);
      smtpStart := Some(started);
      if started.Failure? {
        r, appCreated := Failure(SmtpStartFailed(started.error)), false;
        return;
      }
      smtpContext := Some(started.value);
      configuration.beforeAppStart := configuration.beforeAppStart + [AddSmtpPortArgument(started.value.port)];
    }
    appCreated := true;
    t := t + [AppCreated(n)];
    if script.appStartUp.Throws? {
      r := Failure(PhaseFailed(AppStartUp, script.appStartUp.accessibility));
      return;
    }
    if script.scopeStart.Throws? {
      r := Failure(PhaseFailed(ScopeStart, script.scopeStart.accessibility));
      return;
    }
    t := t + [ScopeStarted(n)];
    r := Success(UITestContext(testName, smtpContext));
  }

  /**
    The memoised local GetBrowserLog: the first call reads (and so empties) the driver's log,
    every later call of the attempt returns the cached lines.
  */
  method GetBrowserLog(n: nat, cache: Option<seq<string>>, use: LogUse, script: AttemptScript)
    returns (lines: seq<string>, cached: Option<seq<string>>, t: seq<Effect>)
    ensures cached == Some(lines)
    ensures cache.Some? ==> lines == cache.value && t == []
    ensures cache.None? ==> lines == script.browserLog && t == [BrowserLogFetched(n, use)]
  {
    if cache.Some? {
      lines, t := cache.value, [];
    } else {
      lines, t := script.browserLog, [BrowserLogFetched(n, use)];
    }
    cached := Some(lines);
  }

  /**
    The test and the log assertions: the test body, the app log assertion, then the browser log
    assertion, which prints the (cached) browser log before rethrowing.
  */
  method RunTest(n: nat, settings: Settings, script: AttemptScript)
    returns (error: Option<AttemptError>, logCache: Option<seq<string>>, t: seq<Effect>)
    ensures TestRunOutcome(error, logCache.Some?, t) == TestRun(n, settings, script)
    ensures logCache.Some? ==> logCache.value == script.browserLog
  {
    logCache := None;
    t := [TestBodyRun(n)];
    if script.testBody.Throws? {
      error := Some(PhaseFailed(TestBody, script.testBody.accessibility));
      return;
    }
    if settings.hasAppLogAssertion && script.appLogAssertion.Throws? {
      error := Some(PhaseFailed(AppLogAssertion, script.appLogAssertion.accessibility));
      return;
    }
    error := None;
    if settings.hasBrowserLogAssertion {
      var lines, fetched;
      lines, logCache, fetched := GetBrowserLog(n, logCache, AssertionInput, script);
      t := t + fetched + [BrowserLogUsed(n, AssertionInput, lines)];
      if script.browserLogAssertion.Throws? {
        lines, logCache, fetched := GetBrowserLog(n, logCache, FailurePrintout, script);
        t := t + fetched + [BrowserLogUsed(n, FailurePrintout, lines)];
        error := Some(PhaseFailed(BrowserLogAssertion, script.browserLogAssertion.accessibility));
      }
    }
  }

  /**
    The start of the try block: with a setup operation, the snapshot manager either runs the
    callback (which creates the context and runs the setup operation) or reuses a snapshot, then
    the context is created if it does not exist yet and the browser navigates to the returned URL;
    without one the context is created directly.
  */
  method ObtainContext(
    n: nat, testName: string, configuration: OrchardCoreUITestExecutorConfiguration, statics: SmtpStatics,
    script: AttemptScript)
    returns (created: Result<UITestContext, AttemptError>, setupError: Option<AttemptError>, smtpService: SmtpService?,
             smtpStart: Option<Result<RunningContext, SmtpError>>, appCreated: bool, t: seq<Effect>)
    requires statics.Valid()
    modifies configuration`beforeAppStart, statics, statics.smtpPortLeaseManager, statics.webUIPortLeaseManager
    ensures statics.Valid()
    ensures old(statics.wasRestored) ==> statics.wasRestored
    ensures SmtpStartMatches(configuration.settings, smtpStart)
    ensures smtpStart.Some? ==> StartAsScripted(script, smtpStart.value)
    // the context is the one Creation describes
    ensures var c := Creation(n, configuration.settings, script, smtpStart);
            && appCreated == c.appCreated
            && (created.Success? <==> c.error.None?)
            && (created.Failure? ==> created.error == c.error.value && t == c.effects && setupError.None?)
            && (created.Success? ==> created.value == UITestContext(testName, c.smtpContext))
            && configuration.beforeAppStart
               == old(configuration.beforeAppStart)
                  + if c.smtpContext.Some? then [AddSmtpPortArgument(c.smtpContext.value.port)] else []
    // the setup phase runs in a created context
    ensures created.Success? ==>
              && t == Creation(n, configuration.settings, script, smtpStart).effects + SetupSteps(n, configuration.settings, script)
              && (setupError.Some? <==> SetupFails(configuration.settings, script))
              && (setupError.Some? ==> setupError.value == PhaseFailed(SetupOperation, script.setupOperation.accessibility))
    // the SMTP service and the leases it took
    ensures smtpService != null <==> configuration.settings.useSmtpService
    ensures smtpService != null ==> fresh(smtpService)
    ensures smtpService == null ==>
              && statics.smtpPortLeaseManager.usedPorts == old(statics.smtpPortLeaseManager.usedPorts)
              && statics.webUIPortLeaseManager.usedPorts == old(statics.webUIPortLeaseManager.usedPorts)
    ensures smtpService != null ==>
              && LeaseTaken(old(statics.smtpPortLeaseManager.usedPorts), statics.smtpPortLeaseManager.usedPorts, smtpService.smtpPort)
              && LeaseTaken(old(statics.webUIPortLeaseManager.usedPorts), statics.webUIPortLeaseManager.usedPorts, smtpService.webUIPort)
  {
    var settings := configuration.settings;
    var context: Option<UITestContext> := None;
    // `created` is assigned by CreateContext on every path
    created, setupError, smtpService, smtpStart, appCreated, t := Failure(SmtpStartFailed(NoSmtp4devConfiguration)), None, null, None, false, [];
    if settings.hasSetupOperation {
      var resultLocator: string;
      match script.snapshot {
        case RunsOperation =>
          // the callback creates the context, then runs the setup operation
          created, smtpService, smtpStart, appCreated, t := CreateContext(n, testName, configuration, statics, script);
          if created.Failure? {
            return;
          }
          context := Some(created.value);
          t := t + [SetupOperationRun(n)];
          if script.setupOperation.SetupThrows? {
            setupError := Some(PhaseFailed(SetupOperation, script.setupOperation.accessibility));
            return;
          }
          resultLocator := script.setupOperation.locator;
        case ReusesSnapshot(locator) =>
          resultLocator := locator;
      }
      if context.None? {
        created, smtpService, smtpStart, appCreated, t := CreateContext(n, testName, configuration, statics, script);
        if created.Failure? {
          return;
        }
        context := Some(created.value);
      }
      t := t + [Navigated(n, resultLocator)];
    }
    if context.None? {
      created, smtpService, smtpStart, appCreated, t := CreateContext(n, testName, configuration, statics, script);
    }
  }

  /** The try block: the context and the setup phase, then the test and the log assertions. */
  method TryAttempt(
    n: nat, testName: string, configuration: OrchardCoreUITestExecutorConfiguration, statics: SmtpStatics,
    script: AttemptScript)
    returns (error: Option<AttemptError>, context: Option<UITestContext>, smtpService: SmtpService?,
             smtpStart: Option<Result<RunningContext, SmtpError>>, appCreated: bool, logCache: Option<seq<string>>,
             t: seq<Effect>)
    requires statics.Valid()
    modifies configuration`beforeAppStart, statics, statics.smtpPortLeaseManager, statics.webUIPortLeaseManager
    ensures statics.Valid()
    ensures old(statics.wasRestored) ==> statics.wasRestored
    ensures SmtpStartMatches(configuration.settings, smtpStart)
    ensures smtpStart.Some? ==> StartAsScripted(script, smtpStart.value)
    // the outcome is the one TryBlock describes
    ensures var tried := TryBlock(n, configuration.settings, script, smtpStart);
            && error == tried.error && t == tried.effects
            && context.Some? == tried.scopeStarted && appCreated == tried.appCreated
            && logCache.Some? == tried.logFetched
            && (context.Some? ==> context.value == UITestContext(testName, tried.smtpContext))
            && configuration.beforeAppStart
               == old(configuration.beforeAppStart)
                  + if tried.smtpContext.Some? then [AddSmtpPortArgument(tried.smtpContext.value.port)] else []
    ensures logCache.Some? ==> logCache.value == script.browserLog
    // the SMTP service and the leases it took
    ensures smtpService != null <==> configuration.settings.useSmtpService
    ensures smtpService != null ==> fresh(smtpService)
    ensures smtpService == null ==>
              && statics.smtpPortLeaseManager.usedPorts == old(statics.smtpPortLeaseManager.usedPorts)
              && statics.webUIPortLeaseManager.usedPorts == old(statics.webUIPortLeaseManager.usedPorts)
    ensures smtpService != null ==>
              && LeaseTaken(old(statics.smtpPortLeaseManager.usedPorts), statics.smtpPortLeaseManager.usedPorts, smtpService.smtpPort)
              && LeaseTaken(old(statics.webUIPortLeaseManager.usedPorts), statics.webUIPortLeaseManager.usedPorts, smtpService.webUIPort)
  {
    var created, setupError;
    created, setupError, smtpService, smtpStart, appCreated, t := ObtainContext(n, testName, configuration, statics, script);
    logCache := None;
    if created.Failure? {
      error, context := Some(created.error), None;
      return;
    }
    context := Some(created.value);
    if setupError.Some? {
      error := setupError;
      return;
    }
    var testEffects;
    error, logCache, testEffects := RunTest(n, configuration.settings, script);
    t := t + testEffects;
  }

  /** The app snapshot, the screenshot and the page source, each if enabled, up to one that throws. */
  method CapturePage(n: nat, settings: Settings, script: AttemptScript, error: AttemptError)
    returns (failedCapture: Option<Artifact>, t: seq<Effect>)
    ensures var failing := FailingCapture(settings, script, error);
            failedCapture == if failing.Some? && CaptureOrder(failing.value) <= 2 then failing else None
    ensures t == PageCaptures(n, WrittenArtifacts(settings, script, error))
  {
    PageCapturesWritten(settings, script, error);
    failedCapture, t := None, [];
    if settings.captureAppSnapshot {
      if script.failingCapture == Some(AppSnapshot) {
        failedCapture := Some(AppSnapshot);
        return;
      }
      t := t + [Captured(n, AppSnapshot)];
    }
    if settings.captureScreenshot {
      if script.failingCapture == Some(Screenshot) {
        failedCapture := Some(Screenshot);
        return;
      }
      t := t + [Captured(n, Screenshot)];
    }
    if settings.captureHtmlSource {
      if script.failingCapture == Some(PageSource) {
        failedCapture := Some(PageSource);
        return;
      }
      t := t + [Captured(n, PageSource)];
    }
  }

  /** The browser log file, if enabled: the (memoised) log is read, then written out, which may throw. */
  method CaptureLog(n: nat, settings: Settings, script: AttemptScript, error: AttemptError, logCache: Option<seq<string>>)
    returns (failedCapture: Option<Artifact>, t: seq<Effect>)
    requires logCache.Some? ==> logCache.value == script.browserLog
    requires var failing := FailingCapture(settings, script, error); failing.None? || CaptureOrder(failing.value) >= 3
    ensures var failing := FailingCapture(settings, script, error);
            failedCapture == if failing == Some(BrowserLogFile) then failing else None
    ensures t == LogCapture(n, WrittenArtifacts(settings, script, error), CaptureReached(settings, script, error, BrowserLogFile),
                            logCache.Some?, script.browserLog)
  {
    failedCapture, t := None, [];
    if settings.captureBrowserLog {
      var lines, cached, fetched := GetBrowserLog(n, logCache, DumpFile, script);
      t := fetched + [BrowserLogUsed(n, DumpFile, lines)];
      if script.failingCapture == Some(BrowserLogFile) {
        failedCapture := Some(BrowserLogFile);
        return;
      }
      t := t + [Captured(n, BrowserLogFile)];
    }
  }

  /**
    The catch block's failure dump, when the context exists: the dump directories, then each
    enabled capture in turn (app snapshot, screenshot, page source, browser log, accessibility
    report). A capture step that throws ends the dump; its exception replaces the attempt's.
  */
  method CaptureDiagnostics(
    n: nat, settings: Settings, script: AttemptScript, error: AttemptError, context: Option<UITestContext>,
    logCache: Option<seq<string>>)
    returns (failedCapture: Option<Artifact>, t: seq<Effect>)
    requires logCache.Some? ==> logCache.value == script.browserLog
    ensures CatchOutcome(failedCapture, t) == CatchBlock(n, settings, script, error, context.Some?, logCache.Some?)
  {
    failedCapture, t := None, [];
    if context.None? {
      return;
    }
    ghost var written := WrittenArtifacts(settings, script, error);
    ghost var logReached := CaptureReached(settings, script, error, BrowserLogFile);
    LaterCapturesWritten(settings, script, error);
    var page, log;
    t := [DumpDirectoriesCreated(n)];
    failedCapture, page := CapturePage(n, settings, script, error);
    t := t + page;
    if failedCapture.Some? {
      assert !logReached && BrowserLogFile !in written && AccessibilityReport !in written;
      return;
    }
    failedCapture, log := CaptureLog(n, settings, script, error, logCache);
    t := t + log;
    if failedCapture.Some? {
      assert AccessibilityReport !in written;
      return;
    }
    if IsAccessibilityFailure(error) && settings.createReportOnFailure {
      if script.failingCapture == Some(AccessibilityReport) {
        failedCapture := Some(AccessibilityReport);
        return;
      }
      t := t + [Captured(n, AccessibilityReport)];
    }
  }

  /** The finally block: dispose the Atata scope, the app and the SMTP service, each if it exists. */
  method Teardown(n: nat, context: Option<UITestContext>, appCreated: bool, smtpService: SmtpService?, statics: SmtpStatics)
    returns (t: seq<Effect>)
    requires statics.Valid()
    modifies smtpService, statics.smtpPortLeaseManager, statics.webUIPortLeaseManager
    ensures statics.Valid()
    ensures t == Disposals(n, context.Some?, appCreated, smtpService != null)
    ensures smtpService == null ==>
              && statics.smtpPortLeaseManager.usedPorts == old(statics.smtpPortLeaseManager.usedPorts)
              && statics.webUIPortLeaseManager.usedPorts == old(statics.webUIPortLeaseManager.usedPorts)
    ensures smtpService != null ==>
              && smtpService.smtpPort == old(smtpService.smtpPort) && smtpService.webUIPort == old(smtpService.webUIPort)
              && statics.smtpPortLeaseManager.usedPorts == old(statics.smtpPortLeaseManager.usedPorts) - {smtpService.smtpPort}
              && statics.webUIPortLeaseManager.usedPorts == old(statics.webUIPortLeaseManager.usedPorts) - {smtpService.webUIPort}
  {
    t := [];
    if context.Some? {
      t := t + [ScopeDisposed(n)];
    }
    if appCreated {
      t := t + [AppDisposed(n)];
    }
    if smtpService != null {
      smtpService.DisposeAsync(statics);
      t := t + [SmtpServiceDisposed(n)];
    }
  }

  /**
    The catch and finally blocks after a try block that ended as `tried`: the failure dump when it
    threw, then the disposals. A capture step that throws replaces the attempt's exception.
  */
  method FinishAttempt(
    n: nat, settings: Settings, script: AttemptScript, ghost tried: TryOutcome, error: Option<AttemptError>,
    context: Option<UITestContext>, appCreated: bool, logCache: Option<seq<string>>, smtpService: SmtpService?,
    statics: SmtpStatics)
    returns (result: AttemptResult, t: seq<Effect>)
    requires statics.Valid()
    requires error == tried.error && context.Some? == tried.scopeStarted && appCreated == tried.appCreated
    requires logCache.Some? == tried.logFetched && (logCache.Some? ==> logCache.value == script.browserLog)
    requires smtpService != null <==> settings.useSmtpService
    modifies smtpService, statics.smtpPortLeaseManager, statics.webUIPortLeaseManager
    ensures statics.Valid()
    ensures result == AttemptResultOf(settings, script, tried)
    ensures t == AfterTry(n, settings, script, tried)
    ensures smtpService == null ==>
              && statics.smtpPortLeaseManager.usedPorts == old(statics.smtpPortLeaseManager.usedPorts)
              && statics.webUIPortLeaseManager.usedPorts == old(statics.webUIPortLeaseManager.usedPorts)
    ensures smtpService != null ==>
              && smtpService.smtpPort == old(smtpService.smtpPort) && smtpService.webUIPort == old(smtpService.webUIPort)
              && statics.smtpPortLeaseManager.usedPorts == old(statics.smtpPortLeaseManager.usedPorts) - {smtpService.smtpPort}
              && statics.webUIPortLeaseManager.usedPorts == old(statics.webUIPortLeaseManager.usedPorts) - {smtpService.webUIPort}
  {
    result, t := Completed, [];
    if error.Some? {
      var failedCapture;
      failedCapture, t := CaptureDiagnostics(n, settings, script, error.value, context, logCache);
      result := if failedCapture.Some? then CaptureFailed(error.value, failedCapture.value) else Failed(error.value);
    }
    var disposed := Teardown(n, context, appCreated, smtpService, statics);
    t := t + disposed;
  }

  /**
    One pass of the retry loop's body: the try block, the catch block when it threw, the finally
    block. Whatever ports the attempt leased are released again by its finally block.
  */
  method RunAttempt(
    n: nat, testName: string, configuration: OrchardCoreUITestExecutorConfiguration, statics: SmtpStatics,
    script: AttemptScript)
    returns (record: AttemptRecord, smtpStart: Option<Result<RunningContext, SmtpError>>)
    requires statics.Valid()
    modifies configuration`beforeAppStart, statics, statics.smtpPortLeaseManager, statics.webUIPortLeaseManager
    ensures statics.Valid()
    ensures old(statics.wasRestored) ==> statics.wasRestored
    ensures SmtpStartMatches(configuration.settings, smtpStart)
    ensures smtpStart.Some? ==> StartAsScripted(script, smtpStart.value)
    ensures record == Attempt(n, configuration.settings, script, smtpStart)
    ensures configuration.beforeAppStart
            == old(configuration.beforeAppStart)
               + if record.smtpContext.Some? then [AddSmtpPortArgument(record.smtpContext.value.port)] else []
    ensures LeasesReturned(old(statics.smtpPortLeaseManager.usedPorts), statics.smtpPortLeaseManager.usedPorts)
    ensures LeasesReturned(old(statics.webUIPortLeaseManager.usedPorts), statics.webUIPortLeaseManager.usedPorts)
  {
    var error, context, smtpService, appCreated, logCache, tried;
    error, context, smtpService, smtpStart, appCreated, logCache, tried := TryAttempt(n, testName, configuration, statics, script);
    ghost var outcome := TryBlock(n, configuration.settings, script, smtpStart);
    ghost var smtpLeased, webUILeased := statics.smtpPortLeaseManager.usedPorts, statics.webUIPortLeaseManager.usedPorts;
    var result, after := FinishAttempt(n, configuration.settings, script, outcome, error, context, appCreated, logCache, smtpService, statics);
    if smtpService != null {
      LeaseReleased(old(statics.smtpPortLeaseManager.usedPorts), smtpLeased, smtpService.smtpPort);
      LeaseReleased(old(statics.webUIPortLeaseManager.usedPorts), webUILeased, smtpService.webUIPort);
    }
    // the context Start returned, which the handler added to BeforeAppStart captured
    var smtpContext := if smtpStart.Some? && smtpStart.value.Success? then Some(smtpStart.value.value) else None;
    assert smtpContext == outcome.smtpContext by {
      assert outcome.smtpContext == Creation(n, configuration.settings, script, smtpStart).smtpContext;
    }
    record := AttemptRecord(result, smtpContext, tried + after);
  }

  /**
    The snapshot manager singleton after a test with `settings` started: created for the setup
    snapshot directory by the first test that has a setup operation, and kept from then on.
  */
  function SharedSnapshotManager(instance: Option<SnapshotManager>, settings: Settings): (r: Option<SnapshotManager>)
    ensures instance.Some? ==> r == instance
    ensures instance.None? ==> (r.Some? <==> settings.hasSetupOperation)
    ensures instance.None? && r.Some? ==> r.value.snapshotDirectoryPath == settings.setupSnapshotPath
  {
    if settings.hasSetupOperation && instance.None? then Some(SnapshotManager(settings.setupSnapshotPath)) else instance
  }

  /**
    What ExecuteOrchardCoreTest does before its loop: point the app at the setup snapshot directory,
    create the snapshot manager singleton under its lock, name the Atata test, clear the dump root
    and make the always-on accessibility report folder.
  */
  method PrepareRun(testName: string, configuration: OrchardCoreUITestExecutorConfiguration, executorStatics: ExecutorStatics)
    returns (t: seq<Effect>)
    modifies configuration`snapshotDirectoryPath, configuration`atataTestName, executorStatics
    ensures configuration.snapshotDirectoryPath == configuration.settings.setupSnapshotPath
    ensures configuration.atataTestName == testName
    ensures executorStatics.setupSnapshotManagerInstance
            == SharedSnapshotManager(old(executorStatics.setupSnapshotManagerInstance), configuration.settings)
    ensures t == Prelude(testName, configuration.settings)
  {
    var settings := configuration.settings;
    configuration.snapshotDirectoryPath := settings.setupSnapshotPath;
    if settings.hasSetupOperation {
      // under the lock
      if executorStatics.setupSnapshotManagerInstance.None? {
        executorStatics.setupSnapshotManagerInstance := Some(SnapshotManager(settings.setupSnapshotPath));
      }
    }
    configuration.atataTestName := testName;
    t := [DumpRootDeleted(DumpFolderNameBase(testName, settings.useShortNames))];
    if settings.createReportAlways {
      t := t + [AccessibilityReportsDirectoryEnsured];
    }
  }

  /** LeasesReturned composes over consecutive attempts. */
  lemma LeasesReturnedTransitive(before: set<int>, middle: set<int>, after: set<int>)
    requires LeasesReturned(before, middle) && LeasesReturned(middle, after)
    ensures LeasesReturned(before, after)
  {
  }

  /**
    The retry loop: attempt `retryCount` runs with `scripts[retryCount]`; the loop ends when an
    attempt passes, when a capture step throws, when the attempt with index MaxRetryCount failed
    (rethrow), or when the scripts run out.
  */
  method RetryAttempts(
    testName: string, configuration: OrchardCoreUITestExecutorConfiguration, statics: SmtpStatics,
    scripts: seq<AttemptScript>)
    returns (outcome: TestOutcome, attempts: seq<AttemptRecord>,
             ghost smtpStarts: seq<Option<Result<RunningContext, SmtpError>>>)
    requires statics.Valid()
    modifies configuration`beforeAppStart, statics, statics.smtpPortLeaseManager, statics.webUIPortLeaseManager
    ensures statics.Valid()
    ensures !Rejected(outcome)
    ensures RetryLoop(attempts, configuration.settings.maxRetryCount, |scripts|, outcome)
    ensures AttemptsAsScripted(attempts, smtpStarts, configuration.settings, scripts)
    ensures StartsAsScripted(smtpStarts, scripts)
    ensures configuration.beforeAppStart == old(configuration.beforeAppStart) + AddedHandlers(attempts)
    ensures LeasesReturned(old(statics.smtpPortLeaseManager.usedPorts), statics.smtpPortLeaseManager.usedPorts)
    ensures LeasesReturned(old(statics.webUIPortLeaseManager.usedPorts), statics.webUIPortLeaseManager.usedPorts)
    ensures old(statics.wasRestored) ==> statics.wasRestored
  {
    var settings := configuration.settings;
    ghost var handlers0 := configuration.beforeAppStart;
    ghost var smtp0, webUI0 := statics.smtpPortLeaseManager.usedPorts, statics.webUIPortLeaseManager.usedPorts;
    attempts, smtpStarts := [], [];
    var retryCount: nat := 0;
    var verdict: Option<TestOutcome> := None;
    while verdict.None? && retryCount < |scripts|
      invariant |attempts| == retryCount <= |scripts|
      invariant statics.Valid()
      invariant verdict.None? ==> Retried(attempts, settings.maxRetryCount)
      invariant verdict.Some? ==>
                  && attempts != []
                  && Retried(attempts[..|attempts| - 1], settings.maxRetryCount)
                  && Verdict(attempts[|attempts| - 1].result, |attempts| - 1, settings.maxRetryCount) == verdict
      invariant AttemptsAsScripted(attempts, smtpStarts, settings, scripts)
      invariant StartsAsScripted(smtpStarts, scripts)
      invariant configuration.beforeAppStart == handlers0 + AddedHandlers(attempts)
      invariant LeasesReturned(smtp0, statics.smtpPortLeaseManager.usedPorts)
      invariant LeasesReturned(webUI0, statics.webUIPortLeaseManager.usedPorts)
      invariant old(statics.wasRestored) ==> statics.wasRestored
      decreases |scripts| - retryCount
    {
      var record;
      ghost var smtpStart;
      record, smtpStart, verdict := RetryStep(testName, configuration, statics, scripts, attempts, smtpStarts, handlers0, smtp0, webUI0);
      attempts, smtpStarts := attempts + [record], smtpStarts + [smtpStart];
      retryCount := retryCount + 1;
    }
    RunProofs.LoopExit(attempts, settings.maxRetryCount, |scripts|, verdict);
    outcome := if verdict.Some? then verdict.value else ScriptExhausted;
  }

  /**
    One pass of the retry loop: run attempt `|attempts|` and decide whether the loop ends there.
    `handlers0`, `smtp0` and `webUI0` are the handler list and the leased ports from before the loop.
  */
  method RetryStep(
    testName: string, configuration: OrchardCoreUITestExecutorConfiguration, statics: SmtpStatics,
    scripts: seq<AttemptScript>, attempts: seq<AttemptRecord>,
    ghost smtpStarts: seq<Option<Result<RunningContext, SmtpError>>>,
    ghost handlers0: seq<AppStartHandler>, ghost smtp0: set<int>, ghost webUI0: set<int>)
    returns (record: AttemptRecord, ghost smtpStart: Option<Result<RunningContext, SmtpError>>,
             verdict: Option<TestOutcome>)
    requires statics.Valid()
    requires |attempts| < |scripts|
    requires Retried(attempts, configuration.settings.maxRetryCount)
    requires AttemptsAsScripted(attempts, smtpStarts, configuration.settings, scripts)
    requires StartsAsScripted(smtpStarts, scripts)
    requires configuration.beforeAppStart == handlers0 + AddedHandlers(attempts)
    requires LeasesReturned(smtp0, statics.smtpPortLeaseManager.usedPorts)
    requires LeasesReturned(webUI0, statics.webUIPortLeaseManager.usedPorts)
    modifies configuration`beforeAppStart, statics, statics.smtpPortLeaseManager, statics.webUIPortLeaseManager
    ensures statics.Valid()
    ensures verdict == Verdict(record.result, |attempts|, configuration.settings.maxRetryCount)
    ensures verdict.None? ==> Retried(attempts + [record], configuration.settings.maxRetryCount)
    ensures (attempts + [record])[..|attempts|] == attempts
    ensures AttemptsAsScripted(attempts + [record], smtpStarts + [smtpStart], configuration.settings, scripts)
    ensures StartsAsScripted(smtpStarts + [smtpStart], scripts)
    ensures configuration.beforeAppStart == handlers0 + AddedHandlers(attempts + [record])
    ensures LeasesReturned(smtp0, statics.smtpPortLeaseManager.usedPorts)
    ensures LeasesReturned(webUI0, statics.webUIPortLeaseManager.usedPorts)
    ensures old(statics.wasRestored) ==> statics.wasRestored
  {
    var settings := configuration.settings;
    ghost var smtpUsed, webUIUsed := statics.smtpPortLeaseManager.usedPorts, statics.webUIPortLeaseManager.usedPorts;
    ghost var handlers := configuration.beforeAppStart;
    record, smtpStart := RunAttempt(|attempts|, testName, configuration, statics, scripts[|attempts|]);
    LeasesReturnedTransitive(smtp0, smtpUsed, statics.smtpPortLeaseManager.usedPorts);
    LeasesReturnedTransitive(webUI0, webUIUsed, statics.webUIPortLeaseManager.usedPorts);
    RunProofs.HandlersStep(handlers0, attempts, record, handlers, configuration.beforeAppStart);
    RunProofs.RetriedStep(attempts, record, settings.maxRetryCount);
    RunProofs.ScriptedStep(attempts, smtpStarts, settings, scripts, record, smtpStart);
    RunProofs.StartsStep(smtpStarts, scripts, smtpStart);
    verdict := Decide(record.result, |attempts|, settings.maxRetryCount);
  }

  /** How the loop reacts to the attempt with index `retryCount`: None means try again. */
  method Decide(result: AttemptResult, retryCount: nat, maxRetryCount: int) returns (verdict: Option<TestOutcome>)
    ensures verdict == Verdict(result, retryCount, maxRetryCount)
  {
    verdict := None;
    match result {
      case Completed =>
        // the test passed: return
        verdict := Some(Passed);
      case CaptureFailed(_, artifact) =>
        // the capture step's exception escapes the catch block
        verdict := Some(CaptureThrew(artifact));
      case Failed(error) =>
        if retryCount == maxRetryCount {
          verdict := Some(Rethrown(error));
        }
    }
  }

  /** The validation failures, which leave everything untouched. */
  predicate Rejected(outcome: TestOutcome)
  {
    outcome.TestNameMissing? || outcome.OrchardCoreConfigurationMissing?
  }

  /**
    ExecuteOrchardCoreTest: validate the test name and the configuration, point the app at the
    setup snapshot directory, create the snapshot manager singleton if there is a setup operation
    and none exists yet, name the Atata test, clear the dump root, make the always-on accessibility
    report folder, then run attempts until one passes, a capture step throws, or the attempt with
    index MaxRetryCount failed. `scripts[i]` says what the collaborators do in attempt `i`; running
    out of them ends the model's loop with ScriptExhausted.
  */
  method ExecuteOrchardCoreTest(
    testName: string, configuration: OrchardCoreUITestExecutorConfiguration, executorStatics: ExecutorStatics,
    statics: SmtpStatics, scripts: seq<AttemptScript>)
    returns (outcome: TestOutcome, attempts: seq<AttemptRecord>,
             ghost smtpStarts: seq<Option<Result<RunningContext, SmtpError>>>, trace: seq<Effect>)
    requires statics.Valid()
    modifies configuration`snapshotDirectoryPath, configuration`beforeAppStart, configuration`atataTestName
    modifies executorStatics, statics, statics.smtpPortLeaseManager, statics.webUIPortLeaseManager
    ensures statics.Valid()
    // validation
    ensures outcome == TestNameMissing <==> testName == ""
    ensures outcome == OrchardCoreConfigurationMissing <==> testName != "" && !configuration.hasOrchardCoreConfiguration
    ensures Rejected(outcome) ==>
              && attempts == [] && trace == []
              && unchanged(configuration, executorStatics, statics, statics.smtpPortLeaseManager, statics.webUIPortLeaseManager)
    // the shared configuration
    ensures !Rejected(outcome) ==>
              && configuration.snapshotDirectoryPath == configuration.settings.setupSnapshotPath
              && configuration.atataTestName == testName
              && executorStatics.setupSnapshotManagerInstance
                 == SharedSnapshotManager(old(executorStatics.setupSnapshotManagerInstance), configuration.settings)
              && configuration.beforeAppStart == old(configuration.beforeAppStart) + AddedHandlers(attempts)
    // the attempts
    ensures !Rejected(outcome) ==>
              && trace == Prelude(testName, configuration.settings) + Flatten(attempts)
              && RetryLoop(attempts, configuration.settings.maxRetryCount, |scripts|, outcome)
              && AttemptsAsScripted(attempts, smtpStarts, configuration.settings, scripts)
    ensures !Rejected(outcome) ==> StartsAsScripted(smtpStarts, scripts)
    // the SMTP service's shared state
    ensures LeasesReturned(old(statics.smtpPortLeaseManager.usedPorts), statics.smtpPortLeaseManager.usedPorts)
    ensures LeasesReturned(old(statics.webUIPortLeaseManager.usedPorts), statics.webUIPortLeaseManager.usedPorts)
    ensures old(statics.wasRestored) ==> statics.wasRestored
  {
    attempts, smtpStarts, trace := [], [], [];
    if testName == "" {
      outcome := TestNameMissing;
      return;
    }
    if !configuration.hasOrchardCoreConfiguration {
      outcome := OrchardCoreConfigurationMissing;
      return;
    }
    var prelude := PrepareRun(testName, configuration, executorStatics);
    outcome, attempts, smtpStarts := RetryAttempts(testName, configuration, statics, scripts);
    trace := prelude + Flatten(attempts);
  }
}
