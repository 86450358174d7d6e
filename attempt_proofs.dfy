// Every attempt of the retry loop in UITestExecutor.ExecuteOrchardCoreTest keeps the
// promises of UITestModel.AttemptWellFormed. The proof follows the loop body: the try block
// (context creation, setup, test), the catch block (the failure dump) and the finally block
// (the disposals) each occupy their own stretch of StepIndex, so facts about one block can be
// read off the whole attempt without looking at the others.

module AttemptProofs {
  import opened Wrappers
  import opened Smtp
  import opened UITestModel

  // ---------------------------------------------------------------------------
  // Stretches of the control flow
  // ---------------------------------------------------------------------------

  /** Two ordered stretches of an attempt, one entirely before the other, make an ordered stretch. */
  lemma OrderedAppend(a: seq<Effect>, b: seq<Effect>, n: nat, lo: nat, mid: nat, hi: nat)
    requires lo <= mid <= hi
    requires StepsWithin(a, n, lo, mid) && InSourceOrder(a)
    requires StepsWithin(b, n, mid + 1, hi) && InSourceOrder(b)
    ensures StepsWithin(a + b, n, lo, hi) && InSourceOrder(a + b)
  {
    forall i | 0 <= i < |a + b|
      ensures BelongsTo((a + b)[i], n) && lo <= StepIndex((a + b)[i]) <= hi
    {
      if i < |a| {
        assert (a + b)[i] == a[i];
      } else {
        assert (a + b)[i] == b[i - |a|];
      }
    }
    forall i | 0 <= i < |a + b| - 1
      ensures StepIndex((a + b)[i]) < StepIndex((a + b)[i + 1])
    {
      if i + 1 < |a| {
        assert (a + b)[i] == a[i] && (a + b)[i + 1] == a[i + 1];
      } else if i + 1 == |a| {
        assert (a + b)[i] == a[i] && (a + b)[i + 1] == b[0];
      } else {
        assert (a + b)[i] == b[i - |a|] && (a + b)[i + 1] == b[i + 1 - |a|];
      }
    }
  }

  /** Appending a step that comes later in the control flow keeps a stretch ordered. */
  lemma Then(t: seq<Effect>, n: nat, lo: nat, hi: nat, happens: bool, e: Effect)
    requires lo <= hi
    requires StepsWithin(t, n, lo, hi) && InSourceOrder(t)
    requires happens ==> BelongsTo(e, n) && hi < StepIndex(e)
    ensures StepsWithin(t + Opt(happens, e), n, lo, if happens then StepIndex(e) else hi)
    ensures InSourceOrder(t + Opt(happens, e))
  {
    if happens {
      OrderedAppend(t, [e], n, lo, hi, StepIndex(e));
    } else {
      assert t + Opt(happens, e) == t;
    }
  }

  lemma Widen(t: seq<Effect>, n: nat, lo: nat, hi: nat, lo': nat, hi': nat)
    requires StepsWithin(t, n, lo, hi) && lo' <= lo && hi <= hi'
    ensures StepsWithin(t, n, lo', hi')
  {
  }

  /** A stretch confined to one part of the control flow holds no step from outside it. */
  lemma Outside(t: seq<Effect>, n: nat, lo: nat, hi: nat, e: Effect)
    requires StepsWithin(t, n, lo, hi)
    requires StepIndex(e) < lo || hi < StepIndex(e) || !BelongsTo(e, n)
    ensures e !in t
  {
  }

  /** In two consecutive stretches, a step is looked for in the stretch its index belongs to. */
  lemma Locate(a: seq<Effect>, b: seq<Effect>, n: nat, lo: nat, mid: nat, hi: nat, e: Effect)
    requires StepsWithin(a, n, lo, mid) && StepsWithin(b, n, mid + 1, hi)
    ensures StepIndex(e) <= mid ==> (e in a + b <==> e in a)
    ensures mid < StepIndex(e) ==> (e in a + b <==> e in b)
  {
    if StepIndex(e) <= mid {
      Outside(b, n, mid + 1, hi, e);
    } else {
      Outside(a, n, lo, mid, e);
    }
  }

  lemma InOpt(t: seq<Effect>, happens: bool, e: Effect, x: Effect)
    ensures x in t + Opt(happens, e) <==> x in t || (happens && x == e)
  {
  }

  // ---------------------------------------------------------------------------
  // The try block (steps 1-11)
  // ---------------------------------------------------------------------------

  lemma CreationOrdered(n: nat, settings: Settings, script: AttemptScript, smtpStart: Option<Result<RunningContext, SmtpError>>)
    requires SmtpStartMatches(settings, smtpStart)
    ensures var c := Creation(n, settings, script, smtpStart);
            StepsWithin(c.effects, n, 1, 4) && InSourceOrder(c.effects)
  {
    var c := Creation(n, settings, script, smtpStart);
    var t0 := [ContextCreationStarted(n)];
    var t1 := t0 + Opt(settings.useSmtpService, SmtpServiceCreated(n));
    var t2 := t1 + Opt(c.appCreated, AppCreated(n));
    Then(t0, n, 1, 1, settings.useSmtpService, SmtpServiceCreated(n));
    Then(t1, n, 1, 2, c.appCreated, AppCreated(n));
    Then(t2, n, 1, 3, c.scopeStarted, ScopeStarted(n));
  }

  /** CreateContext creates the SMTP service exactly when it is used, the app unless Start failed, the scope unless something threw. */
  lemma CreationFacts(n: nat, settings: Settings, script: AttemptScript, smtpStart: Option<Result<RunningContext, SmtpError>>)
    requires SmtpStartMatches(settings, smtpStart)
    ensures var c := Creation(n, settings, script, smtpStart);
            && ContextCreationStarted(n) in c.effects
            && (SmtpServiceCreated(n) in c.effects <==> settings.useSmtpService)
            && (AppCreated(n) in c.effects <==> c.appCreated)
            && (ScopeStarted(n) in c.effects <==> c.scopeStarted)
            && !c.logFetched
            && (c.error.None? <==> c.scopeStarted)
            && (c.error.Some? ==> ErrorExplained(settings, script, c.error.value))
            && (script.appStartUp.Succeeds? && script.scopeStart.Succeeds? && !settings.useSmtpService ==> c.error.None?)
            && (c.smtpContext.Some? ==> settings.useSmtpService)
            && (c.error.None? && settings.useSmtpService ==> c.smtpContext.Some?)
  {
  }

  lemma SetupStepsOrdered(n: nat, settings: Settings, script: AttemptScript)
    ensures StepsWithin(SetupSteps(n, settings, script), n, 5, 6) && InSourceOrder(SetupSteps(n, settings, script))
  {
    var t0 := Opt(RunsSetup(settings, script), SetupOperationRun(n));
    var navigates := settings.hasSetupOperation && !SetupFails(settings, script);
    Then(t0, n, 5, 5, navigates, Navigated(n, SetupLocator(script)));
    Widen(t0 + Opt(navigates, Navigated(n, SetupLocator(script))), n, 5, if navigates then 6 else 5, 5, 6);
  }

  /** The setup operation runs only when configured and not replaced by a snapshot; navigation goes to the page it returned. */
  lemma SetupStepsFacts(n: nat, settings: Settings, script: AttemptScript, locator: string)
    ensures var s := SetupSteps(n, settings, script);
            && (SetupOperationRun(n) in s <==> RunsSetup(settings, script))
            && (Navigated(n, locator) in s <==>
                  settings.hasSetupOperation && !SetupFails(settings, script) && locator == SetupLocator(script))
  {
  }

  lemma TestPhaseOrdered(n: nat, settings: Settings, script: AttemptScript)
    ensures var r := TestPhase(n, settings, script);
            StepsWithin(r.effects, n, 7, 11) && InSourceOrder(r.effects)
  {
    if !SetupFails(settings, script) {
      var r := TestRun(n, settings, script);
      var t0 := [TestBodyRun(n)];
      var t1 := t0 + Opt(r.logFetched, BrowserLogFetched(n, AssertionInput));
      var t2 := t1 + Opt(r.logFetched, BrowserLogUsed(n, AssertionInput, script.browserLog));
      var fails := r.logFetched && script.browserLogAssertion.Throws?;
      Then(t0, n, 7, 7, r.logFetched, BrowserLogFetched(n, AssertionInput));
      Then(t1, n, 7, if r.logFetched then 8 else 7, r.logFetched, BrowserLogUsed(n, AssertionInput, script.browserLog));
      Then(t2, n, 7, if r.logFetched then 9 else 7, fails, BrowserLogUsed(n, FailurePrintout, script.browserLog));
    }
  }

  /** The test runs unless the setup threw; the browser log is fetched for its assertion and then printed if that fails. */
  lemma TestPhaseFacts(n: nat, settings: Settings, script: AttemptScript)
    ensures var r := TestPhase(n, settings, script);
            && (TestBodyRun(n) in r.effects <==> !SetupFails(settings, script))
            && (r.error.None? ==> TestBodyRun(n) in r.effects)
            && (BrowserLogFetched(n, AssertionInput) in r.effects <==> r.logFetched)
            && BrowserLogFetched(n, FailurePrintout) !in r.effects
            && (forall use, lines :: BrowserLogUsed(n, use, lines) in r.effects ==>
                  lines == script.browserLog && use != DumpFile && r.logFetched)
            && (r.error.Some? ==> ErrorExplained(settings, script, r.error.value))
            && (NothingThrows(settings, script) ==> r.error.None?)
  {
  }

  lemma TryOrdered(n: nat, settings: Settings, script: AttemptScript, smtpStart: Option<Result<RunningContext, SmtpError>>)
    requires SmtpStartMatches(settings, smtpStart)
    ensures var r := TryBlock(n, settings, script, smtpStart);
            StepsWithin(r.effects, n, 1, 11) && InSourceOrder(r.effects)
  {
    var created := Creation(n, settings, script, smtpStart);
    CreationOrdered(n, settings, script, smtpStart);
    if created.error.None? {
      SetupStepsOrdered(n, settings, script);
      TestPhaseOrdered(n, settings, script);
      OrderedAppend(created.effects, SetupSteps(n, settings, script), n, 1, 4, 6);
      OrderedAppend(created.effects + SetupSteps(n, settings, script), TestPhase(n, settings, script).effects, n, 1, 6, 11);
    } else {
      Widen(created.effects, n, 1, 4, 1, 11);
    }
  }

  /** The try block's effects: the creation steps, then (when the scope started) the setup steps and the test phase. */
  lemma TryParts(n: nat, settings: Settings, script: AttemptScript, smtpStart: Option<Result<RunningContext, SmtpError>>)
    requires SmtpStartMatches(settings, smtpStart)
    ensures var r := TryBlock(n, settings, script, smtpStart);
            var created := Creation(n, settings, script, smtpStart);
            var setup := if created.error.None? then SetupSteps(n, settings, script) else [];
            var rest := if created.error.None? then TestPhase(n, settings, script) else TestRunOutcome(created.error, false, []);
            && StepsWithin(created.effects, n, 1, 4)
            && StepsWithin(setup, n, 5, 6)
            && StepsWithin(rest.effects, n, 7, 11)
            && r.effects == created.effects + setup + rest.effects
            && r.error == rest.error && r.logFetched == rest.logFetched
            && r.smtpContext == created.smtpContext
            && r.scopeStarted == created.scopeStarted && r.appCreated == created.appCreated
  {
    var created := Creation(n, settings, script, smtpStart);
    CreationOrdered(n, settings, script, smtpStart);
    SetupStepsOrdered(n, settings, script);
    TestPhaseOrdered(n, settings, script);
    if created.error.Some? {
      assert created.effects + [] + [] == created.effects;
    }
  }

  /** Creation, setup and test phase facts carry over to the try block, each step being found in its own stretch. */
  lemma TryStepsOfParts(n: nat, settings: Settings, script: AttemptScript, created: TryOutcome, setup: seq<Effect>, rest: TestRunOutcome)
    requires StepsWithin(created.effects, n, 1, 4) && StepsWithin(setup, n, 5, 6) && StepsWithin(rest.effects, n, 7, 11)
    requires ContextCreationStarted(n) in created.effects
    requires SmtpServiceCreated(n) in created.effects <==> settings.useSmtpService
    requires AppCreated(n) in created.effects <==> created.appCreated
    requires ScopeStarted(n) in created.effects <==> created.scopeStarted
    requires TestBodyRun(n) in rest.effects ==> created.scopeStarted
    requires rest.error.None? ==> TestBodyRun(n) in rest.effects
    ensures var t := created.effects + setup + rest.effects;
            && ContextCreationStarted(n) in t
            && (SmtpServiceCreated(n) in t <==> settings.useSmtpService)
            && (AppCreated(n) in t <==> created.appCreated)
            && (ScopeStarted(n) in t <==> created.scopeStarted)
            && (TestBodyRun(n) in t ==> created.scopeStarted)
            && (rest.error.None? ==> TestBodyRun(n) in t)
  {
    Outside(setup, n, 5, 6, SmtpServiceCreated(n));
    Outside(rest.effects, n, 7, 11, SmtpServiceCreated(n));
    Outside(setup, n, 5, 6, AppCreated(n));
    Outside(rest.effects, n, 7, 11, AppCreated(n));
    Outside(setup, n, 5, 6, ScopeStarted(n));
    Outside(rest.effects, n, 7, 11, ScopeStarted(n));
    Outside(created.effects, n, 1, 4, TestBodyRun(n));
    Outside(setup, n, 5, 6, TestBodyRun(n));
  }

  /** Which steps the try block takes, and the exception that ends it. */
  lemma TrySteps(n: nat, settings: Settings, script: AttemptScript, smtpStart: Option<Result<RunningContext, SmtpError>>)
    requires SmtpStartMatches(settings, smtpStart)
    ensures var r := TryBlock(n, settings, script, smtpStart);
            && ContextCreationStarted(n) in r.effects
            && (SmtpServiceCreated(n) in r.effects <==> settings.useSmtpService)
            && (AppCreated(n) in r.effects <==> r.appCreated)
            && (ScopeStarted(n) in r.effects <==> r.scopeStarted)
            && (TestBodyRun(n) in r.effects ==> r.scopeStarted)
            && (r.error.None? ==> TestBodyRun(n) in r.effects)
            && (r.error.Some? ==> ErrorExplained(settings, script, r.error.value))
            && (NothingThrows(settings, script) && !settings.useSmtpService ==> r.error.None?)
            && (r.smtpContext.Some? ==> settings.useSmtpService)
            && (r.error.None? && settings.useSmtpService ==> r.smtpContext.Some?)
  {
    var created := Creation(n, settings, script, smtpStart);
    var setup := if created.error.None? then SetupSteps(n, settings, script) else [];
    var rest := if created.error.None? then TestPhase(n, settings, script) else TestRunOutcome(created.error, false, []);
    TryParts(n, settings, script, smtpStart);
    CreationFacts(n, settings, script, smtpStart);
    if created.error.None? {
      TestPhaseFacts(n, settings, script);
    }
    TryStepsOfParts(n, settings, script, created, setup, rest);
  }

  /** The setup phase in the try block. */
  lemma TrySetup(n: nat, settings: Settings, script: AttemptScript, smtpStart: Option<Result<RunningContext, SmtpError>>)
    requires SmtpStartMatches(settings, smtpStart)
    ensures var r := TryBlock(n, settings, script, smtpStart);
            && (SetupOperationRun(n) in r.effects ==> RunsSetup(settings, script))
            && (forall l :: Navigated(n, l) in r.effects ==> settings.hasSetupOperation && l == SetupLocator(script))
  {
    var created := Creation(n, settings, script, smtpStart);
    var setup := if created.error.None? then SetupSteps(n, settings, script) else [];
    var rest := if created.error.None? then TestPhase(n, settings, script) else TestRunOutcome(created.error, false, []);
    var t := created.effects + setup + rest.effects;
    TryParts(n, settings, script, smtpStart);
    forall l | true
      ensures Navigated(n, l) in t <==> Navigated(n, l) in setup
      ensures SetupOperationRun(n) in t <==> SetupOperationRun(n) in setup
    {
      Outside(created.effects, n, 1, 4, Navigated(n, l));
      Outside(rest.effects, n, 7, 11, Navigated(n, l));
      Outside(created.effects, n, 1, 4, SetupOperationRun(n));
      Outside(rest.effects, n, 7, 11, SetupOperationRun(n));
    }
    forall l | Navigated(n, l) in setup
      ensures settings.hasSetupOperation && l == SetupLocator(script)
    {
      SetupStepsFacts(n, settings, script, l);
    }
    SetupStepsFacts(n, settings, script, "");
  }

  /** Nothing before the test phase touches the browser log, so the test phase's log facts carry over. */
  lemma TryLogOfParts(n: nat, script: AttemptScript, prepared: seq<Effect>, rest: TestRunOutcome)
    requires StepsWithin(prepared, n, 1, 6)
    requires BrowserLogFetched(n, AssertionInput) in rest.effects <==> rest.logFetched
    requires BrowserLogFetched(n, FailurePrintout) !in rest.effects
    requires forall use, lines :: BrowserLogUsed(n, use, lines) in rest.effects ==>
               lines == script.browserLog && use != DumpFile && rest.logFetched
    ensures var t := prepared + rest.effects;
            && (BrowserLogFetched(n, AssertionInput) in t <==> rest.logFetched)
            && BrowserLogFetched(n, FailurePrintout) !in t
            && (forall use, lines :: BrowserLogUsed(n, use, lines) in t ==>
                  lines == script.browserLog && use != DumpFile && rest.logFetched)
  {
    Outside(prepared, n, 1, 6, BrowserLogFetched(n, AssertionInput));
    Outside(prepared, n, 1, 6, BrowserLogFetched(n, FailurePrintout));
    forall use, lines | BrowserLogUsed(n, use, lines) in prepared + rest.effects
      ensures BrowserLogUsed(n, use, lines) in rest.effects
    {
      Outside(prepared, n, 1, 6, BrowserLogUsed(n, use, lines));
    }
  }

  /** The browser log in the try block: fetched once for the assertion, used only after that. */
  lemma TryLog(n: nat, settings: Settings, script: AttemptScript, smtpStart: Option<Result<RunningContext, SmtpError>>)
    requires SmtpStartMatches(settings, smtpStart)
    ensures var r := TryBlock(n, settings, script, smtpStart);
            && (BrowserLogFetched(n, AssertionInput) in r.effects <==> r.logFetched)
            && BrowserLogFetched(n, FailurePrintout) !in r.effects
            && (forall use, lines :: BrowserLogUsed(n, use, lines) in r.effects ==>
                  lines == script.browserLog && use != DumpFile && r.logFetched)
  {
    var created := Creation(n, settings, script, smtpStart);
    var setup := if created.error.None? then SetupSteps(n, settings, script) else [];
    var rest := if created.error.None? then TestPhase(n, settings, script) else TestRunOutcome(created.error, false, []);
    TryParts(n, settings, script, smtpStart);
    OrderedAppendWithin(created.effects, setup, n, 1, 4, 6);
    if created.error.None? {
      TestPhaseFacts(n, settings, script);
    }
    TryLogOfParts(n, script, created.effects + setup, rest);
  }

  /** Two consecutive stretches lie within the union of their ranges. */
  lemma OrderedAppendWithin(a: seq<Effect>, b: seq<Effect>, n: nat, lo: nat, mid: nat, hi: nat)
    requires lo <= mid <= hi
    requires StepsWithin(a, n, lo, mid) && StepsWithin(b, n, mid + 1, hi)
    ensures StepsWithin(a + b, n, lo, hi)
  {
    forall i | 0 <= i < |a + b|
      ensures BelongsTo((a + b)[i], n) && lo <= StepIndex((a + b)[i]) <= hi
    {
      if i < |a| {
        assert (a + b)[i] == a[i];
      } else {
        assert (a + b)[i] == b[i - |a|];
      }
    }
  }

  // ---------------------------------------------------------------------------
  // The catch block (steps 12-19)
  // ---------------------------------------------------------------------------

  lemma PageCapturesOrdered(n: nat, written: set<Artifact>)
    ensures StepsWithin(PageCaptures(n, written), n, 13, 15) && InSourceOrder(PageCaptures(n, written))
  {
    var w0, w1, w2 := AppSnapshot in written, Screenshot in written, PageSource in written;
    var t0 := Opt(w0, Captured(n, AppSnapshot));
    var t1 := t0 + Opt(w1, Captured(n, Screenshot));
    Then(t0, n, 13, 13, w1, Captured(n, Screenshot));
    Widen(t1, n, 13, if w1 then 14 else 13, 13, 14);
    Then(t1, n, 13, 14, w2, Captured(n, PageSource));
    Widen(t1 + Opt(w2, Captured(n, PageSource)), n, 13, if w2 then 15 else 14, 13, 15);
  }

  lemma LogCaptureOrdered(n: nat, written: set<Artifact>, logReached: bool, logFetched: bool, lines: seq<string>)
    ensures var l := LogCapture(n, written, logReached, logFetched, lines);
            StepsWithin(l, n, 16, 18) && InSourceOrder(l)
  {
    var t0 := Opt(logReached && !logFetched, BrowserLogFetched(n, DumpFile));
    var t1 := t0 + Opt(logReached, BrowserLogUsed(n, DumpFile, lines));
    var w := BrowserLogFile in written;
    Then(t0, n, 16, 16, logReached, BrowserLogUsed(n, DumpFile, lines));
    Widen(t1, n, 16, if logReached then 17 else 16, 16, 17);
    Then(t1, n, 16, 17, w, Captured(n, BrowserLogFile));
    Widen(t1 + Opt(w, Captured(n, BrowserLogFile)), n, 16, if w then 18 else 17, 16, 18);
  }

  lemma DumpHeadOrdered(n: nat, written: set<Artifact>, logReached: bool, logFetched: bool, lines: seq<string>)
    ensures var h := [DumpDirectoriesCreated(n)] + PageCaptures(n, written) + LogCapture(n, written, logReached, logFetched, lines);
            StepsWithin(h, n, 12, 18) && InSourceOrder(h)
  {
    var d0 := [DumpDirectoriesCreated(n)];
    var pages := PageCaptures(n, written);
    PageCapturesOrdered(n, written);
    OrderedAppend(d0, pages, n, 12, 12, 15);
    LogCaptureOrdered(n, written, logReached, logFetched, lines);
    OrderedAppend(d0 + pages, LogCapture(n, written, logReached, logFetched, lines), n, 12, 15, 18);
  }

  lemma DumpStepsOrdered(n: nat, written: set<Artifact>, logReached: bool, logFetched: bool, lines: seq<string>)
    ensures var d := DumpSteps(n, written, logReached, logFetched, lines);
            StepsWithin(d, n, 12, 19) && InSourceOrder(d)
  {
    var h := [DumpDirectoriesCreated(n)] + PageCaptures(n, written) + LogCapture(n, written, logReached, logFetched, lines);
    var w := AccessibilityReport in written;
    DumpHeadOrdered(n, written, logReached, logFetched, lines);
    Then(h, n, 12, 18, w, Captured(n, AccessibilityReport));
    Widen(h + Opt(w, Captured(n, AccessibilityReport)), n, 12, if w then 19 else 18, 12, 19);
  }

  lemma CatchOrdered(n: nat, settings: Settings, script: AttemptScript, error: AttemptError, scopeStarted: bool, logFetched: bool)
    ensures var c := CatchBlock(n, settings, script, error, scopeStarted, logFetched);
            StepsWithin(c.effects, n, 12, 19) && InSourceOrder(c.effects)
  {
    if scopeStarted {
      DumpStepsOrdered(n, WrittenArtifacts(settings, script, error), CaptureReached(settings, script, error, BrowserLogFile), logFetched, script.browserLog);
    }
  }

  /** The dump steps hold an artifact exactly when it is to be written. */
  lemma DumpStepsCaptured(n: nat, written: set<Artifact>, logReached: bool, logFetched: bool, lines: seq<string>, a: Artifact)
    ensures Captured(n, a) in DumpSteps(n, written, logReached, logFetched, lines) <==> a in written
  {
    var x := Captured(n, a);
    var pages := PageCaptures(n, written);
    var log := LogCapture(n, written, logReached, logFetched, lines);
    var t0 := Opt(AppSnapshot in written, Captured(n, AppSnapshot));
    var t1 := t0 + Opt(Screenshot in written, Captured(n, Screenshot));
    InOpt(t0, Screenshot in written, Captured(n, Screenshot), x);
    InOpt(t1, PageSource in written, Captured(n, PageSource), x);
    var u0 := Opt(logReached && !logFetched, BrowserLogFetched(n, DumpFile));
    var u1 := u0 + Opt(logReached, BrowserLogUsed(n, DumpFile, lines));
    InOpt(u0, logReached, BrowserLogUsed(n, DumpFile, lines), x);
    InOpt(u1, BrowserLogFile in written, Captured(n, BrowserLogFile), x);
    InOpt([DumpDirectoriesCreated(n)] + pages + log, AccessibilityReport in written, Captured(n, AccessibilityReport), x);
  }

  lemma LogCaptureFacts(n: nat, written: set<Artifact>, logReached: bool, logFetched: bool, lines: seq<string>, use: LogUse, lines': seq<string>)
    ensures var l := LogCapture(n, written, logReached, logFetched, lines);
            && (BrowserLogFetched(n, use) in l <==> logReached && !logFetched && use == DumpFile)
            && (BrowserLogUsed(n, use, lines') in l <==> logReached && use == DumpFile && lines' == lines)
  {
  }

  /** The dump steps fetch the log only when it was not cached, and use it when its capture step is reached. */
  lemma DumpStepsLog(n: nat, written: set<Artifact>, logReached: bool, logFetched: bool, lines: seq<string>, use: LogUse, lines': seq<string>)
    ensures var d := DumpSteps(n, written, logReached, logFetched, lines);
            && DumpDirectoriesCreated(n) in d
            && (BrowserLogFetched(n, use) in d <==> logReached && !logFetched && use == DumpFile)
            && (BrowserLogUsed(n, use, lines') in d <==> logReached && use == DumpFile && lines' == lines)
  {
    var pages := PageCaptures(n, written);
    var log := LogCapture(n, written, logReached, logFetched, lines);
    var prefix := [DumpDirectoriesCreated(n)] + pages + log;
    var w := AccessibilityReport in written;
    PageCapturesOrdered(n, written);
    LogCaptureFacts(n, written, logReached, logFetched, lines, use, lines');
    Outside(pages, n, 13, 15, BrowserLogFetched(n, use));
    Outside(pages, n, 13, 15, BrowserLogUsed(n, use, lines'));
    InOpt(prefix, w, Captured(n, AccessibilityReport), BrowserLogFetched(n, use));
    InOpt(prefix, w, Captured(n, AccessibilityReport), BrowserLogUsed(n, use, lines'));
    InOpt(prefix, w, Captured(n, AccessibilityReport), DumpDirectoriesCreated(n));
  }

  /** The failure dump writes exactly the enabled artifacts, up to the capture step that throws. */
  lemma CatchCaptures(n: nat, settings: Settings, script: AttemptScript, error: AttemptError, scopeStarted: bool, logFetched: bool)
    ensures var c := CatchBlock(n, settings, script, error, scopeStarted, logFetched);
            && (DumpDirectoriesCreated(n) in c.effects <==> scopeStarted)
            && (forall a :: Captured(n, a) in c.effects <==> scopeStarted && CaptureWritten(settings, script, error, a))
            && (forall a :: Captured(n, a) in c.effects ==> scopeStarted && CaptureEnabled(settings, error, a))
            && (forall a ::
                  (&& scopeStarted && CaptureEnabled(settings, error, a)
                   && (c.failedCapture.None? || CaptureOrder(a) < CaptureOrder(c.failedCapture.value)))
                  ==> Captured(n, a) in c.effects)
            && (c.failedCapture.Some? ==>
                  && scopeStarted
                  && script.failingCapture == c.failedCapture
                  && CaptureEnabled(settings, error, c.failedCapture.value)
                  && Captured(n, c.failedCapture.value) !in c.effects)
  {
    var written := WrittenArtifacts(settings, script, error);
    var logReached := CaptureReached(settings, script, error, BrowserLogFile);
    if scopeStarted {
      DumpStepsLog(n, written, logReached, logFetched, script.browserLog, DumpFile, []);
      forall a | true
        ensures Captured(n, a) in DumpSteps(n, written, logReached, logFetched, script.browserLog) <==> a in written
      {
        DumpStepsCaptured(n, written, logReached, logFetched, script.browserLog, a);
      }
    }
  }

  /** The failure dump fetches the browser log only when the try block did not, and always uses those lines. */
  lemma CatchLog(n: nat, settings: Settings, script: AttemptScript, error: AttemptError, scopeStarted: bool, logFetched: bool)
    ensures var c := CatchBlock(n, settings, script, error, scopeStarted, logFetched);
            && (BrowserLogFetched(n, DumpFile) in c.effects <==>
                  scopeStarted && CaptureReached(settings, script, error, BrowserLogFile) && !logFetched)
            && BrowserLogFetched(n, AssertionInput) !in c.effects
            && BrowserLogFetched(n, FailurePrintout) !in c.effects
            && (forall use, lines :: BrowserLogUsed(n, use, lines) in c.effects ==>
                  && use == DumpFile && lines == script.browserLog
                  && (logFetched || BrowserLogFetched(n, DumpFile) in c.effects))
  {
    var written := WrittenArtifacts(settings, script, error);
    var logReached := CaptureReached(settings, script, error, BrowserLogFile);
    if scopeStarted {
      var d := DumpSteps(n, written, logReached, logFetched, script.browserLog);
      DumpStepsLog(n, written, logReached, logFetched, script.browserLog, AssertionInput, []);
      DumpStepsLog(n, written, logReached, logFetched, script.browserLog, FailurePrintout, []);
      DumpStepsLog(n, written, logReached, logFetched, script.browserLog, DumpFile, []);
      forall use, lines | BrowserLogUsed(n, use, lines) in d
        ensures use == DumpFile && lines == script.browserLog && (logFetched || BrowserLogFetched(n, DumpFile) in d)
      {
        DumpStepsLog(n, written, logReached, logFetched, script.browserLog, use, lines);
      }
    }
  }

  // ---------------------------------------------------------------------------
  // The finally block (steps 20-22) and what follows the try block
  // ---------------------------------------------------------------------------

  lemma DisposalsOrdered(n: nat, scopeStarted: bool, appCreated: bool, smtpCreated: bool)
    ensures var d := Disposals(n, scopeStarted, appCreated, smtpCreated);
            StepsWithin(d, n, 20, 22) && InSourceOrder(d)
  {
    var t0 := Opt(scopeStarted, ScopeDisposed(n));
    var t1 := t0 + Opt(appCreated, AppDisposed(n));
    Then(t0, n, 20, 20, appCreated, AppDisposed(n));
    Widen(t1, n, 20, if appCreated then 21 else 20, 20, 21);
    Then(t1, n, 20, 21, smtpCreated, SmtpServiceDisposed(n));
    Widen(t1 + Opt(smtpCreated, SmtpServiceDisposed(n)), n, 20, if smtpCreated then 22 else 21, 20, 22);
  }

  lemma DisposalsOnly(n: nat, scopeStarted: bool, appCreated: bool, smtpCreated: bool)
    ensures forall e :: e in Disposals(n, scopeStarted, appCreated, smtpCreated) ==> IsDisposal(e)
  {
  }

  lemma AfterTryOrdered(n: nat, settings: Settings, script: AttemptScript, tried: TryOutcome)
    ensures StepsWithin(AfterTry(n, settings, script, tried), n, 12, 22) && InSourceOrder(AfterTry(n, settings, script, tried))
  {
    var disposals := Disposals(n, tried.scopeStarted, tried.appCreated, settings.useSmtpService);
    DisposalsOrdered(n, tried.scopeStarted, tried.appCreated, settings.useSmtpService);
    if tried.error.Some? {
      var caught := CatchBlock(n, settings, script, tried.error.value, tried.scopeStarted, tried.logFetched);
      CatchOrdered(n, settings, script, tried.error.value, tried.scopeStarted, tried.logFetched);
      OrderedAppend(caught.effects, disposals, n, 12, 19, 22);
    } else {
      Widen(disposals, n, 20, 22, 12, 22);
    }
  }

  /** What follows the try block: the catch block's steps (12-19), then the disposals (20-22). */
  lemma AfterTryParts(n: nat, settings: Settings, script: AttemptScript, tried: TryOutcome)
    ensures var caught := if tried.error.Some? then CatchBlock(n, settings, script, tried.error.value, tried.scopeStarted, tried.logFetched).effects else [];
            var disposals := Disposals(n, tried.scopeStarted, tried.appCreated, settings.useSmtpService);
            && AfterTry(n, settings, script, tried) == caught + disposals
            && StepsWithin(caught, n, 12, 19)
            && StepsWithin(disposals, n, 20, 22)
  {
    DisposalsOrdered(n, tried.scopeStarted, tried.appCreated, settings.useSmtpService);
    if tried.error.Some? {
      CatchOrdered(n, settings, script, tried.error.value, tried.scopeStarted, tried.logFetched);
    } else {
      assert [] + Disposals(n, tried.scopeStarted, tried.appCreated, settings.useSmtpService) == Disposals(n, tried.scopeStarted, tried.appCreated, settings.useSmtpService);
    }
  }

  lemma DisposalsFacts(n: nat, scopeStarted: bool, appCreated: bool, smtpCreated: bool)
    ensures var d := Disposals(n, scopeStarted, appCreated, smtpCreated);
            && (ScopeDisposed(n) in d <==> scopeStarted)
            && (AppDisposed(n) in d <==> appCreated)
            && (SmtpServiceDisposed(n) in d <==> smtpCreated)
  {
  }

  /** What follows the try block disposes exactly what the try block created. */
  lemma DisposalsExactly(n: nat, settings: Settings, script: AttemptScript, tried: TryOutcome)
    ensures var after := AfterTry(n, settings, script, tried);
            && (ScopeDisposed(n) in after <==> tried.scopeStarted)
            && (AppDisposed(n) in after <==> tried.appCreated)
            && (SmtpServiceDisposed(n) in after <==> settings.useSmtpService)
  {
    var caught := if tried.error.Some? then CatchBlock(n, settings, script, tried.error.value, tried.scopeStarted, tried.logFetched).effects else [];
    AfterTryParts(n, settings, script, tried);
    DisposalsFacts(n, tried.scopeStarted, tried.appCreated, settings.useSmtpService);
    Outside(caught, n, 12, 19, ScopeDisposed(n));
    Outside(caught, n, 12, 19, AppDisposed(n));
    Outside(caught, n, 12, 19, SmtpServiceDisposed(n));
  }

  lemma AfterTryLog(n: nat, settings: Settings, script: AttemptScript, tried: TryOutcome)
    ensures var after := AfterTry(n, settings, script, tried);
            && BrowserLogFetched(n, AssertionInput) !in after
            && BrowserLogFetched(n, FailurePrintout) !in after
            && (BrowserLogFetched(n, DumpFile) in after ==> !tried.logFetched)
            && (forall use, lines :: BrowserLogUsed(n, use, lines) in after ==>
                  && use == DumpFile && lines == script.browserLog
                  && (tried.logFetched || BrowserLogFetched(n, DumpFile) in after))
  {
    DisposalsOnly(n, tried.scopeStarted, tried.appCreated, settings.useSmtpService);
    if tried.error.Some? {
      CatchLog(n, settings, script, tried.error.value, tried.scopeStarted, tried.logFetched);
    }
  }

  /** The failure dump after the try block, in terms of how the attempt ends. */
  lemma AfterTryDump(n: nat, settings: Settings, script: AttemptScript, tried: TryOutcome)
    ensures var after := AfterTry(n, settings, script, tried);
            var result := AttemptResultOf(settings, script, tried);
            && (result.Completed? <==> tried.error.None?)
            && (!result.Completed? ==> result.error == tried.error.value)
            && (DumpDirectoriesCreated(n) in after <==> !result.Completed? && tried.scopeStarted)
            && (forall a :: Captured(n, a) in after ==>
                  !result.Completed? && tried.scopeStarted && CaptureEnabled(settings, result.error, a))
            && (forall a ::
                  (&& !result.Completed? && tried.scopeStarted && CaptureEnabled(settings, result.error, a)
                   && (result.Failed? || CaptureOrder(a) < CaptureOrder(result.artifact)))
                  ==> Captured(n, a) in after)
            && (result.CaptureFailed? ==>
                  && tried.scopeStarted
                  && script.failingCapture == Some(result.artifact)
                  && CaptureEnabled(settings, result.error, result.artifact)
                  && Captured(n, result.artifact) !in after)
  {
    DisposalsOnly(n, tried.scopeStarted, tried.appCreated, settings.useSmtpService);
    if tried.error.Some? {
      CatchCaptures(n, settings, script, tried.error.value, tried.scopeStarted, tried.logFetched);
    }
  }

  // ---------------------------------------------------------------------------
  // The whole attempt
  // ---------------------------------------------------------------------------

  lemma AttemptIsOrdered(n: nat, settings: Settings, script: AttemptScript, smtpStart: Option<Result<RunningContext, SmtpError>>)
    requires SmtpStartMatches(settings, smtpStart)
    ensures AttemptOrdered(Attempt(n, settings, script, smtpStart).effects, n)
  {
    var tried := TryBlock(n, settings, script, smtpStart);
    TryOrdered(n, settings, script, smtpStart);
    AfterTryOrdered(n, settings, script, tried);
    OrderedAppend(tried.effects, AfterTry(n, settings, script, tried), n, 1, 11, 22);
  }

  /** What the try block promises carries over to the attempt, since nothing after it creates, runs or sets up. */
  lemma RunsOfParts(n: nat, settings: Settings, script: AttemptScript, tried: TryOutcome, after: seq<Effect>, result: AttemptResult)
    requires StepsWithin(after, n, 12, 22)
    requires result.Completed? <==> tried.error.None?
    requires !result.Completed? ==> result.error == tried.error.value
    requires ContextCreationStarted(n) in tried.effects
    requires TestBodyRun(n) in tried.effects ==> tried.scopeStarted
    requires ScopeStarted(n) in tried.effects <==> tried.scopeStarted
    requires tried.error.None? ==> TestBodyRun(n) in tried.effects
    requires tried.error.Some? ==> ErrorExplained(settings, script, tried.error.value)
    requires NothingThrows(settings, script) && !settings.useSmtpService ==> tried.error.None?
    requires tried.smtpContext.Some? ==> settings.useSmtpService
    requires tried.error.None? && settings.useSmtpService ==> tried.smtpContext.Some?
    requires SetupOperationRun(n) in tried.effects ==> RunsSetup(settings, script)
    requires forall l :: Navigated(n, l) in tried.effects ==> settings.hasSetupOperation && l == SetupLocator(script)
    ensures AttemptRuns(AttemptRecord(result, tried.smtpContext, tried.effects + after), n, settings, script)
  {
    Outside(after, n, 12, 22, TestBodyRun(n));
    Outside(after, n, 12, 22, ScopeStarted(n));
    Outside(after, n, 12, 22, SetupOperationRun(n));
    forall l | Navigated(n, l) in tried.effects + after
      ensures Navigated(n, l) in tried.effects
    {
      Outside(after, n, 12, 22, Navigated(n, l));
    }
  }

  lemma AttemptRunsAsPromised(n: nat, settings: Settings, script: AttemptScript, smtpStart: Option<Result<RunningContext, SmtpError>>)
    requires SmtpStartMatches(settings, smtpStart)
    ensures AttemptRuns(Attempt(n, settings, script, smtpStart), n, settings, script)
  {
    var tried := TryBlock(n, settings, script, smtpStart);
    TrySteps(n, settings, script, smtpStart);
    TrySetup(n, settings, script, smtpStart);
    AfterTryOrdered(n, settings, script, tried);
    AfterTryDump(n, settings, script, tried);
    RunsOfParts(n, settings, script, tried, AfterTry(n, settings, script, tried), AttemptResultOf(settings, script, tried));
  }

  /** The try block creates what the later blocks dispose: then each resource is disposed exactly when created. */
  lemma TeardownOfParts(n: nat, settings: Settings, tried: TryOutcome, after: seq<Effect>)
    requires StepsWithin(tried.effects, n, 1, 11) && StepsWithin(after, n, 12, 22)
    requires ScopeStarted(n) in tried.effects <==> tried.scopeStarted
    requires AppCreated(n) in tried.effects <==> tried.appCreated
    requires SmtpServiceCreated(n) in tried.effects <==> settings.useSmtpService
    requires ScopeDisposed(n) in after <==> tried.scopeStarted
    requires AppDisposed(n) in after <==> tried.appCreated
    requires SmtpServiceDisposed(n) in after <==> settings.useSmtpService
    ensures TeardownBalanced(tried.effects + after, n, settings)
  {
    Outside(after, n, 12, 22, ScopeStarted(n));
    Outside(after, n, 12, 22, AppCreated(n));
    Outside(after, n, 12, 22, SmtpServiceCreated(n));
    Outside(tried.effects, n, 1, 11, ScopeDisposed(n));
    Outside(tried.effects, n, 1, 11, AppDisposed(n));
    Outside(tried.effects, n, 1, 11, SmtpServiceDisposed(n));
  }

  lemma TeardownIsBalanced(n: nat, settings: Settings, script: AttemptScript, smtpStart: Option<Result<RunningContext, SmtpError>>)
    requires SmtpStartMatches(settings, smtpStart)
    ensures TeardownBalanced(Attempt(n, settings, script, smtpStart).effects, n, settings)
  {
    var tried := TryBlock(n, settings, script, smtpStart);
    TryOrdered(n, settings, script, smtpStart);
    TrySteps(n, settings, script, smtpStart);
    AfterTryOrdered(n, settings, script, tried);
    DisposalsExactly(n, settings, script, tried);
    TeardownOfParts(n, settings, tried, AfterTry(n, settings, script, tried));
  }

  /** The try block fetches the log only for its assertion, what follows only for the dump file: never both. */
  lemma LogOfParts(n: nat, script: AttemptScript, tried: TryOutcome, after: seq<Effect>)
    requires StepsWithin(tried.effects, n, 1, 11)
    requires BrowserLogFetched(n, AssertionInput) in tried.effects <==> tried.logFetched
    requires BrowserLogFetched(n, FailurePrintout) !in tried.effects
    requires forall use, lines :: BrowserLogUsed(n, use, lines) in tried.effects ==>
               lines == script.browserLog && use != DumpFile && tried.logFetched
    requires BrowserLogFetched(n, AssertionInput) !in after
    requires BrowserLogFetched(n, FailurePrintout) !in after
    requires BrowserLogFetched(n, DumpFile) in after ==> !tried.logFetched
    requires forall use, lines :: BrowserLogUsed(n, use, lines) in after ==>
               && use == DumpFile && lines == script.browserLog
               && (tried.logFetched || BrowserLogFetched(n, DumpFile) in after)
    ensures BrowserLogMemoised(tried.effects + after, n, script)
  {
    Outside(tried.effects, n, 1, 11, BrowserLogFetched(n, DumpFile));
  }

  lemma BrowserLogIsMemoised(n: nat, settings: Settings, script: AttemptScript, smtpStart: Option<Result<RunningContext, SmtpError>>)
    requires SmtpStartMatches(settings, smtpStart)
    ensures BrowserLogMemoised(Attempt(n, settings, script, smtpStart).effects, n, script)
  {
    var tried := TryBlock(n, settings, script, smtpStart);
    TryOrdered(n, settings, script, smtpStart);
    TryLog(n, settings, script, smtpStart);
    AfterTryLog(n, settings, script, tried);
    LogOfParts(n, script, tried, AfterTry(n, settings, script, tried));
  }

  /** Nothing in the try block belongs to the failure dump, so the dump facts of what follows carry over. */
  lemma DumpOfParts(n: nat, settings: Settings, script: AttemptScript, tried: TryOutcome, after: seq<Effect>, result: AttemptResult)
    requires StepsWithin(tried.effects, n, 1, 11) && StepsWithin(after, n, 12, 22)
    requires ScopeStarted(n) in tried.effects <==> tried.scopeStarted
    requires DumpDirectoriesCreated(n) in after <==> !result.Completed? && tried.scopeStarted
    requires forall a :: Captured(n, a) in after ==>
               !result.Completed? && tried.scopeStarted && CaptureEnabled(settings, result.error, a)
    requires forall a ::
               (&& !result.Completed? && tried.scopeStarted && CaptureEnabled(settings, result.error, a)
                && (result.Failed? || CaptureOrder(a) < CaptureOrder(result.artifact)))
               ==> Captured(n, a) in after
    requires result.CaptureFailed? ==>
               && tried.scopeStarted
               && script.failingCapture == Some(result.artifact)
               && CaptureEnabled(settings, result.error, result.artifact)
               && Captured(n, result.artifact) !in after
    ensures FailureDumpFaithful(AttemptRecord(result, tried.smtpContext, tried.effects + after), n, settings, script)
  {
    Outside(tried.effects, n, 1, 11, DumpDirectoriesCreated(n));
    Outside(after, n, 12, 22, ScopeStarted(n));
    forall a | true
      ensures Captured(n, a) !in tried.effects
    {
      Outside(tried.effects, n, 1, 11, Captured(n, a));
    }
  }

  lemma FailureDumpIsFaithful(n: nat, settings: Settings, script: AttemptScript, smtpStart: Option<Result<RunningContext, SmtpError>>)
    requires SmtpStartMatches(settings, smtpStart)
    ensures FailureDumpFaithful(Attempt(n, settings, script, smtpStart), n, settings, script)
  {
    var tried := TryBlock(n, settings, script, smtpStart);
    TryOrdered(n, settings, script, smtpStart);
    TrySteps(n, settings, script, smtpStart);
    AfterTryOrdered(n, settings, script, tried);
    AfterTryDump(n, settings, script, tried);
    DumpOfParts(n, settings, script, tried, AfterTry(n, settings, script, tried), AttemptResultOf(settings, script, tried));
  }

  /** Every attempt the loop body can produce keeps the promises of AttemptWellFormed. */
  lemma AttemptIsWellFormed(n: nat, settings: Settings, script: AttemptScript, smtpStart: Option<Result<RunningContext, SmtpError>>)
    requires SmtpStartMatches(settings, smtpStart)
    ensures AttemptWellFormed(Attempt(n, settings, script, smtpStart), n, settings, script)
  {
    AttemptIsOrdered(n, settings, script, smtpStart);
    AttemptRunsAsPromised(n, settings, script, smtpStart);
    TeardownIsBalanced(n, settings, script, smtpStart);
    BrowserLogIsMemoised(n, settings, script, smtpStart);
    FailureDumpIsFaithful(n, settings, script, smtpStart);
  }
}
