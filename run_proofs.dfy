/**
  Properties of a whole ExecuteOrchardCoreTest run (Lombiq.Tests.UI/Services/UITestExecutor.cs):
  how the retry loop ends, what the trace of all attempts together promises, and how the
  BeforeAppStart handlers pile up across retries.
*/
module RunProofs {
  import opened Wrappers
  import opened Smtp
  import opened UITestModel
  import AttemptProofs

  lemma FlattenSnoc(attempts: seq<AttemptRecord>, record: AttemptRecord)
    ensures Flatten(attempts + [record]) == Flatten(attempts) + record.effects
  {
    assert (attempts + [record])[..|attempts|] == attempts;
  }

  lemma AddedHandlersSnoc(attempts: seq<AttemptRecord>, record: AttemptRecord)
    ensures AddedHandlers(attempts + [record])
            == AddedHandlers(attempts) + if record.smtpContext.Some? then [AddSmtpPortArgument(record.smtpContext.value.port)] else []
  {
    assert (attempts + [record])[..|attempts|] == attempts;
  }

  /** The handlers after one more attempt: its SMTP port's handler, if it obtained a context, is appended. */
  lemma HandlersStep(start: seq<AppStartHandler>, attempts: seq<AttemptRecord>, record: AttemptRecord,
                     before: seq<AppStartHandler>, after: seq<AppStartHandler>)
    requires before == start + AddedHandlers(attempts)
    requires after == before + if record.smtpContext.Some? then [AddSmtpPortArgument(record.smtpContext.value.port)] else []
    ensures after == start + AddedHandlers(attempts + [record])
  {
    AddedHandlersSnoc(attempts, record);
  }

  /** An attempt the loop goes on from is retried. */
  lemma RetriedStep(attempts: seq<AttemptRecord>, record: AttemptRecord, maxRetryCount: int)
    ensures (attempts + [record])[..|attempts|] == attempts
    ensures Retried(attempts, maxRetryCount) && Verdict(record.result, |attempts|, maxRetryCount).None?
            ==> Retried(attempts + [record], maxRetryCount)
  {
    assert (attempts + [record])[..|attempts|] == attempts;
  }

  /** The attempt run with the next script extends the scripted attempts. */
  lemma ScriptedStep(
    attempts: seq<AttemptRecord>, smtpStarts: seq<Option<Result<RunningContext, SmtpError>>>, settings: Settings,
    scripts: seq<AttemptScript>, record: AttemptRecord, smtpStart: Option<Result<RunningContext, SmtpError>>)
    requires AttemptsAsScripted(attempts, smtpStarts, settings, scripts) && |attempts| < |scripts|
    requires SmtpStartMatches(settings, smtpStart) && record == Attempt(|attempts|, settings, scripts[|attempts|], smtpStart)
    ensures AttemptsAsScripted(attempts + [record], smtpStarts + [smtpStart], settings, scripts)
  {
    var all, starts := attempts + [record], smtpStarts + [smtpStart];
    assert all[..|attempts|] == attempts;
    assert starts[..|attempts|] == smtpStarts;
    assert all[|attempts|] == record && starts[|attempts|] == smtpStart;
  }

  /** The next attempt's Start, when it ran as its script allows, extends StartsAsScripted. */
  lemma StartsStep(
    smtpStarts: seq<Option<Result<RunningContext, SmtpError>>>, scripts: seq<AttemptScript>,
    smtpStart: Option<Result<RunningContext, SmtpError>>)
    requires |smtpStarts| < |scripts|
    requires StartsAsScripted(smtpStarts, scripts)
    requires smtpStart.Some? ==> StartAsScripted(scripts[|smtpStarts|], smtpStart.value)
    ensures StartsAsScripted(smtpStarts + [smtpStart], scripts)
  {
    var starts := smtpStarts + [smtpStart];
    assert starts[|smtpStarts|] == smtpStart;
  }

  // ---------------------------------------------------------------------------
  // How the retry loop ends
  // ---------------------------------------------------------------------------

  /** Retried means what its name says: the loop went on after every one of the attempts. */
  lemma {:induction false} RetriedEach(attempts: seq<AttemptRecord>, maxRetryCount: int)
    ensures Retried(attempts, maxRetryCount)
            <==> forall i :: 0 <= i < |attempts| ==> Verdict(attempts[i].result, i, maxRetryCount).None?
    decreases |attempts|
  {
    if attempts != [] {
      var k := |attempts| - 1;
      RetriedEach(attempts[..k], maxRetryCount);
      assert forall i :: 0 <= i < k ==> attempts[..k][i] == attempts[i];
    }
  }

  /** Every attempt the loop went on from failed, and none of them had retry count MaxRetryCount. */
  lemma RetriedFailed(attempts: seq<AttemptRecord>, maxRetryCount: int, n: nat)
    requires n <= |attempts| && Retried(attempts[..n], maxRetryCount)
    ensures forall i :: 0 <= i < n ==> attempts[i].result.Failed?
    ensures !(0 <= maxRetryCount < n)
  {
    var front := attempts[..n];
    RetriedEach(front, maxRetryCount);
    forall i | 0 <= i < n
      ensures attempts[i].result.Failed?
    {
      assert front[i] == attempts[i];
      assert Verdict(front[i].result, i, maxRetryCount).None?;
    }
    if 0 <= maxRetryCount < n {
      assert Verdict(front[maxRetryCount].result, maxRetryCount, maxRetryCount).None?;
    }
  }

  /** Where the retry loop stops, its attempts and the last verdict make up a finished run. */
  lemma LoopExit(attempts: seq<AttemptRecord>, maxRetryCount: int, scriptCount: nat, verdict: Option<TestOutcome>)
    requires |attempts| <= scriptCount
    requires verdict.None? ==> |attempts| == scriptCount && Retried(attempts, maxRetryCount)
    requires verdict.Some? ==>
               && attempts != []
               && Retried(attempts[..|attempts| - 1], maxRetryCount)
               && Verdict(attempts[|attempts| - 1].result, |attempts| - 1, maxRetryCount) == verdict
    ensures var outcome := if verdict.Some? then verdict.value else ScriptExhausted;
            && RetryLoop(attempts, maxRetryCount, scriptCount, outcome)
            && !outcome.TestNameMissing? && !outcome.OrchardCoreConfigurationMissing?
  {
  }

  /**
    Every attempt but the deciding last one failed, and none of them had retry count MaxRetryCount;
    when the scripts ran out, the same holds for every attempt.
  */
  lemma RetryLoopRetried(attempts: seq<AttemptRecord>, maxRetryCount: int, scriptCount: nat, outcome: TestOutcome)
    requires RetryLoop(attempts, maxRetryCount, scriptCount, outcome)
    ensures forall i :: 0 <= i < |attempts| - 1 ==> attempts[i].result.Failed?
    ensures !(0 <= maxRetryCount < |attempts| - 1)
    ensures outcome == ScriptExhausted ==>
              && |attempts| == scriptCount
              && (forall i :: 0 <= i < |attempts| ==> attempts[i].result.Failed?)
              && !(0 <= maxRetryCount < |attempts|)
  {
    if outcome == ScriptExhausted {
      assert attempts[..|attempts|] == attempts;
      RetriedFailed(attempts, maxRetryCount, |attempts|);
    } else {
      RetriedFailed(attempts, maxRetryCount, |attempts| - 1);
    }
  }

  /**
    How a run of the loop ended, read off its last attempt: the test passed exactly when it
    completed, the capture step's exception escaped exactly when its dump threw, and the error
    was rethrown exactly when it failed with retry count MaxRetryCount.
  */
  lemma RetryLoopEnds(attempts: seq<AttemptRecord>, maxRetryCount: int, scriptCount: nat, outcome: TestOutcome)
    requires RetryLoop(attempts, maxRetryCount, scriptCount, outcome)
    ensures outcome == Passed <==> attempts != [] && attempts[|attempts| - 1].result.Completed?
    ensures outcome.CaptureThrew? <==> attempts != [] && attempts[|attempts| - 1].result.CaptureFailed?
    ensures outcome.CaptureThrew? ==> outcome.artifact == attempts[|attempts| - 1].result.artifact
    ensures outcome.Rethrown? <==>
              attempts != [] && attempts[|attempts| - 1].result.Failed? && |attempts| - 1 == maxRetryCount
    ensures outcome.Rethrown? ==> outcome.error == attempts[|attempts| - 1].result.error
    ensures !outcome.TestNameMissing? && !outcome.OrchardCoreConfigurationMissing?
  {
    if outcome == ScriptExhausted {
      assert attempts[..|attempts|] == attempts;
      RetriedFailed(attempts, maxRetryCount, |attempts|);
      if attempts != [] {
        assert attempts[|attempts| - 1].result.Failed? && |attempts| - 1 != maxRetryCount;
      }
    }
  }

  /** With a budget of m >= 0, at most m attempts can be retried: the one with retry count m never is. */
  lemma {:induction false} RetriedWithinBudget(attempts: seq<AttemptRecord>, maxRetryCount: int)
    requires Retried(attempts, maxRetryCount) && 0 <= maxRetryCount
    ensures |attempts| <= maxRetryCount
    decreases |attempts|
  {
    if attempts != [] {
      RetriedWithinBudget(attempts[..|attempts| - 1], maxRetryCount);
    }
  }

  /**
    MaxRetryCount bounds the attempts: with a budget of m >= 0 there are at most m + 1 of them,
    and a rethrow happens on attempt m + 1 exactly; a negative budget never rethrows.
  */
  lemma AttemptsBounded(attempts: seq<AttemptRecord>, maxRetryCount: int, scriptCount: nat, outcome: TestOutcome)
    requires RetryLoop(attempts, maxRetryCount, scriptCount, outcome)
    ensures 0 <= maxRetryCount ==> |attempts| <= maxRetryCount + 1
    ensures outcome.Rethrown? ==> 0 <= maxRetryCount && |attempts| == maxRetryCount + 1
    ensures maxRetryCount < 0 ==> !outcome.Rethrown?
  {
    if 0 <= maxRetryCount {
      if outcome == ScriptExhausted {
        RetriedWithinBudget(attempts, maxRetryCount);
      } else {
        RetriedWithinBudget(attempts[..|attempts| - 1], maxRetryCount);
      }
    }
  }

  /** Which outcome a run had is determined by its attempts. */
  lemma RetryLoopDeterministic(attempts: seq<AttemptRecord>, maxRetryCount: int, scriptCount: nat, outcome: TestOutcome, outcome': TestOutcome)
    requires RetryLoop(attempts, maxRetryCount, scriptCount, outcome)
    requires RetryLoop(attempts, maxRetryCount, scriptCount, outcome')
    ensures outcome == outcome'
  {
    if outcome == ScriptExhausted || outcome' == ScriptExhausted {
      RetriedEach(attempts, maxRetryCount);
    }
  }

  // ---------------------------------------------------------------------------
  // The attempts of a run
  // ---------------------------------------------------------------------------

  /** Every prefix of a scripted run is itself a scripted run: later attempts never rewrite earlier ones. */
  lemma {:induction false} ScriptedPrefix(
    attempts: seq<AttemptRecord>, smtpStarts: seq<Option<Result<RunningContext, SmtpError>>>, settings: Settings,
    scripts: seq<AttemptScript>, n: nat)
    requires AttemptsAsScripted(attempts, smtpStarts, settings, scripts) && n <= |attempts|
    ensures AttemptsAsScripted(attempts[..n], smtpStarts[..n], settings, scripts)
    decreases |attempts|
  {
    if n < |attempts| {
      var k := |attempts| - 1;
      assert attempts[..k][..n] == attempts[..n] && smtpStarts[..k][..n] == smtpStarts[..n];
      ScriptedPrefix(attempts[..k], smtpStarts[..k], settings, scripts, n);
    } else {
      assert attempts[..n] == attempts && smtpStarts[..n] == smtpStarts;
    }
  }

  /** Attempt `i` of a run is the one its script and its SMTP start describe. */
  lemma ScriptedAt(
    attempts: seq<AttemptRecord>, smtpStarts: seq<Option<Result<RunningContext, SmtpError>>>, settings: Settings,
    scripts: seq<AttemptScript>, i: nat)
    requires AttemptsAsScripted(attempts, smtpStarts, settings, scripts) && i < |attempts|
    ensures |smtpStarts| == |attempts| <= |scripts|
    ensures SmtpStartMatches(settings, smtpStarts[i]) && attempts[i] == Attempt(i, settings, scripts[i], smtpStarts[i])
  {
    ScriptedPrefix(attempts, smtpStarts, settings, scripts, i + 1);
    ScriptedLast(attempts[..i + 1], smtpStarts[..i + 1], settings, scripts);
    assert attempts[..i + 1][i] == attempts[i] && smtpStarts[..i + 1][i] == smtpStarts[i];
  }

  /** The last attempt of a scripted run is the one its script and its SMTP start describe. */
  lemma ScriptedLast(
    attempts: seq<AttemptRecord>, smtpStarts: seq<Option<Result<RunningContext, SmtpError>>>, settings: Settings,
    scripts: seq<AttemptScript>)
    requires AttemptsAsScripted(attempts, smtpStarts, settings, scripts) && attempts != []
    ensures |smtpStarts| == |attempts| <= |scripts|
    ensures var k := |attempts| - 1;
            SmtpStartMatches(settings, smtpStarts[k]) && attempts[k] == Attempt(k, settings, scripts[k], smtpStarts[k])
  {
  }

  /** All attempts of a run are the ones their scripts and SMTP starts describe. */
  lemma ScriptedEach(
    attempts: seq<AttemptRecord>, smtpStarts: seq<Option<Result<RunningContext, SmtpError>>>, settings: Settings,
    scripts: seq<AttemptScript>)
    requires AttemptsAsScripted(attempts, smtpStarts, settings, scripts)
    ensures |smtpStarts| == |attempts| <= |scripts|
    ensures forall i :: 0 <= i < |attempts| ==>
              SmtpStartMatches(settings, smtpStarts[i]) && attempts[i] == Attempt(i, settings, scripts[i], smtpStarts[i])
  {
    forall i | 0 <= i < |attempts|
      ensures SmtpStartMatches(settings, smtpStarts[i]) && attempts[i] == Attempt(i, settings, scripts[i], smtpStarts[i])
    {
      ScriptedAt(attempts, smtpStarts, settings, scripts, i);
    }
  }

  /** Every attempt of a run keeps the promises of AttemptWellFormed. */
  lemma EachAttemptWellFormed(
    attempts: seq<AttemptRecord>, smtpStarts: seq<Option<Result<RunningContext, SmtpError>>>, settings: Settings,
    scripts: seq<AttemptScript>)
    requires AttemptsAsScripted(attempts, smtpStarts, settings, scripts)
    ensures |attempts| <= |scripts|
    ensures forall i :: 0 <= i < |attempts| ==> AttemptWellFormed(attempts[i], i, settings, scripts[i])
  {
    forall i | 0 <= i < |attempts|
      ensures AttemptWellFormed(attempts[i], i, settings, scripts[i])
    {
      ScriptedAt(attempts, smtpStarts, settings, scripts, i);
      AttemptProofs.AttemptIsWellFormed(i, settings, scripts[i], smtpStarts[i]);
    }
  }

  // ---------------------------------------------------------------------------
  // The trace of a whole run
  // ---------------------------------------------------------------------------

  /** Steps in source order are ordered pairwise, not just neighbour by neighbour. */
  lemma {:induction false} InSourceOrderPairwise(t: seq<Effect>)
    requires InSourceOrder(t)
    ensures forall p, q :: 0 <= p < q < |t| ==> StepIndex(t[p]) < StepIndex(t[q])
    decreases |t|
  {
    if t != [] {
      var front := t[..|t| - 1];
      assert forall i :: 0 <= i < |front| ==> front[i] == t[i];
      InSourceOrderPairwise(front);
      forall p, q | 0 <= p < q < |t|
        ensures StepIndex(t[p]) < StepIndex(t[q])
      {
        if q < |t| - 1 {
          assert t[p] == front[p] && t[q] == front[q];
        } else if p < q - 1 {
          assert t[p] == front[p] && t[q - 1] == front[q - 1];
        }
      }
    }
  }

  /** One attempt on its own is in run order. */
  lemma AttemptInRunOrder(t: seq<Effect>, n: nat)
    requires AttemptOrdered(t, n)
    ensures InRunOrder(t)
    ensures forall e :: e in t ==> IsAttemptStep(e) && e.attempt == n
  {
    InSourceOrderPairwise(t);
  }

  /** Two runs in order, every step of the first before every step of the second, make one. */
  lemma ConcatInRunOrder(a: seq<Effect>, b: seq<Effect>)
    requires InRunOrder(a) && InRunOrder(b)
    requires forall x, y :: x in a && y in b ==> RunsBefore(x, y)
    ensures InRunOrder(a + b)
  {
    forall p, q | 0 <= p < q < |a + b|
      ensures RunsBefore((a + b)[p], (a + b)[q])
    {
      if q < |a| {
        assert (a + b)[p] == a[p] && (a + b)[q] == a[q];
      } else if p < |a| {
        assert (a + b)[p] == a[p] && (a + b)[q] == b[q - |a|];
        assert a[p] in a && b[q - |a|] in b;
      } else {
        assert (a + b)[p] == b[p - |a|] && (a + b)[q] == b[q - |a|];
      }
    }
  }

  /** The attempts' steps, one attempt after the other, are in run order and tagged with their attempt. */
  lemma {:induction false} FlattenInRunOrder(attempts: seq<AttemptRecord>)
    requires forall i :: 0 <= i < |attempts| ==> AttemptOrdered(attempts[i].effects, i)
    ensures InRunOrder(Flatten(attempts))
    ensures forall e :: e in Flatten(attempts) ==> IsAttemptStep(e) && e.attempt < |attempts|
    decreases |attempts|
  {
    if attempts != [] {
      var k := |attempts| - 1;
      var front, last := attempts[..k], attempts[k];
      assert forall i :: 0 <= i < k ==> front[i] == attempts[i];
      FlattenInRunOrder(front);
      AttemptInRunOrder(last.effects, k);
      ConcatInRunOrder(Flatten(front), last.effects);
    }
  }

  /** A step of attempt `k` shows up in the steps of all attempts exactly when attempt `k` took it. */
  lemma {:induction false} FlattenStepsOf(attempts: seq<AttemptRecord>, k: nat)
    requires forall i :: 0 <= i < |attempts| ==> AttemptOrdered(attempts[i].effects, i)
    requires k < |attempts|
    ensures forall e :: BelongsTo(e, k) ==> (e in Flatten(attempts) <==> e in attempts[k].effects)
    decreases |attempts|
  {
    var last := |attempts| - 1;
    var front := attempts[..last];
    assert forall i :: 0 <= i < last ==> front[i] == attempts[i];
    AttemptInRunOrder(attempts[last].effects, last);
    if k == last {
      FlattenInRunOrder(front);
    } else {
      FlattenStepsOf(front, k);
    }
  }

  /**
    The order of a whole run: the prelude, then attempt after attempt, each attempt's steps in
    the order of the loop body. So every attempt is torn down before the next one starts, and no
    step is taken twice.
  */
  lemma RunInOrder(
    testName: string, settings: Settings, attempts: seq<AttemptRecord>,
    smtpStarts: seq<Option<Result<RunningContext, SmtpError>>>, scripts: seq<AttemptScript>)
    requires AttemptsAsScripted(attempts, smtpStarts, settings, scripts)
    ensures InRunOrder(Prelude(testName, settings) + Flatten(attempts))
  {
    EachAttemptOrdered(attempts, smtpStarts, settings, scripts);
    FlattenInRunOrder(attempts);
    ConcatInRunOrder(Prelude(testName, settings), Flatten(attempts));
  }

  lemma EachAttemptOrdered(
    attempts: seq<AttemptRecord>, smtpStarts: seq<Option<Result<RunningContext, SmtpError>>>, settings: Settings,
    scripts: seq<AttemptScript>)
    requires AttemptsAsScripted(attempts, smtpStarts, settings, scripts)
    ensures forall i :: 0 <= i < |attempts| ==> AttemptOrdered(attempts[i].effects, i)
  {
    EachAttemptWellFormed(attempts, smtpStarts, settings, scripts);
  }

  /** The promises of attempt `k` carry over to a trace holding exactly its steps among those of attempt `k`. */
  lemma PromisesCarryOver(t: seq<Effect>, u: seq<Effect>, k: nat, settings: Settings, script: AttemptScript)
    requires forall e :: BelongsTo(e, k) ==> (e in t <==> e in u)
    requires TeardownBalanced(u, k, settings) && BrowserLogMemoised(u, k, script)
    ensures TeardownBalanced(t, k, settings) && BrowserLogMemoised(t, k, script)
  {
    assert forall use, lines :: BelongsTo(BrowserLogUsed(k, use, lines), k);
  }

  /** Attempt `k`'s steps in a whole run are exactly those the attempt took. */
  lemma RunStepsOf(
    testName: string, settings: Settings, attempts: seq<AttemptRecord>,
    smtpStarts: seq<Option<Result<RunningContext, SmtpError>>>, scripts: seq<AttemptScript>, k: nat)
    requires AttemptsAsScripted(attempts, smtpStarts, settings, scripts) && k < |attempts|
    ensures forall e :: BelongsTo(e, k) ==>
              (e in Prelude(testName, settings) + Flatten(attempts) <==> e in attempts[k].effects)
  {
    EachAttemptOrdered(attempts, smtpStarts, settings, scripts);
    FlattenStepsOf(attempts, k);
  }

  /**
    Each attempt keeps its promises within the whole run: its resources are disposed exactly
    when they were created, and its own browser log cache, started afresh in every pass of the
    loop, is fetched at most once with every use seeing the same lines.
  */
  lemma RunKeepsAttemptPromises(
    testName: string, settings: Settings, attempts: seq<AttemptRecord>,
    smtpStarts: seq<Option<Result<RunningContext, SmtpError>>>, scripts: seq<AttemptScript>)
    requires AttemptsAsScripted(attempts, smtpStarts, settings, scripts)
    ensures |attempts| <= |scripts|
    ensures forall k :: 0 <= k < |attempts| ==>
              && TeardownBalanced(Prelude(testName, settings) + Flatten(attempts), k, settings)
              && BrowserLogMemoised(Prelude(testName, settings) + Flatten(attempts), k, scripts[k])
  {
    var t := Prelude(testName, settings) + Flatten(attempts);
    EachAttemptWellFormed(attempts, smtpStarts, settings, scripts);
    forall k | 0 <= k < |attempts|
      ensures TeardownBalanced(t, k, settings) && BrowserLogMemoised(t, k, scripts[k])
    {
      RunStepsOf(testName, settings, attempts, smtpStarts, scripts, k);
      PromisesCarryOver(t, attempts[k].effects, k, settings, scripts[k]);
    }
  }

  /** A trace in run order takes no step twice. */
  lemma {:induction false} NoStepTwice(t: seq<Effect>)
    requires InRunOrder(t)
    ensures forall e :: Count(t, e) <= 1
    decreases |t|
  {
    if t != [] {
      var front, last := t[..|t| - 1], t[|t| - 1];
      assert t == front + [last];
      assert forall i :: 0 <= i < |front| ==> front[i] == t[i];
      NoStepTwice(front);
      assert last !in front by {
        forall i | 0 <= i < |front|
          ensures front[i] != last
        {
          assert RunsBefore(t[i], t[|t| - 1]);
        }
      }
      assert multiset(t) == multiset(front) + multiset{last};
      forall e
        ensures Count(t, e) <= 1
      {
        assert Count(t, e) == Count(front, e) + if e == last then 1 else 0;
      }
    }
  }

  /** Every attempt of a run starts creating its context. */
  lemma EachAttemptCreatesContext(
    attempts: seq<AttemptRecord>, smtpStarts: seq<Option<Result<RunningContext, SmtpError>>>, settings: Settings,
    scripts: seq<AttemptScript>)
    requires AttemptsAsScripted(attempts, smtpStarts, settings, scripts)
    ensures forall k :: 0 <= k < |attempts| ==> ContextCreationStarted(k) in attempts[k].effects
  {
    EachAttemptWellFormed(attempts, smtpStarts, settings, scripts);
  }

  /** CreateContext starts exactly once in every attempt of a run. */
  lemma CreateContextOncePerAttempt(
    testName: string, settings: Settings, attempts: seq<AttemptRecord>,
    smtpStarts: seq<Option<Result<RunningContext, SmtpError>>>, scripts: seq<AttemptScript>)
    requires AttemptsAsScripted(attempts, smtpStarts, settings, scripts)
    ensures forall k :: 0 <= k < |attempts| ==>
              Count(Prelude(testName, settings) + Flatten(attempts), ContextCreationStarted(k)) == 1
  {
    forall k | 0 <= k < |attempts|
      ensures Count(Prelude(testName, settings) + Flatten(attempts), ContextCreationStarted(k)) == 1
    {
      CreateContextOnceIn(testName, settings, attempts, smtpStarts, scripts, k);
    }
  }

  /** CreateContext starts exactly once in attempt `k` of a run. */
  lemma CreateContextOnceIn(
    testName: string, settings: Settings, attempts: seq<AttemptRecord>,
    smtpStarts: seq<Option<Result<RunningContext, SmtpError>>>, scripts: seq<AttemptScript>, k: nat)
    requires AttemptsAsScripted(attempts, smtpStarts, settings, scripts) && k < |attempts|
    ensures Count(Prelude(testName, settings) + Flatten(attempts), ContextCreationStarted(k)) == 1
  {
    var t := Prelude(testName, settings) + Flatten(attempts);
    CreateContextInRun(testName, settings, attempts, smtpStarts, scripts, k);
    assert ContextCreationStarted(k) in multiset(t);
    RunStepsOnce(testName, settings, attempts, smtpStarts, scripts);
  }

  lemma CreateContextInRun(
    testName: string, settings: Settings, attempts: seq<AttemptRecord>,
    smtpStarts: seq<Option<Result<RunningContext, SmtpError>>>, scripts: seq<AttemptScript>, k: nat)
    requires AttemptsAsScripted(attempts, smtpStarts, settings, scripts) && k < |attempts|
    ensures ContextCreationStarted(k) in Prelude(testName, settings) + Flatten(attempts)
  {
    EachAttemptCreatesContext(attempts, smtpStarts, settings, scripts);
    RunStepsOf(testName, settings, attempts, smtpStarts, scripts, k);
  }

  /** No step happens twice in a run. */
  lemma RunStepsOnce(
    testName: string, settings: Settings, attempts: seq<AttemptRecord>,
    smtpStarts: seq<Option<Result<RunningContext, SmtpError>>>, scripts: seq<AttemptScript>)
    requires AttemptsAsScripted(attempts, smtpStarts, settings, scripts)
    ensures forall e :: Count(Prelude(testName, settings) + Flatten(attempts), e) <= 1
  {
    RunInOrder(testName, settings, attempts, smtpStarts, scripts);
    NoStepTwice(Prelude(testName, settings) + Flatten(attempts));
  }

  // ---------------------------------------------------------------------------
  // BeforeAppStart across retries
  // ---------------------------------------------------------------------------

  /** The handlers pile up: an attempt that obtained an SMTP context adds one, and none is ever removed. */
  lemma {:induction false} HandlersAccumulate(attempts: seq<AttemptRecord>)
    requires forall i :: 0 <= i < |attempts| ==> attempts[i].smtpContext.Some?
    ensures |AddedHandlers(attempts)| == |attempts|
    ensures forall i :: 0 <= i < |attempts| ==>
              AddedHandlers(attempts)[i] == AddSmtpPortArgument(attempts[i].smtpContext.value.port)
    decreases |attempts|
  {
    if attempts != [] {
      var k := |attempts| - 1;
      assert forall i :: 0 <= i < k ==> attempts[..k][i] == attempts[i];
      HandlersAccumulate(attempts[..k]);
    }
  }

  lemma {:induction false} NoContextsNoHandlers(attempts: seq<AttemptRecord>)
    requires forall i :: 0 <= i < |attempts| ==> attempts[i].smtpContext.None?
    ensures AddedHandlers(attempts) == []
    decreases |attempts|
  {
    if attempts != [] {
      var k := |attempts| - 1;
      assert forall i :: 0 <= i < k ==> attempts[..k][i] == attempts[i];
      NoContextsNoHandlers(attempts[..k]);
    }
  }

  /** Without UseSmtpService no run adds a handler. */
  lemma NoSmtpNoHandlers(
    attempts: seq<AttemptRecord>, smtpStarts: seq<Option<Result<RunningContext, SmtpError>>>, settings: Settings,
    scripts: seq<AttemptScript>)
    requires AttemptsAsScripted(attempts, smtpStarts, settings, scripts) && !settings.useSmtpService
    ensures AddedHandlers(attempts) == []
  {
    EachAttemptWellFormed(attempts, smtpStarts, settings, scripts);
    NoContextsNoHandlers(attempts);
  }

  // ---------------------------------------------------------------------------
  // How Start's failures end an attempt
  // ---------------------------------------------------------------------------

  /** A Start that threw ends the attempt with that exception, before any context or dump. */
  lemma StartFailureEndsAttempt(n: nat, settings: Settings, script: AttemptScript, smtpStart: Option<Result<RunningContext, SmtpError>>)
    requires SmtpStartMatches(settings, smtpStart) && smtpStart.Some? && smtpStart.value.Failure?
    ensures Attempt(n, settings, script, smtpStart).result == Failed(SmtpStartFailed(smtpStart.value.error))
    ensures Attempt(n, settings, script, smtpStart).smtpContext.None?
  {
    var tried := TryBlock(n, settings, script, smtpStart);
    assert tried == Creation(n, settings, script, smtpStart);
    assert tried.error == Some(SmtpStartFailed(smtpStart.value.error)) && !tried.scopeStarted;
  }

  /**
    In a run with the SMTP service, an attempt whose tool manifest is unreadable or has no
    smtp4dev entry fails with that exception, and an attempt obtains an SMTP context only after
    smtp4dev printed its readiness line.
  */
  lemma StartAsScriptedInRun(
    attempts: seq<AttemptRecord>, smtpStarts: seq<Option<Result<RunningContext, SmtpError>>>, settings: Settings,
    scripts: seq<AttemptScript>, k: nat)
    requires AttemptsAsScripted(attempts, smtpStarts, settings, scripts) && StartsAsScripted(smtpStarts, scripts)
    requires settings.useSmtpService && k < |attempts|
    ensures scripts[k].manifest.ManifestUnreadable? ==> attempts[k].result == Failed(SmtpStartFailed(ManifestNotReadable))
    ensures scripts[k].manifest == Manifest(false) ==> attempts[k].result == Failed(SmtpStartFailed(NoSmtp4devConfiguration))
    ensures attempts[k].smtpContext.Some? ==>
              exists i :: 0 <= i < |scripts[k].smtpEvents| && IsReadinessEvent(scripts[k].smtpEvents[i])
  {
    ScriptedAt(attempts, smtpStarts, settings, scripts, k);
    var start := smtpStarts[k];
    assert StartAsScripted(scripts[k], start.value);
    if start.value.Failure? {
      StartFailureEndsAttempt(k, settings, scripts[k], start);
    } else {
      assert !scripts[k].manifest.ManifestUnreadable? && scripts[k].manifest != Manifest(false);
    }
  }
}
