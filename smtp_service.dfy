/**
  The smtp4dev helper process (Services/SmtpService.cs): two process-wide port lease
  managers, a process-wide "tool restore already ran" flag, and per-instance ports and a
  cancellation token source. Process launch, the restore command and the JSON manifest
  are inputs: the manifest as read, the restore exit code and the stream of command events.
*/
module Smtp {
  import opened Wrappers
  import opened Strings
  import opened PortLeasing

  /** A closed-open port interval `[lower, upper)` handed to a PortLeaseManager. */
  datatype Bounds = Bounds(lower: int, upper: int)

  /** Bounds of the SMTP port manager for an agent index, in 32-bit arithmetic. */
  function SmtpPortBounds(agentIndex: int): (b: Bounds)
    requires IsInt32(agentIndex)
    ensures IsInt32(b.lower) && IsInt32(b.upper)
  {
    var offset := Wrap32(agentIndex * 100);
    Bounds(Wrap32(7000 + offset), Wrap32(8099 + offset))
  }

  /** Bounds of the web UI port manager for an agent index, in 32-bit arithmetic. */
  function WebUIPortBounds(agentIndex: int): (b: Bounds)
    requires IsInt32(agentIndex)
    ensures IsInt32(b.lower) && IsInt32(b.upper)
  {
    var offset := Wrap32(agentIndex * 100);
    Bounds(Wrap32(8000 + offset), Wrap32(8099 + offset))
  }

  /**
    Without overflow, agent `a` gets SMTP ports `[7000 + 100a, 8099 + 100a)` (1099 ports) and
    web UI ports `[8000 + 100a, 8099 + 100a)` (99 ports). Every web UI candidate is also an
    SMTP candidate: the two managers are independent, so one number can be leased by both.
  */
  lemma AgentPortRanges(agentIndex: int)
    requires IsInt32(agentIndex)
    requires Int32Min <= 100 * agentIndex && 100 * agentIndex + 8099 <= Int32Max
    ensures SmtpPortBounds(agentIndex) == Bounds(7000 + 100 * agentIndex, 8099 + 100 * agentIndex)
    ensures WebUIPortBounds(agentIndex) == Bounds(8000 + 100 * agentIndex, 8099 + 100 * agentIndex)
    ensures CandidatePorts(7000 + 100 * agentIndex, 8099 + 100 * agentIndex).Success?
    ensures CandidatePorts(8000 + 100 * agentIndex, 8099 + 100 * agentIndex).Success?
    ensures |CandidatePorts(7000 + 100 * agentIndex, 8099 + 100 * agentIndex).value| == 1099
    ensures |CandidatePorts(8000 + 100 * agentIndex, 8099 + 100 * agentIndex).value| == 99
    ensures var smtp := CandidatePorts(7000 + 100 * agentIndex, 8099 + 100 * agentIndex).value;
            var webUI := CandidatePorts(8000 + 100 * agentIndex, 8099 + 100 * agentIndex).value;
            forall p :: p in webUI ==> p in smtp
  {
    var base := 100 * agentIndex;
    CandidatePortsExact(7000 + base, 8099 + base);
    CandidatePortsExact(8000 + base, 8099 + base);
  }

  /** The CliWrap command events the readiness scan looks at. */
  datatype CommandEvent =
    | StartedCommandEvent(processId: int)
    | StandardOutputCommandEvent(text: string)
    | StandardErrorCommandEvent(text: string)
    | ExitedCommandEvent(exitCode: int)

  const ReadinessMarker := "Application started. Press Ctrl+C to shut down."

  /** A standard-output line that contains the readiness marker. */
  predicate IsReadinessEvent(e: CommandEvent)
  {
    e.StandardOutputCommandEvent? && Contains(e.text, ReadinessMarker)
  }

  /**
    The `while (await enumerator.MoveNextAsync())` loop of Start: consumes events up to and
    including the first readiness event, or all of them when there is none.
  */
  method ScanForReadiness(events: seq<CommandEvent>) returns (ready: bool, consumed: nat)
    ensures consumed <= |events|
    ensures ready <==> exists i :: 0 <= i < |events| && IsReadinessEvent(events[i])
    ensures ready ==> 0 < consumed && IsReadinessEvent(events[consumed - 1])
    ensures !ready ==> consumed == |events|
    ensures forall i :: 0 <= i < consumed - 1 ==> !IsReadinessEvent(events[i])
  {
    consumed := 0;
    while consumed < |events|
      invariant consumed <= |events|
      invariant forall i :: 0 <= i < consumed ==> !IsReadinessEvent(events[i])
    {
      var current := events[consumed];
      consumed := consumed + 1;
      if IsReadinessEvent(current) {
        return true, consumed;
      }
    }
    return false, consumed;
  }

  /** The dotnet local tool manifest as read and parsed at Start. */
  datatype ToolManifest =
    | ManifestUnreadable                  // the read or the JSON parse throws
    | Manifest(hasSmtp4devEntry: bool)    // whether tools["rnwood.smtp4dev"] is present

  /** The exceptions Start can throw. */
  datatype SmtpError =
    | ManifestNotReadable
    | NoSmtp4devConfiguration
    | SmtpPortLeaseFailed
    | WebUIPortLeaseFailed
    | RestoreFailed(exitCode: int)
    | DidNotStartProperly

  /** `_cancellationTokenSource`: null, or a source and whether cancellation was requested. */
  datatype TokenSource = NoTokenSource | TokenSource(cancellationRequested: bool)

  /** `new Uri(scheme + "://" + host + ":" + port)`; URI text formatting is not modelled. */
  datatype Uri = Uri(scheme: string, host: string, port: int)

  /** SmtpServiceRunningContext. */
  datatype RunningContext = RunningContext(port: int, webUIUri: Uri)

  /** Externally visible steps taken by one SmtpService. */
  datatype ProcessEffect =
    | RestoreRun(exitCode: int)
    | Launched(smtpPort: int, webUIUri: Uri)
    | EnumeratorDisposed
    | CancellationRequested

  /** Start got past the SMTP port lease. */
  predicate LeasedSmtpPort(r: Result<RunningContext, SmtpError>)
  {
    !(r.Failure? && r.error in {ManifestNotReadable, NoSmtp4devConfiguration, SmtpPortLeaseFailed})
  }

  /** Start got past the web UI port lease. */
  predicate LeasedWebUIPort(r: Result<RunningContext, SmtpError>)
  {
    LeasedSmtpPort(r) && r != Failure(WebUIPortLeaseFailed)
  }

  /** Start got past the restore step and launched smtp4dev. */
  predicate LaunchedProcess(r: Result<RunningContext, SmtpError>)
  {
    LeasedWebUIPort(r) && !(r.Failure? && r.error.RestoreFailed?)
  }

  /** The static fields of SmtpService, shared by every instance of the process. */
  class SmtpStatics {
    const smtpPortLeaseManager: PortLeaseManager
    const webUIPortLeaseManager: PortLeaseManager
    var wasRestored: bool

    ghost predicate Valid()
      reads this, smtpPortLeaseManager, webUIPortLeaseManager
    {
      && smtpPortLeaseManager != webUIPortLeaseManager
      && smtpPortLeaseManager.Valid()
      && webUIPortLeaseManager.Valid()
    }

    constructor (smtpPortLeaseManager: PortLeaseManager, webUIPortLeaseManager: PortLeaseManager)
      requires smtpPortLeaseManager != webUIPortLeaseManager
      requires smtpPortLeaseManager.Valid() && webUIPortLeaseManager.Valid()
      ensures Valid() && !wasRestored
      ensures this.smtpPortLeaseManager == smtpPortLeaseManager
      ensures this.webUIPortLeaseManager == webUIPortLeaseManager
    {
      this.smtpPortLeaseManager := smtpPortLeaseManager;
      this.webUIPortLeaseManager := webUIPortLeaseManager;
      wasRestored := false;
    }

    /**
      The static constructor: both managers for the agent index, nothing leased, not restored.
      A range Enumerable.Range refuses makes the type initializer fail (None).
    */
    static method Initialize(agentIndex: int) returns (r: Option<SmtpStatics>)
      requires IsInt32(agentIndex)
      ensures r.Some? <==> CandidatePorts(SmtpPortBounds(agentIndex).lower, SmtpPortBounds(agentIndex).upper).Success?
                           && CandidatePorts(WebUIPortBounds(agentIndex).lower, WebUIPortBounds(agentIndex).upper).Success?
      ensures r.Some? ==> fresh(r.value) && fresh(r.value.smtpPortLeaseManager) && fresh(r.value.webUIPortLeaseManager)
      ensures r.Some? ==> r.value.Valid() && !r.value.wasRestored
      ensures r.Some? ==> r.value.smtpPortLeaseManager.usedPorts == {} && r.value.webUIPortLeaseManager.usedPorts == {}
      ensures r.Some? ==> Bounds(r.value.smtpPortLeaseManager.lowerBound, r.value.smtpPortLeaseManager.upperBound) == SmtpPortBounds(agentIndex)
      ensures r.Some? ==> Bounds(r.value.webUIPortLeaseManager.lowerBound, r.value.webUIPortLeaseManager.upperBound) == WebUIPortBounds(agentIndex)
    {
      var smtpBounds := SmtpPortBounds(agentIndex);
      var webUIBounds := WebUIPortBounds(agentIndex);
      var smtp := PortLeaseManager.Create(smtpBounds.lower, smtpBounds.upper);
      if smtp.Failure? {
        return None;
      }
      var webUI := PortLeaseManager.Create(webUIBounds.lower, webUIBounds.upper);
      if webUI.Failure? {
        return None;
      }
      var statics := new SmtpStatics(smtp.value, webUI.value);
      return Some(statics);
    }
  }

  /** One smtp4dev helper: the ports it leased and its cancellation token source. */
  class SmtpService {
    var smtpPort: int
    var webUIPort: int
    var tokenSource: TokenSource
    var log: seq<ProcessEffect>

    constructor ()
      ensures smtpPort == 0 && webUIPort == 0
      ensures tokenSource == NoTokenSource && log == []
    {
      smtpPort, webUIPort := 0, 0;
      tokenSource := NoTokenSource;
      log := [];
    }

    /**
      Start: check the tool manifest, lease an SMTP and a web UI port, run `dotnet tool restore`
      unless an earlier Start succeeded in doing so, launch smtp4dev and wait for the readiness
      line. Ports leased before a failure stay leased until DisposeAsync.
    */
    method Start(statics: SmtpStatics, manifest: ToolManifest, restoreExitCode: int, events: seq<CommandEvent>)
      returns (r: Result<RunningContext, SmtpError>)
      requires statics.Valid()
      modifies this, statics, statics.smtpPortLeaseManager, statics.webUIPortLeaseManager
      ensures statics.Valid()
      // the manifest is checked before anything is leased
      ensures r == Failure(ManifestNotReadable) <==> manifest.ManifestUnreadable?
      ensures r == Failure(NoSmtp4devConfiguration) <==> manifest == Manifest(false)
      // the SMTP port
      ensures r == Failure(SmtpPortLeaseFailed) <==>
                manifest == Manifest(true)
                && forall p :: p in statics.smtpPortLeaseManager.availablePortsRange ==> p in old(statics.smtpPortLeaseManager.usedPorts)
      ensures LeasedSmtpPort(r) ==>
                && smtpPort in statics.smtpPortLeaseManager.availablePortsRange
                && smtpPort !in old(statics.smtpPortLeaseManager.usedPorts)
                && statics.smtpPortLeaseManager.usedPorts == old(statics.smtpPortLeaseManager.usedPorts) + {smtpPort}
      ensures !LeasedSmtpPort(r) ==>
                && smtpPort == old(smtpPort)
                && statics.smtpPortLeaseManager.usedPorts == old(statics.smtpPortLeaseManager.usedPorts)
      // the web UI port
      ensures r == Failure(WebUIPortLeaseFailed) <==>
                LeasedSmtpPort(r)
                && forall p :: p in statics.webUIPortLeaseManager.availablePortsRange ==> p in old(statics.webUIPortLeaseManager.usedPorts)
      ensures LeasedWebUIPort(r) ==>
                && webUIPort in statics.webUIPortLeaseManager.availablePortsRange
                && webUIPort !in old(statics.webUIPortLeaseManager.usedPorts)
                && statics.webUIPortLeaseManager.usedPorts == old(statics.webUIPortLeaseManager.usedPorts) + {webUIPort}
      ensures !LeasedWebUIPort(r) ==>
                && webUIPort == old(webUIPort)
                && statics.webUIPortLeaseManager.usedPorts == old(statics.webUIPortLeaseManager.usedPorts)
      // the restore once-guard
      ensures r.Failure? && r.error.RestoreFailed? <==>
                LeasedWebUIPort(r) && !old(statics.wasRestored) && restoreExitCode != 0
      ensures r.Failure? && r.error.RestoreFailed? ==> r.error.exitCode == restoreExitCode
      ensures statics.wasRestored <==> old(statics.wasRestored) || (LaunchedProcess(r) && restoreExitCode == 0)
      // the readiness scan
      ensures r.Success? <==> LaunchedProcess(r) && exists i :: 0 <= i < |events| && IsReadinessEvent(events[i])
      ensures r.Success? ==> r.value == RunningContext(smtpPort, Uri("http", "localhost", webUIPort))
      ensures LaunchedProcess(r) ==> tokenSource == TokenSource(false)
      ensures !LaunchedProcess(r) ==> tokenSource == old(tokenSource)
      // what was run
      ensures log == old(log)
                     + (if LeasedWebUIPort(r) && !old(statics.wasRestored) then [RestoreRun(restoreExitCode)] else [])
                     + (if LaunchedProcess(r) then [Launched(smtpPort, Uri("http", "localhost", webUIPort)), EnumeratorDisposed] else [])
    {
      // The File.Exists check creates an exception without throwing it; reading the file is what fails.
      if manifest.ManifestUnreadable? {
        return Failure(ManifestNotReadable);
      }
      if !manifest.hasSmtp4devEntry {
        return Failure(NoSmtp4devConfiguration);
      }

      var smtpLease := statics.smtpPortLeaseManager.LeaseAvailableRandomPort();
      if smtpLease.Failure? {
        return Failure(SmtpPortLeaseFailed);
      }
      smtpPort := smtpLease.value;
      var webUILease := statics.webUIPortLeaseManager.LeaseAvailableRandomPort();
      if webUILease.Failure? {
        return Failure(WebUIPortLeaseFailed);
      }
      webUIPort := webUILease.value;

      var restored := RestoreOnce(statics, restoreExitCode);
      if !restored {
        return Failure(RestoreFailed(restoreExitCode));
      }

      var webUIUri := Uri("http", "localhost", webUIPort);
      var ready := Launch(webUIUri, events);
      if ready {
        return Success(RunningContext(smtpPort, webUIUri));
      }
      return Failure(DidNotStartProperly);
    }

    /**
      The semaphore-guarded block of Start: `dotnet tool restore` runs only while no earlier
      Start has restored successfully, and only exit code 0 sets the process-wide flag.
    */
    method RestoreOnce(statics: SmtpStatics, restoreExitCode: int) returns (restored: bool)
      modifies this`log, statics`wasRestored
      ensures restored <==> old(statics.wasRestored) || restoreExitCode == 0
      ensures statics.wasRestored == restored
      ensures log == old(log) + if old(statics.wasRestored) then [] else [RestoreRun(restoreExitCode)]
    {
      if !statics.wasRestored {
        log := log + [RestoreRun(restoreExitCode)];
        if restoreExitCode != 0 {
          return false;
        }
        statics.wasRestored := true;
      }
      return true;
    }

    /**
      Launches smtp4dev with a fresh cancellation token source and scans its events for the
      readiness line; the event enumerator is disposed whether or not the line came.
    */
    method Launch(webUIUri: Uri, events: seq<CommandEvent>) returns (ready: bool)
      modifies this`log, this`tokenSource
      ensures ready <==> exists i :: 0 <= i < |events| && IsReadinessEvent(events[i])
      ensures tokenSource == TokenSource(false)
      ensures log == old(log) + [Launched(smtpPort, webUIUri), EnumeratorDisposed]
    {
      tokenSource := TokenSource(false);
      log := log + [Launched(smtpPort, webUIUri)];
      var consumed;
      ready, consumed := ScanForReadiness(events);
      log := log + [EnumeratorDisposed];
    }

    /**
      DisposeAsync: releases both ports (whatever the fields hold) and requests cancellation
      only of a token source that exists and is not cancelled yet.
    */
    method DisposeAsync(statics: SmtpStatics)
      requires statics.Valid()
      modifies this, statics.smtpPortLeaseManager, statics.webUIPortLeaseManager
      ensures statics.Valid()
      ensures statics.smtpPortLeaseManager.usedPorts == old(statics.smtpPortLeaseManager.usedPorts) - {smtpPort}
      ensures statics.webUIPortLeaseManager.usedPorts == old(statics.webUIPortLeaseManager.usedPorts) - {webUIPort}
      ensures smtpPort == old(smtpPort) && webUIPort == old(webUIPort)
      ensures old(tokenSource) == TokenSource(false) ==>
                tokenSource == TokenSource(true) && log == old(log) + [CancellationRequested]
      ensures old(tokenSource) != TokenSource(false) ==>
                tokenSource == old(tokenSource) && log == old(log)
    {
      statics.smtpPortLeaseManager.StopLease(smtpPort);
      statics.webUIPortLeaseManager.StopLease(webUIPort);
      if tokenSource.TokenSource? && !tokenSource.cancellationRequested {
        tokenSource := TokenSource(true);
        log := log + [CancellationRequested];
      }
    }
  }
}
