// The control transitions around the engine: start, stop, shutdown, the control work item
// and the release retry. All run under InterfaceMutex. Answers of the camera and of the bus
// driver, and the removal of the device, are arbitrary.

module CaptureSession {
  import opened EngineModel
  import opened EngineTheorems
  import opened CaptureEngine
  import opened EngineFlows

  // PHOTONIC_CAPTURE_CONTROL_RETRY_MAX
  const CONTROL_RETRY_MAX: nat := 8

  datatype StartStatus = Started | DeviceRemoved | InvalidState | NotReady | StartFailed

  // One successful ISO_EN write, with the state of the receive path at that moment.
  datatype Enabling = Enabling(receiving: bool, listening: bool, oneShot: bool)

  // What a teardown writes to the camera.
  datatype Command = ClearIsoEnable | CancelOneShot

  // What becomes of the three free requests of a release.
  datatype Frees = Frees(handle: FreeOutcome, bandwidth: FreeOutcome, channel: FreeOutcome)

  // The steps by which a start takes its resources, in order, and whether each succeeds.
  datatype Grants = Grants(configured: bool, chunked: bool, channel: bool, told: bool, bandwidth: bool, handle: bool) {
    predicate All() { configured && chunked && channel && told && bandwidth && handle }
  }

  // What one start meets: the device removed; the retried release; the resources; the listen
  // granted and the ISO_EN write carried; and the release of a start that fails.
  datatype StartAnswers = StartAnswers(
    removed: bool, retry: Frees, grants: Grants, granted: bool, written: bool, goneAtStop: bool, undo: Frees)

  // What one service run meets: the device removed at each of the three places that look, the
  // listen granted, the ISO_EN write carried, and the release of a shutdown.
  datatype ServiceAnswers = ServiceAnswers(
    goneAtCancel: bool, granted: bool, goneAtEnable: bool, written: bool, goneAtRetry: bool, undo: Frees)

  class Session {
    const engine: Capture
    var channelAllocated: bool
    var bandwidthAllocated: bool
    var isoEnabled: bool
    var enableWanted: bool
    var controlRetries: nat
    var cancelPending: bool
    var streamRunning: bool
    var oneShot: bool
    // PumpRingOnStart of the IOCTL front-end
    var pumpRing: bool
    var hasMode: bool

    // ExpectBuffers of the start that opened the session.
    ghost var receiving: bool
    ghost var enablings: seq<Enabling>
    ghost var commands: seq<Command>

    // Between control transitions: a live engine holds all three bus resources; an idle one
    // does not listen, its camera is not enabled and no enable is wanted.
    ghost predicate Coherent()
      reads this, engine
    {
      && (!engine.draining ==> channelAllocated && bandwidthAllocated && engine.resourceAllocated)
      && (engine.draining ==> !engine.listening && !isoEnabled && !enableWanted)
    }

    // The camera was enabled for a receiving session only while listening, and never in
    // single-frame mode.
    ghost predicate EnabledWell()
      reads this
    {
      && (forall i :: 0 <= i < |enablings| ==>
            !enablings[i].oneShot && (enablings[i].receiving ==> enablings[i].listening))
      && (enableWanted || isoEnabled ==> !oneShot)
    }

    ghost predicate Valid()
      reads this, engine
    {
      engine.Valid() && engine.w.control.Idle? && Coherent() && EnabledWell() && controlRetries <= CONTROL_RETRY_MAX
    }

    ghost predicate Quarantined()
      reads engine
    {
      HasQuarantined(engine.State())
    }

    // PhotonicCaptureCreate.
    constructor (n: nat, mode: bool)
      ensures Valid() && fresh(engine) && engine.State() == Init(n) && enablings == [] && hasMode == mode
      ensures !streamRunning && !cancelPending && controlRetries == 0
    {
      engine := new Capture(n);
      channelAllocated, bandwidthAllocated, isoEnabled, enableWanted := false, false, false, false;
      controlRetries, cancelPending, streamRunning, oneShot, pumpRing, hasMode := 0, false, false, false, false, mode;
      receiving, enablings, commands := false, [], [];
    }

    // PhotonicCaptureNeedsReleaseRetry.
    method NeedsReleaseRetry() returns (needed: bool)
      ensures needed <==> engine.resourceAllocated || bandwidthAllocated || channelAllocated || Quarantined()
    {
      var held := engine.HasQuarantinedFrames();
      needed := engine.resourceAllocated || bandwidthAllocated || channelAllocated || held;
    }

    // A flag outlives its free request only when the request never reached the bus driver, and
    // the quarantine only without a handle freed with success.
    twostate predicate Freed(o: Frees)
      reads this, engine
    {
      && channelAllocated == (old(channelAllocated) && o.channel.NotSubmitted?)
      && bandwidthAllocated == (old(bandwidthAllocated) && o.bandwidth.NotSubmitted?)
      && engine.resourceAllocated == (old(engine.resourceAllocated) && o.handle.NotSubmitted?)
      && (Quarantined() <==> old(Quarantined()) && !(old(engine.resourceAllocated) && o.handle.FreeSucceeded?))
    }

    // PhotonicCaptureTeardownReleaseSessionResources.
    method ReleaseSessionResources(o: Frees)
      requires engine.Valid() && Enabled(engine.State(), CtlRelease)
      requires !isoEnabled && !enableWanted && EnabledWell() && controlRetries <= CONTROL_RETRY_MAX
      modifies engine, `channelAllocated, `bandwidthAllocated
      ensures Valid() && engine.draining && engine.Continues() && engine.HandedBack()
      ensures Freed(o) && engine.First(CtlRelease)
    {
      engine.ReleaseSessionResources(o.handle);
      bandwidthAllocated := bandwidthAllocated && o.bandwidth.NotSubmitted?;
      channelAllocated := channelAllocated && o.channel.NotSubmitted?;
    }

    // PhotonicCaptureTeardownDisableCamera: a removed camera is not written to.
    method DisableCamera(removed: bool)
      modifies `isoEnabled, `enableWanted, `commands
      ensures !isoEnabled && !enableWanted
      ensures commands == old(commands) + (if old(isoEnabled) && !removed then [ClearIsoEnable] else [])
                                        + (if oneShot && !removed then [CancelOneShot] else [])
    {
      enableWanted := false;
      if isoEnabled {
        if !removed {
          commands := commands + [ClearIsoEnable];
        }
        isoEnabled := false;
      }
      if oneShot && !removed {
        commands := commands + [CancelOneShot];
      }
    }

    // PhotonicCaptureTeardownShutdown.
    method Shutdown(removed: bool, o: Frees)
      requires engine.Valid() && (engine.w.control.Idle? || engine.w.control.Settled?)
      requires EnabledWell() && controlRetries <= CONTROL_RETRY_MAX
      modifies this, engine
      ensures Valid() && engine.draining && !streamRunning && engine.Continues() && engine.HandedBack()
      ensures controlRetries == old(controlRetries) && cancelPending == old(cancelPending)
      ensures oneShot == old(oneShot) && receiving == old(receiving) && enablings == old(enablings) && hasMode == old(hasMode)
      ensures (channelAllocated ==> o.channel.NotSubmitted?) && (bandwidthAllocated ==> o.bandwidth.NotSubmitted?)
      ensures engine.resourceAllocated ==> o.handle.NotSubmitted?
      ensures commands == old(commands) + (if old(isoEnabled) && !removed then [ClearIsoEnable] else [])
                                        + (if oneShot && !removed then [CancelOneShot] else [])
    {
      streamRunning := false;
      DisableCamera(removed);
      QuiesceAndRelease(o);
    }

    method QuiesceAndRelease(o: Frees)
      requires engine.Valid() && (engine.w.control.Idle? || engine.w.control.Settled?)
      requires !isoEnabled && !enableWanted && EnabledWell() && controlRetries <= CONTROL_RETRY_MAX
      modifies engine, `channelAllocated, `bandwidthAllocated
      ensures Valid() && engine.draining && engine.Continues() && engine.HandedBack()
      ensures (channelAllocated ==> o.channel.NotSubmitted?) && (bandwidthAllocated ==> o.bandwidth.NotSubmitted?)
      ensures engine.resourceAllocated ==> o.handle.NotSubmitted?
    {
      var passes := engine.Quiesce();
      ReleaseSessionResources(o);
    }

    // PhotonicCaptureStop. A live session is shut down; an idle one retries what an earlier
    // release left.
    method Stop(removed: bool, o: Frees)
      requires Valid()
      modifies this, engine
      ensures Valid() && engine.draining && !streamRunning && engine.Continues() && engine.HandedBack()
      ensures oneShot == old(oneShot) && receiving == old(receiving) && enablings == old(enablings) && hasMode == old(hasMode)
      ensures controlRetries == old(controlRetries) && cancelPending == old(cancelPending)
      ensures (channelAllocated ==> o.channel.NotSubmitted?) && (bandwidthAllocated ==> o.bandwidth.NotSubmitted?)
      ensures engine.resourceAllocated ==> o.handle.NotSubmitted?
      ensures old(engine.draining) ==> Freed(o)
      ensures old(isoEnabled) && !removed ==> |commands| > |old(commands)| && commands[|old(commands)|].ClearIsoEnable?
    {
      if engine.draining {
        streamRunning := false;
        StopIdle(o);
      } else {
        Shutdown(removed, o);
      }
    }

    method StopIdle(o: Frees)
      requires Valid() && engine.draining
      modifies engine, `channelAllocated, `bandwidthAllocated
      ensures Valid() && engine.draining && engine.Continues() && engine.HandedBack() && Freed(o)
    {
      RestingFacts(engine.pool, engine.history, engine.State());
      engine.WaitPumpIdle();
      RestingFacts(engine.pool, engine.history, engine.State());
      SettledBack(engine.pool, engine.history, engine.State());
      var retry := NeedsReleaseRetry();
      if retry {
        ReleaseSessionResources(o);
      }
    }

    // The bus resources and the camera, in the order the start acquires them; a step that
    // fails leaves what it got so far to the release.
    method Acquire(g: Grants) returns (ok: bool)
      requires engine.Valid() && engine.w.control == Starting(false) && engine.draining
      modifies engine, `channelAllocated, `bandwidthAllocated
      ensures engine.Valid() && engine.Continues() && engine.draining && (ok <==> g.All())
      ensures engine.w.control == Starting(ok) && (ok ==> channelAllocated && bandwidthAllocated && engine.resourceAllocated)
      ensures channelAllocated == (old(channelAllocated) || (g.configured && g.chunked && g.channel))
      ensures bandwidthAllocated == (old(bandwidthAllocated) || (g.configured && g.chunked && g.channel && g.told && g.bandwidth))
      ensures !ok ==> engine.resourceAllocated == old(engine.resourceAllocated)
    {
      // PhotonicDcamConfigureStream, then PhotonicCapturePoolSetupChunks
      if !g.configured || !g.chunked { return false; }
      if !g.channel { return false; }
      channelAllocated := true;
      if !g.told { return false; }
      if !g.bandwidth { return false; }
      bandwidthAllocated := true;
      if !g.handle { return false; }
      engine.AllocateHandle();
      return true;
    }

    // The release a previous stop left unfinished; a session never starts over a quarantine.
    method RetryRelease(o: Frees) returns (clean: bool)
      requires Valid() && engine.draining
      modifies engine, `channelAllocated, `bandwidthAllocated
      ensures Valid() && engine.draining && engine.Continues() && (clean <==> !Quarantined()) && Freed(o)
      ensures old(engine.resourceAllocated || bandwidthAllocated || channelAllocated || Quarantined()) ==>
                engine.First(CtlRelease)
    {
      var retry := NeedsReleaseRetry();
      if retry {
        ReleaseSessionResources(o);
      }
      var held := engine.HasQuarantinedFrames();
      clean := !held;
    }

    // The deferred or immediate ISO_EN of a start; never in single-frame mode.
    method EnableCamera(expectBuffers: bool, written: bool) returns (ok: bool)
      requires Valid() && !engine.draining && !isoEnabled && !enableWanted && receiving == expectBuffers
      modifies `isoEnabled, `enableWanted, `enablings
      ensures Valid() && (ok <==> oneShot || (expectBuffers && !engine.listening) || written)
      ensures isoEnabled <==> !oneShot && !(expectBuffers && !engine.listening) && written
      ensures enableWanted <==> !oneShot && expectBuffers && !engine.listening
      ensures enablings == old(enablings) + (if isoEnabled then [Enabling(receiving, engine.listening, oneShot)] else [])
    {
      if oneShot {
        return true;
      }
      if expectBuffers && !engine.listening {
        enableWanted := true;
        return true;
      }
      if !written {
        return false;
      }
      enablings := enablings + [Enabling(receiving, engine.listening, oneShot)];
      isoEnabled := true;
      return true;
    }

    // PhotonicCaptureStart. The laps of the pump call it makes run among the other steps.
    method Start(expectBuffers: bool, a: StartAnswers) returns (status: StartStatus)
      requires Valid()
      modifies this, engine
      ensures Valid() && engine.Continues()
      // a removed device and a session without a mode are refused, a running one runs on
      ensures a.removed <==> status.DeviceRemoved?
      ensures status.InvalidState? <==> !a.removed && old(engine.draining) && !hasMode
      ensures !a.removed && !old(engine.draining) ==> status.Started? && streamRunning
      ensures a.removed || !old(engine.draining) || !hasMode ==>
                engine.history == old(engine.history) && (status.Started? || streamRunning == old(streamRunning))
      // an idle one starts over the release a previous stop left, never over a quarantine
      ensures status.NotReady? <==>
                !a.removed && old(engine.draining) && hasMode && old(Quarantined()) &&
                !(old(engine.resourceAllocated) && a.retry.handle.FreeSucceeded?)
      ensures status.NotReady? ==> Quarantined()
      ensures !a.removed && old(engine.draining) && hasMode &&
              old(engine.resourceAllocated || bandwidthAllocated || channelAllocated || Quarantined()) ==>
                engine.First(CtlRelease)
      // then it starts exactly when it gets all its resources and an enable that is due is carried
      ensures status.Started? && old(engine.draining) ==>
                a.grants.All() && (a.written || oneShot || enableWanted) && Running(expectBuffers) && engine.LiveBy(CtlOpen)
      ensures status.StartFailed? ==> !(a.grants.All() && a.written)
      ensures status.Started? ==> !engine.draining && streamRunning
      ensures old(engine.draining) && !status.Started? ==> engine.draining
    {
      if a.removed {
        return DeviceRemoved;
      }
      if !engine.draining {
        streamRunning := true;
        return Started;
      }
      if !hasMode {
        return InvalidState;
      }
      var clean := RetryRelease(a.retry);
      if !clean {
        return NotReady;
      }
      status := OpenSession(expectBuffers, a);
    }

    // What a start leaves behind: a fresh retry budget, no stale cancel, the camera enabled, or
    // to be enabled by the first listen.
    ghost predicate Running(expectBuffers: bool)
      reads this, engine
    {
      && receiving == expectBuffers && controlRetries == 0 && !cancelPending
      && (!oneShot ==> if expectBuffers && !engine.listening then enableWanted && !isoEnabled else isoEnabled)
      && (oneShot ==> !isoEnabled && !enableWanted)
    }

    method OpenSession(expectBuffers: bool, a: StartAnswers) returns (status: StartStatus)
      requires Valid() && engine.draining && !Quarantined()
      modifies this, engine
      ensures Valid() && engine.Continues() && hasMode == old(hasMode) && oneShot == old(oneShot)
      ensures status.Started? || status.StartFailed?
      ensures if status.Started?
              then !engine.draining && streamRunning && a.grants.All() && Running(expectBuffers) && engine.LiveBy(CtlOpen)
              else engine.draining
      ensures status.Started? ==> a.written || oneShot || enableWanted
      ensures a.grants.All() && a.written ==> status.Started?
    {
      var ok := TakeResources(a.grants, a.undo);
      status := StartFailed;
      if ok {
        ghost var live := engine.history;
        status := StreamFresh(expectBuffers, a);
        PumpFollows(old(engine.history), live, engine.history);
      }
    }

    static lemma PumpFollows(before: seq<Action>, live: seq<Action>, after: seq<Action>)
      requires before < live < after && live[|live| - 1] == CtlOpen && after[|live|] == CallPump
      ensures exists k :: |before| <= k && k + 1 < |after| && after[k] == CtlOpen && after[k + 1] == CallPump
    {
      assert after[|live| - 1] == CtlOpen;
    }

    method StreamFresh(expectBuffers: bool, a: StartAnswers) returns (status: StartStatus)
      requires Valid() && !engine.draining && !isoEnabled && !enableWanted
      modifies this, engine
      ensures Valid() && engine.Continues() && engine.First(CallPump) && hasMode == old(hasMode) && oneShot == old(oneShot)
      ensures if status.Started? then !engine.draining && streamRunning && Running(expectBuffers)
              else status.StartFailed? && engine.draining
      ensures status.Started? ==> a.written || oneShot || enableWanted
      ensures a.written ==> status.Started?
    {
      receiving := expectBuffers;
      controlRetries, cancelPending := 0, false;
      status := Stream(expectBuffers, a);
    }

    method TakeResources(g: Grants, undo: Frees) returns (ok: bool)
      requires Valid() && engine.draining && !Quarantined()
      modifies engine, `channelAllocated, `bandwidthAllocated
      ensures Valid() && engine.Continues() && engine.draining == !ok && (ok <==> g.All())
      ensures ok ==> !isoEnabled && !enableWanted
      ensures ok ==> old(engine.history) < engine.history && engine.history[|engine.history| - 1] == CtlOpen
      ensures !ok ==> (channelAllocated ==> undo.channel.NotSubmitted?) && (bandwidthAllocated ==> undo.bandwidth.NotSubmitted?)
      ensures !ok && engine.resourceAllocated ==> undo.handle.NotSubmitted?
    {
      ok := TryResources(g);
      if ok {
        engine.Open(CtlOpen);
      } else {
        ReleaseSessionResources(undo);
      }
    }

    method TryResources(g: Grants) returns (ok: bool)
      requires Valid() && engine.draining && !Quarantined()
      modifies engine, `channelAllocated, `bandwidthAllocated
      ensures engine.Valid() && engine.Continues() && engine.draining && (ok <==> g.All())
      ensures engine.w.control == Starting(ok) && (ok ==> channelAllocated && bandwidthAllocated && engine.resourceAllocated)
    {
      engine.BeginStart();
      ok := Acquire(g);
    }

    method Stream(expectBuffers: bool, a: StartAnswers) returns (status: StartStatus)
      requires Valid() && !engine.draining && !isoEnabled && !enableWanted && receiving == expectBuffers
      modifies this, engine
      ensures Valid() && engine.Continues() && engine.First(CallPump) && hasMode == old(hasMode) && oneShot == old(oneShot)
      ensures receiving == old(receiving) && controlRetries == old(controlRetries) && cancelPending == old(cancelPending)
      ensures if status.Started? then !engine.draining && streamRunning else status.StartFailed? && engine.draining
      ensures status.Started? && !oneShot ==>
                (if expectBuffers && !engine.listening then enableWanted && !isoEnabled else isoEnabled)
      ensures status.Started? && oneShot ==> !isoEnabled && !enableWanted
      ensures status.Started? ==> a.written || oneShot || enableWanted
      ensures a.written ==> status.Started?
    {
      ArmReceive(a.granted);
      var enabled := EnableCamera(expectBuffers, a.written);
      status := if enabled then Started else StartFailed;
      if enabled {
        streamRunning := true;
      } else {
        Stop(a.goneAtStop, a.undo);
      }
    }

    // PhotonicIoctlCaptureStart: a start may change the transmission mode and the ring pump of
    // an idle session only.
    method SelectTransmission(single: bool, pump: bool) returns (ok: bool)
      requires Valid()
      modifies `oneShot, `pumpRing
      ensures Valid() && (ok <==> engine.draining || (old(oneShot) == single && old(pumpRing) == pump))
      ensures if ok then oneShot == single && pumpRing == pump else oneShot == old(oneShot) && pumpRing == old(pumpRing)
    {
      ok := !(!engine.draining && (oneShot != single || pumpRing != pump));
      if ok {
        oneShot := single;
        pumpRing := pump;
      }
    }

    // PhotonicCapturePump and PhotonicCaptureEnsureListen.
    method ArmReceive(granted: bool)
      requires Valid()
      modifies engine
      ensures Valid() && engine.Continues() && engine.draining == old(engine.draining)
      ensures (old(engine.listening) ==> engine.listening) && engine.First(CallPump)
      ensures granted && engine.firstAttachDone ==> engine.listening || engine.draining || engine.pendingList == []
    {
      engine.Arrive();
      engine.Meanwhile();
      engine.EnsureListen(granted);
    }

    // The resume after a cancel resolution, or the shutdown when there is nothing to resume
    // into or a read was quarantined on the way (held). Either way every buffer the engine had
    // is back or held by a failed detach.
    method ResolveCancel(gone: bool, undo: Frees) returns (held: bool)
      requires Valid() && !engine.draining
      modifies this, engine
      ensures Valid() && engine.Continues() && controlRetries == old(controlRetries)
      ensures cancelPending == old(cancelPending) && (engine.draining <==> gone || held)
      ensures held ==> exists k ::
                |old(engine.history)| <= k <= |engine.history| && HasQuarantined(Run(Init(engine.pool), engine.history[..k]))
      ensures engine.draining ==> !streamRunning
      ensures !engine.draining ==> engine.LiveBy(CtlResume) && streamRunning == old(streamRunning)
      ensures !engine.draining ==> isoEnabled == old(isoEnabled) && enableWanted == old(enableWanted)
      ensures engine.Returned(|old(engine.w.acquired)|)
    {
      var passes := engine.Quiesce();
      ghost var settled := engine.history;
      AllReturned(engine.pool, old(engine.history), settled, engine.State());
      held := engine.HasQuarantinedFrames();
      assert engine.history[..|settled|] == settled;
      if gone || held {
        Shutdown(gone, undo);
      } else {
        Resume();
      }
      assert engine.history[..|settled|] == settled;
      forall t: nat | t < |old(engine.w.acquired)| ensures Back(engine.State(), t) {
        BackStays(engine.pool, settled, engine.history, t);
      }
    }

    method Resume()
      requires engine.Valid() && engine.w.control.Settled? && !Quarantined() && EnabledWell()
      requires channelAllocated && bandwidthAllocated && controlRetries <= CONTROL_RETRY_MAX
      modifies engine
      ensures Valid() && engine.Continues() && !engine.draining
      ensures engine.First(CtlResume) && engine.LiveBy(CtlResume)
    {
      SettledFacts(engine.pool, engine.history, engine.State());
      engine.Open(CtlResume);
      engine.Arrive();
      engine.Meanwhile();
      assert engine.history[|old(engine.history)|] == CtlResume;
      assert engine.history[|old(engine.history)| + 1] == CallPump;
    }

    // The deferred enable, once the receive path is armed; a failed write keeps it wanted.
    method EnableDeferred(gone: bool, carried: bool) returns (written: bool)
      requires Valid()
      modifies `isoEnabled, `enableWanted, `enablings
      ensures Valid() && (written <==> old(enableWanted) && engine.listening && carried && !gone)
      ensures isoEnabled == (old(isoEnabled) || written) && enableWanted == (old(enableWanted) && !written)
      ensures enablings == old(enablings) + (if written then [Enabling(receiving, true, oneShot)] else [])
    {
      written := enableWanted && engine.listening && !gone && carried;
      if written {
        enablings := enablings + [Enabling(receiving, engine.listening, oneShot)];
        enableWanted := false;
        isoEnabled := true;
      }
    }

    // A listen or a deferred enable that did not stick.
    predicate Unfinished()
      reads this, engine
    {
      (!engine.draining && !engine.listening && engine.pendingList != []) || (enableWanted && engine.listening)
    }

    // PhotonicCaptureWorkService; requeued tells whether it queued another run of itself.
    method WorkService(a: ServiceAnswers) returns (requeued: bool)
      requires Valid()
      modifies this, engine
      ensures Valid() && engine.Continues() && !cancelPending
      // a cancelled read is among those that are back, and so is every other one
      ensures old(cancelPending) ==> engine.Returned(|old(engine.w.acquired)|)
      ensures engine.draining && !old(engine.draining) ==> old(cancelPending)
      ensures old(cancelPending) && a.goneAtCancel ==> engine.draining
      // it listens for what is attached, and carries out the enable that waits for the listen
      ensures a.granted && engine.firstAttachDone ==> engine.listening || engine.draining || engine.pendingList == []
      ensures enableWanted && engine.listening ==> !a.written || a.goneAtEnable
      ensures !engine.draining ==>
                isoEnabled == (old(isoEnabled) || (old(enableWanted) && engine.listening && a.written && !a.goneAtEnable)) &&
                enableWanted == (old(enableWanted) && !(engine.listening && a.written && !a.goneAtEnable))
      // what is left unfinished queues another run, within the budget
      ensures requeued <==> Unfinished() && !a.goneAtRetry && old(controlRetries) < CONTROL_RETRY_MAX
      ensures controlRetries == (if Unfinished() && !a.goneAtRetry then old(controlRetries) + (if requeued then 1 else 0) else 0)
    {
      ServeCancel(a.goneAtCancel, a.undo);
      ghost var served := engine.history;
      engine.EnsureListen(a.granted);
      if old(cancelPending) {
        forall t: nat | t < |old(engine.w.acquired)| ensures Back(engine.State(), t) {
          BackStays(engine.pool, served, engine.history, t);
        }
      }
      var written := EnableDeferred(a.goneAtEnable, a.written);
      requeued := Retry(a.goneAtRetry);
    }

    // The cancel part: nothing to do when a teardown has completed the reads.
    method ServeCancel(gone: bool, undo: Frees)
      requires Valid()
      modifies this, engine
      ensures Valid() && engine.Continues() && !cancelPending && controlRetries == old(controlRetries)
      ensures old(cancelPending) ==> engine.Returned(|old(engine.w.acquired)|)
      ensures engine.draining && !old(engine.draining) ==> old(cancelPending)
      ensures old(cancelPending) && gone ==> engine.draining
      ensures !engine.draining ==> isoEnabled == old(isoEnabled) && enableWanted == old(enableWanted)
      ensures !old(cancelPending) ==> engine.history == old(engine.history)
    {
      if cancelPending {
        cancelPending := false;
        if !engine.draining {
          var held := ResolveCancel(gone, undo);
        } else {
          SettledBack(engine.pool, engine.history, engine.State());
        }
      }
    }

    // What did not stick is retried by another run, within the budget.
    method Retry(gone: bool) returns (requeued: bool)
      requires Valid()
      modifies `controlRetries
      ensures Valid() && (requeued <==> Unfinished() && !gone && old(controlRetries) < CONTROL_RETRY_MAX)
      ensures controlRetries == (if Unfinished() && !gone then old(controlRetries) + (if requeued then 1 else 0) else 0)
    {
      var retryListen := !engine.draining && !engine.listening && engine.pendingList != [];
      var retryEnable := enableWanted && engine.listening;
      requeued := false;
      if (retryListen || retryEnable) && !gone {
        if controlRetries < CONTROL_RETRY_MAX {
          controlRetries := controlRetries + 1;
          requeued := true;
        }
      } else {
        controlRetries := 0;
      }
    }

    // Without outside triggers the control work item goes idle whatever each run meets: at most
    // eight requeues, and what it then leaves unfinished has used up the budget or lost the
    // device.
    method ServiceUntilIdle() returns (requeues: nat, removed: bool)
      requires Valid()
      modifies this, engine
      ensures Valid() && engine.Continues() && requeues <= CONTROL_RETRY_MAX - old(controlRetries)
      ensures Unfinished() && !removed ==> controlRetries == CONTROL_RETRY_MAX
    {
      requeues := 0;
      var answers: ServiceAnswers := *;
      var again := WorkService(answers);
      while again
        invariant Valid() && engine.Continues()
        invariant again ==> controlRetries == old(controlRetries) + requeues + 1
        invariant requeues <= CONTROL_RETRY_MAX - old(controlRetries)
        invariant Unfinished() && !answers.goneAtRetry && !again ==> controlRetries == CONTROL_RETRY_MAX
        decreases again, CONTROL_RETRY_MAX - controlRetries
      {
        requeues := requeues + 1;
        answers := *;
        again := WorkService(answers);
      }
      removed := answers.goneAtRetry;
    }

    // PhotonicCaptureDestroy: a quarantined descriptor leaks the engine.
    method Destroy() returns (freed: bool)
      ensures freed <==> !Quarantined()
    {
      var held := engine.HasQuarantinedFrames();
      freed := !held;
    }
  }
}
