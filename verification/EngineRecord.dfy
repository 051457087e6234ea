// What no step takes back: the log of bus requests only grows, and a descriptor's buffer
// changes only by the pump lap that publishes it.

module EngineRecord {
  import opened EngineModel
  import opened EngineInvariant

  // The log went on from where it was, and every descriptor kept its ticket.
  predicate Records(s: Engine, s': Engine) {
    && s.log <= s'.log && |s'.frames| == |s.frames|
    && forall d :: 0 <= d < |s.frames| ==> s'.frames[d].ticket == s.frames[d].ticket
  }

  lemma SameRecords(s: Engine, s': Engine)
    requires s'.frames == s.frames && s.log <= s'.log
    ensures Records(s, s')
  {
  }

  lemma CallbackClaimsRecords(s: Engine, s': Engine, d: nat)
    requires d < |s.frames| && s' == CallbackClaims(s, d)
    ensures Records(s, s')
  {
  }

  lemma CallbackDefersRecords(s: Engine, s': Engine, d: nat)
    requires d < |s.frames| && s' == CallbackDefers(s, d)
    ensures Records(s, s')
  {
  }

  lemma TailSubmitRecords(s: Engine, s': Engine, d: nat)
    requires d < |s.frames| && s' == TailSubmit(s, d)
    ensures Records(s, s')
  {
  }

  lemma TailRecords(s: Engine, s': Engine, a: Action)
    requires Enabled(s, a) && a.OfTail() && s' == ApplyTail(s, a)
    ensures Records(s, s')
  {
    match a
    case RunCallback(d) =>
      if s.frames[d].state.Pending? { CallbackClaimsRecords(s, s', d); } else { CallbackDefersRecords(s, s', d); }
    case RunSubmit(d) => TailSubmitRecords(s, s', d);
    case RunDeliver(t) => SameRecords(s, s');
    case RunArmed => SameRecords(s, s');
    case RunDone => SameRecords(s, s');
  }

  lemma AttachFailedRecords(s: Engine, s': Engine, d: nat, st: Status)
    requires d < |s.frames| && s' == AttachFailed(s, d, st)
    ensures Records(s, s')
  {
  }

  lemma AttachFoundDoneRecords(s: Engine, s': Engine, d: nat)
    requires d < |s.frames| && s' == AttachFoundDone(s, d)
    ensures Records(s, s')
  {
  }

  lemma AttachPublishedRecords(s: Engine, s': Engine, d: nat)
    requires d < |s.frames| && s' == AttachPublished(s, d)
    ensures Records(s, s')
  {
  }

  lemma AttachEndRecords(s: Engine, s': Engine, d: nat, st: Status)
    requires AttachCanEnd(s, d, st) && s' == AttachEnd(s, d, st)
    ensures Records(s, s')
  {
    if !st.Success? { AttachFailedRecords(s, s', d, st); }
    else if s.frames[d].state.CompletedWhileAttaching? { AttachFoundDoneRecords(s, s', d); }
    else { AttachPublishedRecords(s, s', d); }
  }

  lemma FrameCompleteRecords(s: Engine, s': Engine, d: nat, st: Status)
    requires FrameCanComplete(s, d) && s' == FrameComplete(s, d, st)
    ensures Records(s, s')
  {
  }

  lemma DetachRecycledRecords(s: Engine, s': Engine, d: nat)
    requires d < |s.frames| && s' == DetachRecycled(s, d)
    ensures Records(s, s')
  {
  }

  lemma DetachQuarantinedRecords(s: Engine, s': Engine, d: nat)
    requires d < |s.frames| && s' == DetachQuarantined(s, d)
    ensures Records(s, s')
  {
  }

  lemma BusRecords(s: Engine, s': Engine, a: Action)
    requires Enabled(s, a) && a.OfBus() && s' == ApplyBus(s, a)
    ensures Records(s, s')
  {
    match a
    case BusAttachEnd(d, st) => AttachEndRecords(s, s', d, st);
    case BusFrame(d, st) => FrameCompleteRecords(s, s', d, st);
    case BusDetachEnd(d, ok) =>
      if ok { DetachRecycledRecords(s, s', d); } else { DetachQuarantinedRecords(s, s', d); }
  }

  lemma ClaimPendingRecords(s: Engine, s': Engine, pass: nat, d: nat)
    requires d < |s.frames| && s' == ClaimPending(s, pass, d)
    ensures Records(s, s')
  {
  }

  lemma ClaimRecords(s: Engine, s': Engine, pass: nat)
    requires s' == ClaimNext(s, pass)
    ensures Records(s, s')
  {
    var i := FirstPending(s.frames, s.pendingList);
    if i == |s.pendingList| {
      assert s' == s.(control := QuiesceDrain(pass));
      SameRecords(s, s');
    } else {
      ClaimPendingRecords(s, s', pass, s.pendingList[i]);
    }
  }

  lemma SubmitClaimedRecords(s: Engine, s': Engine, pass: nat, d: nat)
    requires d < |s.frames| && s' == SubmitClaimed(s, pass, d)
    ensures Records(s, s')
  {
  }

  lemma QuiesceRecords(s: Engine, s': Engine, a: Action)
    requires Enabled(s, a) && a.OfQuiesce() && s' == ApplyQuiesce(s, a)
    ensures Records(s, s')
  {
    if a.CtlClaim? { ClaimRecords(s, s', s.control.pass); }
    else if a.CtlSubmit? { SubmitClaimedRecords(s, s', s.control.pass, s.control.d); }
    else { SameRecords(s, s'); }
  }

  lemma ScanRecycleRecords(s: Engine, s': Engine, i: nat, flushed: bool)
    requires i < |s.frames| && s' == ScanRecycle(s, i, flushed)
    ensures Records(s, s')
  {
  }

  lemma ScanMovesRecords(s: Engine, s': Engine, i: nat, flushed: bool)
    requires !(i < |s.frames| && s.frames[i].state.DetachFailed?) && s' == ScanNext(s, i, flushed)
    ensures Records(s, s')
  {
    SameRecords(s, s');
  }

  lemma ReleaseRecords(s: Engine, s': Engine, a: Action)
    requires Enabled(s, a) && a.OfRelease() && s' == ApplyRelease(s, a)
    ensures Records(s, s')
  {
    if a.CtlScan? { ScanRecords(s, s', s.control.i, s.control.flushed); }
    else if a.CtlFree? { FreeRecords(s, s', a.o); }
    else { SameRecords(s, s'); }
  }

  lemma FreeRecords(s: Engine, s': Engine, o: FreeOutcome)
    requires s' == FreeResources(s, o)
    ensures Records(s, s')
  {
  }

  lemma ScanRecords(s: Engine, s': Engine, i: nat, flushed: bool)
    requires s' == ScanNext(s, i, flushed)
    ensures Records(s, s')
  {
    if i < |s.frames| && s.frames[i].state.DetachFailed? { ScanRecycleRecords(s, s', i, flushed); }
    else { ScanMovesRecords(s, s', i, flushed); }
  }

  lemma ElectionRecords(s: Engine, s': Engine, counted: bool)
    requires CanElect(s, counted) && s' == if s.pumpActive then ElectLost(s, counted) else ElectWon(s, counted)
    ensures Records(s, s')
  {
  }

  // Every step but the runner's.
  lemma StepRecords(s: Engine, s': Engine, a: Action)
    requires Enabled(s, a) && !a.RunLap? && s' == Apply(s, a)
    ensures Records(s, s')
  {
    if a.RunElection? { ElectionRecords(s, s', a.counted); }
    else if a.OfPump() { SameRecords(s, s'); }
    else if a.OfTail() { TailRecords(s, s', a); }
    else if a.OfBus() { BusRecords(s, s', a); }
    else if a.OfQuiesce() { QuiesceRecords(s, s', a); }
    else if a.OfRelease() { ReleaseRecords(s, s', a); }
    else { SameRecords(s, s'); }
  }
}
