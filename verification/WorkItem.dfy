// The control work item: any number of contexts ask for a run, the requests coalesce on one
// flag, and each run holds the remove lock the device teardown waits for.

module WorkItem {

  // flag is ControlWorkQueued. won: requesters that set it and have not asked for the remove
  // lock yet; refused: those the lock turned away; locked: those about to queue. queued runs
  // sit in the system queue; entered ones have not cleared the flag yet; waiting ones wait for
  // InterfaceMutex; serving and releasing are past it. mutex: somebody holds it. requests
  // counts the calls of PhotonicCaptureRequestWork that reached their exchange, served those
  // of them that a service run started after.
  datatype Work = Work(
    flag: bool, won: nat, refused: nat, locked: nat, queued: nat, entered: nat, waiting: nat, serving: nat,
    releasing: nat, mutex: bool, holds: int, closing: bool, down: bool, requests: nat, served: nat)

  datatype Action =
    | Request
    | TakeLock
    | ClearRefused
    | Queue
    | Enter
    | ClearFlag
    | StartService
    | EndService
    | DropLock
    | OthersLock
    | OthersUnlock
    | BeginTeardown
    | EndTeardown

  const IDLE := Work(false, 0, 0, 0, 0, 0, 0, 0, 0, false, 0, false, false, 0, 0)

  predicate Enabled(w: Work, a: Action) {
    match a
    case Request => true
    case TakeLock => w.won > 0
    case ClearRefused => w.refused > 0
    case Queue => w.locked > 0
    case Enter => w.queued > 0
    case ClearFlag => w.entered > 0
    case StartService => w.waiting > 0 && !w.mutex
    case EndService => w.serving > 0
    case DropLock => w.releasing > 0
    case OthersLock => !w.mutex
    case OthersUnlock => w.mutex && w.serving == 0
    case BeginTeardown => !w.closing
    case EndTeardown => w.closing && w.holds == 0
  }

  function Apply(w: Work, a: Action): Work
    requires Enabled(w, a)
  {
    match a
    case Request =>
      // the exchange: a caller that finds the flag set leaves its request to the run behind it
      w.(won := if w.flag then w.won else w.won + 1, flag := true, requests := w.requests + 1)
    case TakeLock =>
      if w.closing then w.(won := w.won - 1, refused := w.refused + 1)
      else w.(won := w.won - 1, locked := w.locked + 1, holds := w.holds + 1)
    case ClearRefused => w.(refused := w.refused - 1, flag := false)
    case Queue => w.(locked := w.locked - 1, queued := w.queued + 1)
    case Enter => w.(queued := w.queued - 1, entered := w.entered + 1)
    case ClearFlag => w.(entered := w.entered - 1, waiting := w.waiting + 1, flag := false)
    case StartService => w.(waiting := w.waiting - 1, serving := w.serving + 1, mutex := true, served := w.requests)
    case EndService => w.(serving := w.serving - 1, releasing := w.releasing + 1, mutex := false)
    case DropLock => w.(releasing := w.releasing - 1, holds := w.holds - 1)
    case OthersLock => w.(mutex := true)
    case OthersUnlock => w.(mutex := false)
    case BeginTeardown => w.(closing := true)
    case EndTeardown => w.(down := true)
  }

  function Run(schedule: seq<Action>): Work
    decreases |schedule|
  {
    if schedule == [] then IDLE
    else
      var w := Run(schedule[..|schedule| - 1]);
      if Enabled(w, schedule[|schedule| - 1]) then Apply(w, schedule[|schedule| - 1]) else w
  }

  // A run that will start its service: requested, queued, or waiting for the mutex.
  predicate Coming(w: Work) {
    w.won > 0 || w.locked > 0 || w.queued > 0 || w.entered > 0 || w.waiting > 0
  }

  predicate Inv(w: Work) {
    && w.won + w.refused + w.locked + w.queued + w.entered == (if w.flag then 1 else 0)
    && w.serving <= 1 && (w.serving == 1 ==> w.mutex)
    && w.holds == w.locked + w.queued + w.entered + w.waiting + w.serving + w.releasing
    && (w.refused > 0 ==> w.closing) && (w.down ==> w.closing && w.holds == 0)
    && w.served <= w.requests && (w.served < w.requests && !w.closing ==> Coming(w))
  }

  lemma StepInv(w: Work, a: Action)
    requires Inv(w) && Enabled(w, a)
    ensures Inv(Apply(w, a))
  {
    match a
    case Request => if w.flag {} else {}
    case TakeLock => if w.closing {} else {}
    case ClearRefused =>
    case Queue =>
    case Enter =>
    case ClearFlag =>
    case StartService =>
    case EndService =>
    case DropLock =>
    case OthersLock =>
    case OthersUnlock =>
    case BeginTeardown =>
    case EndTeardown =>
  }

  lemma {:induction false} RunInv(schedule: seq<Action>)
    ensures Inv(Run(schedule))
    decreases |schedule|
  {
    if schedule != [] {
      var w := Run(schedule[..|schedule| - 1]);
      RunInv(schedule[..|schedule| - 1]);
      if Enabled(w, schedule[|schedule| - 1]) { StepInv(w, schedule[|schedule| - 1]); }
    }
  }

  // At most one run is requested or queued and not yet acting, at most one serves, and the
  // remove lock counts exactly the runs under way.
  lemma OneQueued(schedule: seq<Action>)
    ensures var w := Run(schedule);
      && w.won + w.locked + w.queued + w.entered <= 1 && w.serving <= 1
      && w.holds == w.locked + w.queued + w.entered + w.waiting + w.serving + w.releasing
      && (w.down ==> w.queued == w.entered == w.waiting == w.serving == w.releasing == 0)
  {
    RunInv(schedule);
  }

  // Steps the runs under way still take before the service of each starts.
  function Distance(w: Work): nat {
    5 * w.won + 4 * w.locked + 3 * w.queued + 2 * w.entered + w.waiting
  }

  predicate Advances(a: Action) {
    a.TakeLock? || a.Queue? || a.Enter? || a.ClearFlag? || a.StartService?
  }

  // Until the teardown begins no request is lost: one that no service run has started after
  // has a run coming, and that run can move on as soon as the mutex is free.
  lemma NoRequestLost(schedule: seq<Action>)
    requires var w := Run(schedule); !w.closing && w.served < w.requests
    ensures var w := Run(schedule);
      Coming(w) && (!w.mutex ==> exists a :: Advances(a) && Enabled(w, a))
  {
    RunInv(schedule);
    var w := Run(schedule);
    if w.won > 0 { assert Enabled(w, TakeLock) && Advances(TakeLock); }
    else if w.locked > 0 { assert Enabled(w, Queue) && Advances(Queue); }
    else if w.queued > 0 { assert Enabled(w, Enter) && Advances(Enter); }
    else if w.entered > 0 { assert Enabled(w, ClearFlag) && Advances(ClearFlag); }
    else if !w.mutex { assert Enabled(w, StartService) && Advances(StartService); }
  }

  // and every such move brings it nearer, the last one starting the service that covers every
  // request made so far.
  lemma ServiceNears(schedule: seq<Action>, a: Action)
    requires Enabled(Run(schedule), a) && Advances(a) && !Run(schedule).closing
    ensures var w, w' := Run(schedule), Run(schedule + [a]);
      Distance(w') < Distance(w) && (a.StartService? ==> w'.served == w'.requests)
  {
    assert (schedule + [a])[..|schedule|] == schedule;
  }
}
