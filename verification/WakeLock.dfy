/** The wake lock: a reference count in front of a service that is told only when the first
    request comes and when the last one goes. The service's n-th answer is `answers(n)`.

    The requests handled since the lock was last registered, and the calls made with their
    answers, are kept as histories.
 */
module WakeLock {
  import opened Common

  type Answers = nat -> bool

  datatype Request = SetLock | ClearLock(force: bool)

  datatype Event = Ask(request: Request) | Disconnected | RegisterReply(success: bool)

  datatype Entry = Call(acquire: bool, ok: bool) | ServiceGone

  datatype Monitor = Monitor(
    registered: bool, held: bool, references: nat,
    requests: seq<Request>, calls: nat, trace: seq<Entry>)
  {
    function CallService(acquire: bool, answers: Answers): Monitor {
      var ok := answers(calls);
      this.(calls := calls + 1, trace := trace + [Call(acquire, ok)], held := if ok then acquire else held)
    }

    /** setWakeLock. A forced clear of a lock that is not held leaves the count. */
    function Handle(request: Request, answers: Answers): Monitor {
      if !registered then this
      else
        var m := this.(requests := requests + [request],
                       references := if request.SetLock? then references + 1
                                     else if references > 0 then references - 1 else 0);
        if held == request.SetLock? then m
        else
          var n := if request == ClearLock(true) then m.(references := 0) else m;
          if request.ClearLock? && n.references > 0 then n else n.CallService(request.SetLock?, answers)
    }

    function Step(e: Event, answers: Answers): Monitor {
      match e
      case Ask(request) => Handle(request, answers)
      case Disconnected =>
        Monitor(false, false, 0, [], calls, trace + [ServiceGone])
      case RegisterReply(success) => this.(registered := registered || success)
    }
  }

  function Initial(): Monitor {
    Monitor(false, false, 0, [], 0, [])
  }

  function Run(m: Monitor, events: seq<Event>, answers: Answers): Monitor {
    if events == [] then m
    else Run(m, events[..|events| - 1], answers).Step(events[|events| - 1], answers)
  }

  /** Requests to hold the lock less requests to drop it, never below zero. */
  function Balance(requests: seq<Request>): nat {
    if requests == [] then 0
    else
      var before := Balance(requests[..|requests| - 1]);
      match requests[|requests| - 1]
      case SetLock => before + 1
      case ClearLock(false) => if before > 0 then before - 1 else 0
      case ClearLock(true) => 0
  }

  lemma BalanceSnoc(requests: seq<Request>, r: Request)
    ensures Balance(requests + [r]) ==
            if r.SetLock? then Balance(requests) + 1
            else if r.force || Balance(requests) == 0 then 0 else Balance(requests) - 1
  {
    assert (requests + [r])[..|requests|] == requests;
  }

  /** What the service holds: the last call it granted decides, until it goes away. */
  predicate LockAfter(trace: seq<Entry>) {
    if trace == [] then false
    else match trace[|trace| - 1]
      case Call(acquire, true) => acquire
      case Call(_, false) => LockAfter(trace[..|trace| - 1])
      case ServiceGone => false
  }

  predicate NoneFailed(trace: seq<Entry>) {
    forall i :: 0 <= i < |trace| ==> trace[i].ServiceGone? || trace[i].ok
  }

  lemma TraceSnoc(trace: seq<Entry>, e: Entry)
    ensures LockAfter(trace + [e]) == if e.Call? && e.ok then e.acquire else if e.Call? then LockAfter(trace) else false
    ensures NoneFailed(trace + [e]) <==> NoneFailed(trace) && (e.Call? ==> e.ok)
  {
    var more := trace + [e];
    assert more[..|trace|] == trace && more[|trace|] == e;
    assert NoneFailed(more) ==> forall i :: 0 <= i < |trace| ==> more[i] == trace[i];
  }

  predicate NoneForced(requests: seq<Request>) {
    ClearLock(true) !in requests
  }

  lemma NoneForcedSnoc(requests: seq<Request>, r: Request)
    ensures NoneForced(requests + [r]) <==> NoneForced(requests) && r != ClearLock(true)
  {
  }

  /** The call made last has failed. */
  predicate LastFailed(trace: seq<Entry>, acquire: bool) {
    trace != [] && trace[|trace| - 1] == Call(acquire, false)
  }

  ghost predicate HeldOk(m: Monitor) {
    && (m.held <==> LockAfter(m.trace))
    && (LastFailed(m.trace, true) ==> m.registered && !m.held)
    && (LastFailed(m.trace, false) ==> m.registered && m.held)
    && (!m.registered ==> !m.held && m.references == 0 && m.requests == [])
  }

  /** What the count is, when no call has failed (`granted`) and otherwise. */
  predicate CountOk(held: bool, references: nat, balance: nat, granted: bool, unforced: bool) {
    && (granted ==> (held <==> references > 0) && references == balance)
    && (unforced ==> references == balance)
    && references >= balance
  }

  ghost predicate Inv(m: Monitor) {
    HeldOk(m) && CountOk(m.held, m.references, Balance(m.requests), NoneFailed(m.trace), NoneForced(m.requests))
  }

  lemma HandleHeld(m: Monitor, request: Request, answers: Answers)
    requires HeldOk(m)
    ensures HeldOk(m.Handle(request, answers))
  {
    TraceSnoc(m.trace, Call(request.SetLock?, answers(m.calls)));
  }

  lemma HandleCount(m: Monitor, request: Request, answers: Answers)
    requires m.registered
    requires CountOk(m.held, m.references, Balance(m.requests), NoneFailed(m.trace), NoneForced(m.requests))
    ensures var n := m.Handle(request, answers);
            CountOk(n.held, n.references, Balance(n.requests), NoneFailed(n.trace), NoneForced(n.requests))
  {
    BalanceSnoc(m.requests, request);
    NoneForcedSnoc(m.requests, request);
    TraceSnoc(m.trace, Call(request.SetLock?, answers(m.calls)));
  }

  lemma HandleKeeps(m: Monitor, request: Request, answers: Answers)
    requires Inv(m)
    ensures Inv(m.Handle(request, answers))
  {
    HandleHeld(m, request, answers);
    if m.registered {
      HandleCount(m, request, answers);
    }
  }

  lemma StepKeeps(m: Monitor, e: Event, answers: Answers)
    requires Inv(m)
    ensures Inv(m.Step(e, answers))
  {
    if e.Ask? {
      HandleKeeps(m, e.request, answers);
    }
    TraceSnoc(m.trace, ServiceGone);
  }

  lemma {:induction false} RunKeeps(events: seq<Event>, answers: Answers)
    ensures Inv(Run(Initial(), events, answers))
  {
    if events == [] {
    } else {
      RunKeeps(events[..|events| - 1], answers);
      StepKeeps(Run(Initial(), events[..|events| - 1], answers), events[|events| - 1], answers);
    }
  }

  /** Whether a registration has succeeded since the service last went away, and the requests
      that came after it. */
  predicate RegisteredAfter(events: seq<Event>) {
    if events == [] then false
    else match events[|events| - 1]
      case Ask(_) => RegisteredAfter(events[..|events| - 1])
      case Disconnected => false
      case RegisterReply(success) => success || RegisteredAfter(events[..|events| - 1])
  }

  function RequestsAfter(events: seq<Event>): seq<Request> {
    if events == [] then []
    else match events[|events| - 1]
      case Ask(request) =>
        RequestsAfter(events[..|events| - 1]) + if RegisteredAfter(events[..|events| - 1]) then [request] else []
      case Disconnected => []
      case RegisterReply(_) => RequestsAfter(events[..|events| - 1])
  }

  /** In every run the requests that count are those made while registered. */
  lemma {:induction false} RequestsCounted(events: seq<Event>, answers: Answers)
    ensures var m := Run(Initial(), events, answers);
            (m.registered <==> RegisteredAfter(events)) && m.requests == RequestsAfter(events)
  {
    if events == [] {
    } else {
      RequestsCounted(events[..|events| - 1], answers);
    }
  }

  /** In every run whose calls are granted the service holds the lock exactly while the count
      is positive, and the count is the balance of the requests since registration. */
  lemma HeldWhileCounted(events: seq<Event>, answers: Answers)
    requires forall n: nat :: answers(n)
    ensures var m := Run(Initial(), events, answers);
            (LockAfter(m.trace) <==> m.references > 0) && m.references == Balance(m.requests)
  {
    RunKeeps(events, answers);
    GrantedTrace(events, answers);
  }

  lemma {:induction false} GrantedTrace(events: seq<Event>, answers: Answers)
    requires forall n: nat :: answers(n)
    ensures NoneFailed(Run(Initial(), events, answers).trace)
  {
    if events == [] {
    } else {
      GrantedTrace(events[..|events| - 1], answers);
    }
  }

  /** Also when calls fail the count is the balance, as long as no clear is forced; with
      forced clears it is never less. */
  lemma CountIsBalance(events: seq<Event>, answers: Answers)
    ensures var m := Run(Initial(), events, answers);
            && m.references >= Balance(m.requests)
            && (NoneForced(m.requests) ==> m.references == Balance(m.requests))
  {
    RunKeeps(events, answers);
  }

  /** When the service is called: for a set whenever the lock is not held, so also after a
      failed set; for a clear whenever it is held and this was the last reference or the
      clear is forced, so also after a failed clear. */
  lemma CalledExactly(m: Monitor, request: Request, answers: Answers)
    ensures var n := m.Handle(request, answers);
            if m.registered && (if request.SetLock? then !m.held else m.held && (request.force || m.references <= 1))
            then n.trace == m.trace + [Call(request.SetLock?, answers(m.calls))]
            else n.trace == m.trace && n.held == m.held
  {
  }

  /** In every run: after a failed call, and whatever requests have come since without a
      call, the next set calls again if that was a set; if it was a clear, the next clear
      calls again exactly if it is forced or at most one reference has come back. */
  lemma RetriedAfterFailure(events: seq<Event>, answers: Answers, request: Request)
    requires LastFailed(Run(Initial(), events, answers).trace, request.SetLock?)
    ensures var m := Run(Initial(), events, answers);
            m.Handle(request, answers).trace ==
            m.trace + if request.SetLock? || request.force || m.references <= 1
                      then [Call(request.SetLock?, answers(m.calls))] else []
  {
    RunKeeps(events, answers);
    CalledExactly(Run(Initial(), events, answers), request, answers);
  }

  /** So the request that follows a failed one in the same direction always calls again. */
  lemma FailedRequestIsRetried(events: seq<Event>, answers: Answers, request: Request, next: Request)
    requires request.SetLock? == next.SetLock?
    requires var (m, n) := (Run(Initial(), events, answers), Run(Initial(), events, answers).Handle(request, answers));
             n.trace == m.trace + [Call(request.SetLock?, false)]
    ensures var n := Run(Initial(), events, answers).Handle(request, answers);
            n.Handle(next, answers).trace == n.trace + [Call(next.SetLock?, answers(n.calls))]
  {
    var m := Run(Initial(), events, answers);
    RunKeeps(events, answers);
    HandleKeeps(m, request, answers);
    CalledExactly(m, request, answers);
    if request.ClearLock? {
      FailedClearLeavesNone(m, request, answers);
    }
    CalledExactly(m.Handle(request, answers), next, answers);
  }

  lemma FailedClearLeavesNone(m: Monitor, request: Request, answers: Answers)
    requires request.ClearLock? && m.Handle(request, answers).trace == m.trace + [Call(false, false)]
    ensures m.Handle(request, answers).references == 0
  {
  }

  /** A forced clear leaves no reference exactly if the lock is held or at most one reference
      was left: after failed sets it can leave some. */
  lemma ForcedClearExactly(m: Monitor, answers: Answers)
    requires m.registered
    ensures m.Handle(ClearLock(true), answers).references == 0 <==> m.held || m.references <= 1
  {
  }

  /** The run that shows it: two failed sets and a forced clear. */
  lemma ForcedClearLeavesOne(answers: Answers)
    requires forall n: nat :: !answers(n)
    ensures var m := Initial().Step(RegisterReply(true), answers).Step(Ask(SetLock), answers)
                              .Step(Ask(SetLock), answers).Step(Ask(ClearLock(true)), answers);
            m.references == 1 && Balance(m.requests) == 0
  {
    BalanceSnoc([SetLock, SetLock], ClearLock(true));
    assert [] + [SetLock] + [SetLock] == [SetLock, SetLock];
  }

  /** The monitor's fields. */
  class LifeCycleMonitor {
    const answers: Answers
    var registeredWakeLock: bool
    var wakeLockSet: bool
    var refWakeLock: int
    var requests: seq<Request>
    var calls: nat
    var trace: seq<Entry>

    predicate Valid()
      reads this
    {
      refWakeLock >= 0
    }

    function State(): Monitor
      reads this
      requires Valid()
    {
      Monitor(registeredWakeLock, wakeLockSet, refWakeLock, requests, calls, trace)
    }

    constructor (answers: Answers)
      ensures Valid() && State() == Initial() && this.answers == answers
    {
      this.answers := answers;
      registeredWakeLock, wakeLockSet, refWakeLock := false, false, 0;
      requests, calls, trace := [], 0, [];
    }

    method CallService(acquire: bool) returns (ok: bool)
      modifies `calls, `trace
      ensures ok == answers(old(calls)) && calls == old(calls) + 1
      ensures trace == old(trace) + [Call(acquire, ok)]
    {
      ok := answers(calls);
      calls := calls + 1;
      trace := trace + [Call(acquire, ok)];
    }

    method SetWakeLock(acquire: bool, force: bool)
      requires Valid()
      modifies this
      ensures Valid() && State() == old(State()).Handle(if acquire then SetLock else ClearLock(force), answers)
    {
      if !registeredWakeLock {
        return;
      }
      requests := requests + [if acquire then SetLock else ClearLock(force)];
      if acquire {
        refWakeLock := refWakeLock + 1;
      } else {
        refWakeLock := refWakeLock - 1;
        refWakeLock := if refWakeLock < 0 then 0 else refWakeLock;
      }
      if wakeLockSet == acquire {
        return;
      }
      if !acquire && force {
        refWakeLock := 0;
      }
      if !acquire && refWakeLock > 0 {
        return;
      }
      var ok := CallService(acquire);
      if ok {
        wakeLockSet := acquire;
      }
    }

    /** cbPowerdUp when the service has gone. */
    method PowerdDown()
      requires Valid()
      modifies this
      ensures Valid() && State() == old(State()).Step(Disconnected, answers)
    {
      registeredWakeLock := false;
      wakeLockSet := false;
      refWakeLock := 0;
      requests := [];
      trace := trace + [ServiceGone];
    }

    method CbRegisterWakeLock(success: bool)
      requires Valid()
      modifies `registeredWakeLock
      ensures Valid() && State() == old(State()).Step(RegisterReply(success), answers)
    {
      if success {
        registeredWakeLock := true;
      }
    }
  }
}
