/** The GNSS thread and its mailbox. Several callers put an action into one field and signal;
    the thread takes what is there when it gets the mutex. Every section that holds the
    mutex is one step, so a run is any interleaving of such sections.

    The posts, which of them the thread took and which were overwritten first, the actions
    it executed, and the calls made to the HAL and to the WAN interface are kept as histories.
 */
module GnssThread {
  import opened Common

  /** FailAtl and NiNotify are handled by the thread, but nobody posts them. */
  datatype Action = OpenAtl | CloseAtl | FailAtl | NiNotify | XtraDataReady | XtraTimeReady | Quit

  datatype ConnectionState = Idle | Open | Closed | Failed

  datatype Info = Info(available: bool, apn: string, bearerType: int)

  datatype Time = Time(utcTime: int, timeReference: int, uncertainty: int)

  /** A post, and what mXtraData and mXtraTime are after it. */
  datatype Posted = Posted(action: Action, data: seq<int>, time: Time)

  datatype Entry =
    | NetworkUp(info: Info)       // updateNetworkAvailablity
    | NetworkDown                 // no call; the network is recorded as gone
    | DataConnOpen(info: Info)
    | DataConnClosed
    | DataConnFailed
    | WanConnect
    | WanDisconnect
    | InjectData(data: seq<int>)
    | InjectTime(time: Time)

  datatype AgpsStatus = RequestDataConn | ReleaseDataConn | OtherStatus

  datatype Event =
    | NetworkState(available: int, apn: string, bearerType: int)
    | Agps(status: AgpsStatus)
    | XtraData(data: seq<int>)
    | XtraTime(time: Time)
    | Shutdown
    | Section(service: bool)

  datatype Mailbox = Mailbox(
    slot: Option<Action>, network: Info, conn: ConnectionState, data: seq<int>, time: Time, ended: bool,
    posts: seq<Posted>, pending: Option<nat>, taken: seq<nat>, lost: seq<nat>,
    executed: seq<Action>, trace: seq<Entry>)
  {
    function Put(action: Action): Mailbox {
      this.(slot := Some(action), posts := posts + [Posted(action, data, time)], pending := Some(|posts|),
            lost := if pending.Some? then lost + [pending.value] else lost)
    }

    function Note(e: Entry): Mailbox {
      this.(trace := trace + [e])
    }

    function UpdateNetworkState(available: int, apn: string, bearerType: int): Mailbox {
      if available == 1 && !network.available then
        var info := Info(true, if apn != "" then apn else network.apn, bearerType);
        var m := this.(network := info).Note(NetworkUp(info));
        if conn == Idle || conn == Failed then m.Put(OpenAtl) else m
      else if available == 0 && network.available then
        var m := this.(network := network.(available := false)).Note(NetworkDown);
        if conn == Open then m.Put(CloseAtl) else m
      else this
    }

    function AgpsStatusCb(status: AgpsStatus): Mailbox {
      match status
      case RequestDataConn => Put(OpenAtl)
      case ReleaseDataConn => Put(CloseAtl)
      case OtherStatus => this
    }

    function XtraDataCb(bytes: seq<int>): Mailbox {
      this.(data := if bytes != [] then bytes else data).Put(XtraDataReady)
    }

    function XtraTimeCb(t: Time): Mailbox {
      this.(time := t).Put(XtraTimeReady)
    }

    /** What the thread does for the action in the slot. */
    function Execute(service: bool): Mailbox
      requires slot.Some?
    {
      var m := this.(executed := executed + [slot.value]);
      match slot.value
      case OpenAtl =>
        if network.available then m.(conn := Open).Note(DataConnOpen(network))
        else if service then m.(conn := Idle).Note(WanConnect)
        else m
      case CloseAtl =>
        if network.available then m.Note(WanDisconnect)
        else m.(conn := Closed).Note(DataConnClosed)
      case FailAtl => m.(conn := Failed).Note(DataConnFailed)
      case NiNotify => m
      case XtraDataReady => m.Note(InjectData(data))
      case XtraTimeReady => m.Note(InjectTime(time))
      case Quit => m
    }

    /** The thread has the mutex: it takes the action, if there is one, and waits again. */
    function Take(service: bool): Mailbox {
      if ended || slot.None? then this
      else
        var m := Execute(service);
        m.(slot := if slot == Some(Quit) then slot else None, ended := slot == Some(Quit),
           taken := if pending.Some? then taken + [pending.value] else taken, pending := None)
    }

    function Step(e: Event): Mailbox {
      match e
      case NetworkState(available, apn, bearerType) => UpdateNetworkState(available, apn, bearerType)
      case Agps(status) => AgpsStatusCb(status)
      case XtraData(bytes) => XtraDataCb(bytes)
      case XtraTime(t) => XtraTimeCb(t)
      case Shutdown => Put(Quit)
      case Section(service) => Take(service)
    }
  }

  function Initial(): Mailbox {
    Mailbox(None, Info(false, "", 0), Idle, [], Time(0, 0, 0), false, [], None, [], [], [], [])
  }

  function Run(m: Mailbox, events: seq<Event>): Mailbox {
    if events == [] then m
    else Run(m, events[..|events| - 1]).Step(events[|events| - 1])
  }

  ghost predicate Increasing(s: seq<nat>, bound: int) {
    && (forall i, j :: 0 <= i < j < |s| ==> s[i] < s[j])
    && (forall i :: 0 <= i < |s| ==> s[i] < bound)
  }

  ghost predicate ExactlyOne(a: bool, b: bool, c: bool) {
    (a || b || c) && !(a && b) && !(b && c) && !(a && c)
  }

  /** Every post is in one place: taken by the thread, overwritten before that, or in the
      slot, where only the last one can be. */
  ghost predicate Partition(m: Mailbox) {
    && Increasing(m.taken, |m.posts|) && Increasing(m.lost, |m.posts| - 1)
    && (m.pending.Some? ==> m.pending.value == |m.posts| - 1)
    && (forall i: nat :: i < |m.posts| ==> ExactlyOne(i in m.taken, i in m.lost, m.pending == Some(i)))
  }

  ghost predicate SlotOk(m: Mailbox) {
    && (m.slot.Some? <==> m.pending.Some? || m.ended)
    && (m.pending.Some? && m.pending.value < |m.posts| && m.slot.Some? ==>
          m.posts[m.pending.value] == Posted(m.slot.value, m.data, m.time))
  }

  /** What the thread executed is, one by one, what the posts it took ask for. */
  ghost predicate AsPosted(executed: seq<Action>, posts: seq<Posted>, taken: seq<nat>) {
    && |executed| == |taken|
    && forall k :: 0 <= k < |taken| ==> taken[k] < |posts| && executed[k] == posts[taken[k]].action
  }

  ghost predicate ExecutedOk(m: Mailbox) {
    AsPosted(m.executed, m.posts, m.taken)
  }

  lemma AsPostedSnoc(executed: seq<Action>, posts: seq<Posted>, taken: seq<nat>, i: nat)
    requires AsPosted(executed, posts, taken) && i < |posts|
    ensures AsPosted(executed + [posts[i].action], posts, taken + [i])
  {
  }

  lemma ExecuteHistories(m: Mailbox, service: bool)
    requires m.slot.Some?
    ensures var n := m.Execute(service);
            n.executed == m.executed + [m.slot.value] && n.posts == m.posts && n.taken == m.taken && n.pending == m.pending
  {
  }

  lemma TakeExecutes(m: Mailbox, service: bool)
    requires ExecutedOk(m) && SlotOk(m) && Partition(m)
    ensures ExecutedOk(m.Take(service))
  {
    if !m.ended && m.slot.Some? {
      ExecuteHistories(m, service);
      AsPostedSnoc(m.executed, m.posts, m.taken, m.pending.value);
    }
  }

  lemma AsPostedMore(executed: seq<Action>, posts: seq<Posted>, taken: seq<nat>, p: Posted)
    requires AsPosted(executed, posts, taken)
    ensures AsPosted(executed, posts + [p], taken)
  {
  }

  lemma PutExecuted(m: Mailbox, action: Action)
    requires ExecutedOk(m)
    ensures ExecutedOk(m.Put(action))
  {
    AsPostedMore(m.executed, m.posts, m.taken, Posted(action, m.data, m.time));
  }

  lemma PutKeeps(m: Mailbox, action: Action)
    requires Partition(m)
    ensures Partition(m.Put(action)) && SlotOk(m.Put(action))
  {
    var n := m.Put(action);
    forall i: nat | i < |n.posts|
      ensures ExactlyOne(i in n.taken, i in n.lost, n.pending == Some(i))
    {
      assert i < |m.posts| ==> ExactlyOne(i in m.taken, i in m.lost, m.pending == Some(i));
    }
  }

  lemma {:induction false} TakeKeeps(m: Mailbox, service: bool)
    requires Partition(m) && SlotOk(m)
    ensures Partition(m.Take(service)) && SlotOk(m.Take(service))
  {
    var n := m.Take(service);
    forall i: nat | i < |n.posts|
      ensures ExactlyOne(i in n.taken, i in n.lost, n.pending == Some(i))
    {
      assert ExactlyOne(i in m.taken, i in m.lost, m.pending == Some(i));
    }
  }

  // What the calls in the trace say.

  /** The network as it was last recorded. */
  function NetworkAfter(trace: seq<Entry>): Info {
    if trace == [] then Info(false, "", 0)
    else match trace[|trace| - 1]
      case NetworkUp(info) => info
      case NetworkDown => NetworkAfter(trace[..|trace| - 1]).(available := false)
      case _ => NetworkAfter(trace[..|trace| - 1])
  }

  predicate AvailableAfter(trace: seq<Entry>) {
    NetworkAfter(trace).available
  }

  /** The state of the data connection that the calls made have led to: what the HAL was told
      last, or idle after the connection was left to the WAN interface. */
  function ConnAfter(trace: seq<Entry>): ConnectionState {
    if trace == [] then Idle
    else match trace[|trace| - 1]
      case DataConnOpen(_) => Open
      case DataConnClosed => Closed
      case DataConnFailed => Failed
      case WanConnect => Idle
      case _ => ConnAfter(trace[..|trace| - 1])
  }

  /** A data connection is opened only while the network is recorded as available, and with
      what was recorded of it; it is closed only while the network is not. */
  ghost predicate Guarded(trace: seq<Entry>) {
    forall i :: 0 <= i < |trace| ==>
      && (trace[i].DataConnOpen? ==> AvailableAfter(trace[..i]) && trace[i].info == NetworkAfter(trace[..i]))
      && (trace[i].DataConnClosed? ==> !AvailableAfter(trace[..i]))
  }

  /** The assistance data and times injected, in order. */
  function Injected(trace: seq<Entry>): seq<Entry> {
    if trace == [] then []
    else
      var last := trace[|trace| - 1];
      Injected(trace[..|trace| - 1]) + if last.InjectData? || last.InjectTime? then [last] else []
  }

  /** What the posts taken should inject: each what it was posted with. */
  function ToInject(posts: seq<Posted>, taken: seq<nat>): seq<Entry>
    requires forall i :: 0 <= i < |taken| ==> taken[i] < |posts|
  {
    if taken == [] then []
    else
      var p := posts[taken[|taken| - 1]];
      ToInject(posts, taken[..|taken| - 1]) +
      match p.action
      case XtraDataReady => [InjectData(p.data)]
      case XtraTimeReady => [InjectTime(p.time)]
      case _ => []
  }

  lemma {:induction false} ToInjectMore(posts: seq<Posted>, p: Posted, taken: seq<nat>)
    requires forall i :: 0 <= i < |taken| ==> taken[i] < |posts|
    ensures ToInject(posts + [p], taken) == ToInject(posts, taken)
  {
    if taken == [] {
    } else {
      ToInjectMore(posts, p, taken[..|taken| - 1]);
    }
  }

  ghost predicate TraceOk(m: Mailbox) {
    && Guarded(m.trace) && NetworkAfter(m.trace) == m.network && ConnAfter(m.trace) == m.conn
    && (forall i :: 0 <= i < |m.taken| ==> m.taken[i] < |m.posts|)
    && Injected(m.trace) == ToInject(m.posts, m.taken)
  }

  lemma NoteKeeps(m: Mailbox, e: Entry)
    requires Guarded(m.trace)
    requires e.DataConnOpen? ==> AvailableAfter(m.trace) && e.info == NetworkAfter(m.trace)
    requires e.DataConnClosed? ==> !AvailableAfter(m.trace)
    ensures Guarded(m.Note(e).trace)
    ensures NetworkAfter(m.Note(e).trace) ==
            if e.NetworkUp? then e.info
            else if e.NetworkDown? then NetworkAfter(m.trace).(available := false) else NetworkAfter(m.trace)
    ensures ConnAfter(m.Note(e).trace) ==
            if e.DataConnOpen? then Open else if e.DataConnClosed? then Closed
            else if e.DataConnFailed? then Failed else if e.WanConnect? then Idle else ConnAfter(m.trace)
    ensures Injected(m.Note(e).trace) == Injected(m.trace) + if e.InjectData? || e.InjectTime? then [e] else []
  {
    var trace := m.Note(e).trace;
    assert trace[..|m.trace|] == m.trace;
    forall i | 0 <= i < |m.trace|
      ensures trace[..i] == m.trace[..i]
    {
    }
  }

  lemma PutTrace(m: Mailbox, action: Action)
    requires TraceOk(m)
    ensures TraceOk(m.Put(action))
  {
    ToInjectMore(m.posts, Posted(action, m.data, m.time), m.taken);
  }

  lemma {:induction false} ExecuteTrace(m: Mailbox, service: bool)
    requires Guarded(m.trace) && NetworkAfter(m.trace) == m.network && ConnAfter(m.trace) == m.conn && m.slot.Some?
    ensures var n := m.Execute(service);
            && Guarded(n.trace) && NetworkAfter(n.trace) == n.network && ConnAfter(n.trace) == n.conn
            && Injected(n.trace) == Injected(m.trace) +
               (if m.slot.value == XtraDataReady then [InjectData(m.data)]
                else if m.slot.value == XtraTimeReady then [InjectTime(m.time)] else [])
  {
    match m.slot.value {
      case OpenAtl => NoteKeeps(m, if m.network.available then DataConnOpen(m.network) else WanConnect);
      case CloseAtl => NoteKeeps(m, if m.network.available then WanDisconnect else DataConnClosed);
      case FailAtl => NoteKeeps(m, DataConnFailed);
      case XtraDataReady => NoteKeeps(m, InjectData(m.data));
      case XtraTimeReady => NoteKeeps(m, InjectTime(m.time));
      case _ =>
    }
  }

  lemma {:induction false} TakeTrace(m: Mailbox, service: bool)
    requires TraceOk(m) && Partition(m) && SlotOk(m)
    ensures TraceOk(m.Take(service))
  {
    if !m.ended && m.slot.Some? {
      ExecuteTrace(m, service);
      var n := m.Take(service);
      assert n.taken[..|n.taken| - 1] == m.taken;
    }
  }

  ghost predicate Inv(m: Mailbox) {
    Partition(m) && SlotOk(m) && ExecutedOk(m) && TraceOk(m)
  }

  /** What a post says may have just been written. */
  lemma PutKeepsInv(m: Mailbox, action: Action)
    requires Partition(m) && ExecutedOk(m) && TraceOk(m)
    ensures Inv(m.Put(action))
  {
    PutKeeps(m, action);
    PutExecuted(m, action);
    PutTrace(m, action);
  }

  lemma NetworkUpKeeps(m: Mailbox, info: Info)
    requires Inv(m) && info.available
    ensures Inv(m.(network := info).Note(NetworkUp(info)))
  {
    NoteKeeps(m, NetworkUp(info));
  }

  lemma NetworkDownKeeps(m: Mailbox)
    requires Inv(m)
    ensures Inv(m.(network := m.network.(available := false)).Note(NetworkDown))
  {
    NoteKeeps(m, NetworkDown);
  }

  lemma NetworkStateKeeps(m: Mailbox, available: int, apn: string, bearerType: int)
    requires Inv(m)
    ensures Inv(m.UpdateNetworkState(available, apn, bearerType))
  {
    if available == 1 && !m.network.available {
      var info := Info(true, if apn != "" then apn else m.network.apn, bearerType);
      var n := m.(network := info).Note(NetworkUp(info));
      NetworkUpKeeps(m, info);
      PutKeepsInv(n, OpenAtl);
    } else if available == 0 && m.network.available {
      var n := m.(network := m.network.(available := false)).Note(NetworkDown);
      NetworkDownKeeps(m);
      PutKeepsInv(n, CloseAtl);
    }
  }

  lemma StepKeeps(m: Mailbox, e: Event)
    requires Inv(m)
    ensures Inv(m.Step(e))
  {
    if e.Section? {
      TakeKeeps(m, e.service);
      TakeExecutes(m, e.service);
      TakeTrace(m, e.service);
    } else if e.NetworkState? {
      NetworkStateKeeps(m, e.available, e.apn, e.bearerType);
    } else {
      var n := if e.XtraData? && e.data != [] then m.(data := e.data) else if e.XtraTime? then m.(time := e.time) else m;
      var action := if e.XtraData? then XtraDataReady else if e.XtraTime? then XtraTimeReady
                    else if e.Shutdown? then Quit else if e.status == RequestDataConn then OpenAtl else CloseAtl;
      PutKeepsInv(n, action);
    }
  }

  lemma {:induction false} RunKeeps(events: seq<Event>)
    ensures Inv(Run(Initial(), events))
  {
    if events == [] {
    } else {
      RunKeeps(events[..|events| - 1]);
      StepKeeps(Run(Initial(), events[..|events| - 1]), events[|events| - 1]);
    }
  }

  // The main results.

  /** In every run the actions the thread executes are those of the posts it takes; it takes
      posts in their order and none twice; each post is taken, or overwritten before the
      thread had the mutex, or still in the slot; and when the slot is empty the last post
      has been taken. */
  lemma EveryPostHasOneFate(events: seq<Event>)
    ensures var m := Run(Initial(), events);
            && (forall i, j :: 0 <= i < j < |m.taken| ==> m.taken[i] < m.taken[j])
            && (forall i: nat :: i < |m.posts| ==> ExactlyOne(i in m.taken, i in m.lost, m.pending == Some(i)))
            && (m.slot == None && m.posts != [] ==> |m.posts| - 1 in m.taken)
            && |m.executed| == |m.taken|
            && (forall k :: 0 <= k < |m.taken| ==>
                  m.taken[k] < |m.posts| && m.executed[k] == m.posts[m.taken[k]].action)
  {
    RunKeeps(events);
    var m := Run(Initial(), events);
    if m.slot == None && m.posts != [] {
      assert ExactlyOne(|m.posts| - 1 in m.taken, |m.posts| - 1 in m.lost, m.pending == Some((|m.posts| - 1) as nat));
    }
  }

  /** What decides: a post is lost only by another post before the thread's next section. */
  lemma FateOfPending(m: Mailbox, e: Event, i: nat)
    requires Inv(m) && m.pending == Some(i) && !m.ended
    ensures var n := m.Step(e);
            if e.Section? then i in n.taken && n.pending == None && (n.ended <==> m.slot == Some(Quit))
            else if n.posts != m.posts then i in n.lost && n.pending == Some(i + 1)
            else n.pending == Some(i)
  {
    assert (m.lost + [i])[|m.lost|] == i && (m.taken + [i])[|m.taken|] == i;
  }

  /** What the thread injects is, in order, what the posts it took were made with; a data
      connection is opened only while the network is recorded as available and closed
      only while it is not. */
  lemma CallsAreGuarded(events: seq<Event>)
    ensures var m := Run(Initial(), events);
            && (forall i :: 0 <= i < |m.taken| ==> m.taken[i] < |m.posts|)
            && Injected(m.trace) == ToInject(m.posts, m.taken)
            && Guarded(m.trace) && NetworkAfter(m.trace) == m.network && ConnAfter(m.trace) == m.conn
  {
    RunKeeps(events);
  }

  /** The calls a section makes for the action it takes: an open opens the connection with
      what is recorded of the network or, if there is none, goes to the WAN interface if
      that has service; a close is told the WAN interface while there is a network, and
      the HAL otherwise. */
  function CallsFor(action: Action, network: Info, service: bool, data: seq<int>, time: Time): seq<Entry> {
    match action
    case OpenAtl => if network.available then [DataConnOpen(network)] else if service then [WanConnect] else []
    case CloseAtl => if network.available then [WanDisconnect] else [DataConnClosed]
    case FailAtl => [DataConnFailed]
    case XtraDataReady => [InjectData(data)]
    case XtraTimeReady => [InjectTime(time)]
    case _ => []
  }

  /** The calls made when the network is reported: the HAL hears of a network that has come,
      with its own name or else the one recorded before. */
  function ReportFor(was: Info, available: int, apn: string, bearerType: int): seq<Entry> {
    if available == 1 && !was.available then [NetworkUp(Info(true, if apn != "" then apn else was.apn, bearerType))]
    else if available == 0 && was.available then [NetworkDown]
    else []
  }

  /** What an event asks the thread for, as the calls made so far have it. */
  function Requested(trace: seq<Entry>, e: Event): Option<Action> {
    match e
    case NetworkState(available, _, _) =>
      if available == 1 && !AvailableAfter(trace) && (ConnAfter(trace) == Idle || ConnAfter(trace) == Failed) then Some(OpenAtl)
      else if available == 0 && AvailableAfter(trace) && ConnAfter(trace) == Open then Some(CloseAtl)
      else None
    case Agps(RequestDataConn) => Some(OpenAtl)
    case Agps(ReleaseDataConn) => Some(CloseAtl)
    case Agps(OtherStatus) => None
    case XtraData(_) => Some(XtraDataReady)
    case XtraTime(_) => Some(XtraTimeReady)
    case Shutdown => Some(Quit)
    case Section(_) => None
  }

  function DataSaid(e: Event): Option<seq<int>> {
    if e.XtraData? && e.data != [] then Some(e.data) else None
  }

  function TimeSaid(e: Event): Option<Time> {
    if e.XtraTime? then Some(e.time) else None
  }

  lemma AssistanceStep(m: Mailbox, e: Event)
    ensures m.Step(e).data == DataSaid(e).GetOr(m.data)
    ensures m.Step(e).time == TimeSaid(e).GetOr(m.time)
  {
  }

  /** In every run the assistance data and time are those that came last. */
  lemma {:induction false} AssistanceIsLatest(events: seq<Event>)
    ensures var m := Run(Initial(), events);
            m.data == Latest(events, DataSaid, []) && m.time == Latest(events, TimeSaid, Time(0, 0, 0))
  {
    if events == [] {
    } else {
      AssistanceIsLatest(events[..|events| - 1]);
      AssistanceStep(Run(Initial(), events[..|events| - 1]), events[|events| - 1]);
    }
  }

  /** In every run an event posts exactly what it asks for, with the latest assistance data
      and time, ... */
  lemma {:induction false} PostsExactly(events: seq<Event>, e: Event)
    ensures var m, n := Run(Initial(), events), Run(Initial(), events).Step(e);
            var (data, time) := (Latest(events + [e], DataSaid, []), Latest(events + [e], TimeSaid, Time(0, 0, 0)));
            n.posts == m.posts + match Requested(m.trace, e) case None => [] case Some(a) => [Posted(a, data, time)]
  {
    RunKeeps(events);
    assert (events + [e])[..|events|] == events;
    AssistanceIsLatest(events + [e]);
    PostsStep(Run(Initial(), events), e);
  }

  lemma PostsStep(m: Mailbox, e: Event)
    requires TraceOk(m)
    ensures var n := m.Step(e);
            n.posts == m.posts + match Requested(m.trace, e) case None => [] case Some(a) => [Posted(a, n.data, n.time)]
  {
  }

  lemma ExecuteCalls(m: Mailbox, service: bool)
    requires m.slot.Some?
    ensures m.Execute(service).trace == m.trace + CallsFor(m.slot.value, m.network, service, m.data, m.time)
  {
  }

  function DueCalls(m: Mailbox, service: bool): seq<Entry> {
    if m.ended || m.slot.None? then [] else CallsFor(m.slot.value, m.network, service, m.data, m.time)
  }

  lemma SectionCalls(m: Mailbox, service: bool)
    ensures m.Take(service).trace == m.trace + DueCalls(m, service)
  {
    if m.slot.Some? {
      ExecuteCalls(m, service);
    }
  }

  lemma OtherCalls(m: Mailbox, e: Event)
    requires !e.Section?
    ensures m.Step(e).trace ==
            m.trace + if e.NetworkState? then ReportFor(m.network, e.available, e.apn, e.bearerType) else []
  {
  }

  /** ... and makes exactly the calls that the network and the action taken are due. */
  lemma {:induction false} CallsExactly(events: seq<Event>, e: Event)
    ensures var m, n := Run(Initial(), events), Run(Initial(), events).Step(e);
            n.trace == m.trace +
            match e
            case NetworkState(available, apn, bearerType) => ReportFor(NetworkAfter(m.trace), available, apn, bearerType)
            case Section(service) =>
              if m.ended || m.slot.None? then []
              else CallsFor(m.slot.value, NetworkAfter(m.trace), service, Latest(events, DataSaid, []), Latest(events, TimeSaid, Time(0, 0, 0)))
            case _ => []
  {
    RunKeeps(events);
    AssistanceIsLatest(events);
    if e.Section? {
      SectionCalls(Run(Initial(), events), e.service);
    } else {
      OtherCalls(Run(Initial(), events), e);
    }
  }

  /** A post of `action` was overwritten before the thread had the mutex. */
  ghost predicate Lost(posts: seq<Posted>, lost: seq<nat>, action: Action) {
    exists k :: 0 <= k < |lost| && lost[k] < |posts| && posts[lost[k]].action == action
  }

  predicate Waits(m: Mailbox, action: Action) {
    m.pending.Some? && m.slot == Some(action)
  }

  /** An open connection without a network has its close posted, and an idle one with a
      network its open, unless that post is lost. Of a closed one nothing is said. */
  ghost predicate ConnectionOk(m: Mailbox) {
    && m.conn != Failed && m.slot != Some(FailAtl)
    && (m.conn == Open && !m.network.available ==> Lost(m.posts, m.lost, CloseAtl) || Waits(m, CloseAtl))
    && (m.conn == Idle && m.network.available ==> Lost(m.posts, m.lost, OpenAtl) || Waits(m, OpenAtl))
  }

  lemma LostMore(m: Mailbox, action: Action)
    requires SlotOk(m) && Partition(m)
    ensures var n := m.Put(action);
            forall a: Action :: Lost(m.posts, m.lost, a) || Waits(m, a) ==> Lost(n.posts, n.lost, a)
  {
    var n := m.Put(action);
    forall a: Action | Lost(m.posts, m.lost, a) || Waits(m, a)
      ensures Lost(n.posts, n.lost, a)
    {
      if Lost(m.posts, m.lost, a) {
        var k :| 0 <= k < |m.lost| && m.lost[k] < |m.posts| && m.posts[m.lost[k]].action == a;
        assert n.lost[k] == m.lost[k] && n.posts[m.lost[k]] == m.posts[m.lost[k]];
      } else {
        assert n.lost[|m.lost|] == m.pending.value && n.posts[m.pending.value] == m.posts[m.pending.value];
      }
    }
  }

  lemma ConnectionTake(m: Mailbox, service: bool)
    requires ConnectionOk(m)
    ensures ConnectionOk(m.Take(service))
  {
  }

  /** A post keeps it, and may be the one that is missing. */
  lemma ConnectionPut(m: Mailbox, action: Action)
    requires SlotOk(m) && Partition(m) && m.conn != Failed && action != FailAtl
    requires m.conn == Open && !m.network.available && action != CloseAtl ==>
               Lost(m.posts, m.lost, CloseAtl) || Waits(m, CloseAtl)
    requires m.conn == Idle && m.network.available && action != OpenAtl ==>
               Lost(m.posts, m.lost, OpenAtl) || Waits(m, OpenAtl)
    ensures ConnectionOk(m.Put(action))
  {
    LostMore(m, action);
  }

  lemma ConnectionUp(m: Mailbox, info: Info)
    requires ConnectionOk(m) && SlotOk(m) && Partition(m) && info.available
    ensures var n := m.(network := info).Note(NetworkUp(info));
            ConnectionOk(if m.conn == Idle || m.conn == Failed then n.Put(OpenAtl) else n)
  {
    if m.conn == Idle {
      ConnectionPut(m.(network := info).Note(NetworkUp(info)), OpenAtl);
    }
  }

  lemma ConnectionDown(m: Mailbox)
    requires ConnectionOk(m) && SlotOk(m) && Partition(m)
    ensures var n := m.(network := m.network.(available := false)).Note(NetworkDown);
            ConnectionOk(if m.conn == Open then n.Put(CloseAtl) else n)
  {
    if m.conn == Open {
      ConnectionPut(m.(network := m.network.(available := false)).Note(NetworkDown), CloseAtl);
    }
  }

  lemma ConnectionStep(m: Mailbox, e: Event)
    requires ConnectionOk(m) && SlotOk(m) && Partition(m)
    ensures ConnectionOk(m.Step(e))
  {
    if e.Section? {
      ConnectionTake(m, e.service);
    } else if e.NetworkState? {
      ConnectionUp(m, Info(true, if e.apn != "" then e.apn else m.network.apn, e.bearerType));
      ConnectionDown(m);
    } else if e.Agps? {
      ConnectionPut(m, if e.status == RequestDataConn then OpenAtl else CloseAtl);
    } else if e.Shutdown? {
      ConnectionPut(m, Quit);
    } else {
      ConnectionXtra(m, e);
    }
  }

  lemma ConnectionXtra(m: Mailbox, e: Event)
    requires ConnectionOk(m) && SlotOk(m) && Partition(m) && (e.XtraData? || e.XtraTime?)
    ensures ConnectionOk(m.Step(e))
  {
    var action := if e.XtraData? then XtraDataReady else XtraTimeReady;
    LostMore(m, action);
    assert m.Step(e).lost == m.Put(action).lost;
    var (was, now) := (m.Put(action).posts, m.Step(e).posts);
    assert |was| == |now| && forall i :: 0 <= i < |was| ==> was[i].action == now[i].action;
    SameLost(was, now, m.Put(action).lost);
  }

  lemma SameLost(was: seq<Posted>, now: seq<Posted>, lost: seq<nat>)
    requires |was| == |now| && forall i :: 0 <= i < |was| ==> was[i].action == now[i].action
    ensures forall a: Action :: Lost(was, lost, a) ==> Lost(now, lost, a)
  {
    forall a: Action | Lost(was, lost, a)
      ensures Lost(now, lost, a)
    {
      var k :| 0 <= k < |lost| && lost[k] < |was| && was[lost[k]].action == a;
      assert now[lost[k]].action == a;
    }
  }

  /** In every run, when the thread waits with an empty slot: a connection that is open
      without a network means that a close was lost, and one that is idle with a network
      that an open was lost. The failed state is never reached. A closed connection with a
      network needs no lost post: see below. */
  lemma {:induction false} ConnectionFollowsNetwork(events: seq<Event>)
    ensures var m := Run(Initial(), events);
            && ConnectionOk(m)
            && (m.slot == None && m.conn == Open && !m.network.available ==> Lost(m.posts, m.lost, CloseAtl))
            && (m.slot == None && m.conn == Idle && m.network.available ==> Lost(m.posts, m.lost, OpenAtl))
  {
    if events == [] {
    } else {
      ConnectionFollowsNetwork(events[..|events| - 1]);
      RunKeeps(events[..|events| - 1]);
      ConnectionStep(Run(Initial(), events[..|events| - 1]), events[|events| - 1]);
    }
  }

  // When the thread waits, connection and network can disagree in three ways. Each comes
  // about by exactly these steps.

  predicate OpenWithoutNetwork(m: Mailbox) {
    m.slot == None && m.conn == Open && !m.network.available
  }

  predicate IdleWithNetwork(m: Mailbox) {
    m.slot == None && m.conn == Idle && m.network.available
  }

  predicate ClosedWithNetwork(m: Mailbox) {
    m.slot == None && m.conn == Closed && m.network.available
  }

  /** The network is gone, the thread has the mutex, and what it finds is neither the close
      that was posted then, nor an open that goes to the WAN interface, nor quit. */
  lemma OpenWithoutNetworkExactly(m: Mailbox, e: Event)
    requires Inv(m) && ConnectionOk(m) && !OpenWithoutNetwork(m)
    ensures OpenWithoutNetwork(m.Step(e)) <==>
            && e.Section? && !m.ended && m.conn == Open && !m.network.available && m.slot.Some?
            && m.slot.value != CloseAtl && m.slot.value != Quit && (m.slot.value == OpenAtl ==> !e.service)
  {
  }

  /** The network has come, the thread has the mutex, and what it finds is neither the open
      that was posted then nor quit. */
  lemma IdleWithNetworkExactly(m: Mailbox, e: Event)
    requires Inv(m) && ConnectionOk(m) && !IdleWithNetwork(m)
    ensures IdleWithNetwork(m.Step(e)) <==>
            && e.Section? && !m.ended && m.conn == Idle && m.network.available && m.slot.Some?
            && m.slot.value != OpenAtl && m.slot.value != Quit
  {
  }

  /** The network comes back, which posts nothing for a closed connection, or the thread
      then finds anything but an open or quit. */
  lemma ClosedWithNetworkExactly(m: Mailbox, e: Event)
    requires Inv(m) && ConnectionOk(m) && !ClosedWithNetwork(m)
    ensures ClosedWithNetwork(m.Step(e)) <==>
            && m.conn == Closed
            && (|| (e.NetworkState? && e.available == 1 && !m.network.available && m.slot == None)
                || (e.Section? && !m.ended && m.network.available && m.slot.Some?
                    && m.slot.value != OpenAtl && m.slot.value != Quit))
  {
  }

  /** So a closed connection stays closed, whatever the network does, until the HAL asks for
      a data connection. */
  lemma {:induction false} ClosedUntilRequested(m: Mailbox, events: seq<Event>)
    requires m.conn == Closed && m.slot != Some(OpenAtl) && m.slot != Some(FailAtl)
    requires forall e :: e in events ==> e != Agps(RequestDataConn)
    ensures var n := Run(m, events);
            n.conn == Closed && n.slot != Some(OpenAtl) && n.slot != Some(FailAtl)
  {
    if events == [] {
    } else {
      var front, last := events[..|events| - 1], events[|events| - 1];
      assert forall e :: e in front ==> e in events;
      assert last in events;
      ClosedUntilRequested(m, front);
      ClosedStep(Run(m, front), last);
    }
  }

  lemma ClosedStep(m: Mailbox, e: Event)
    requires m.conn == Closed && m.slot != Some(OpenAtl) && m.slot != Some(FailAtl) && e != Agps(RequestDataConn)
    ensures var n := m.Step(e);
            n.conn == Closed && n.slot != Some(OpenAtl) && n.slot != Some(FailAtl)
  {
  }

  /** The run that shows it, with nothing lost: the network comes, goes and comes back. */
  lemma ReturningNetworkOpensNothing(s1: bool, s2: bool, s3: bool)
    ensures var m := Initial().Step(NetworkState(1, "", 0)).Step(Section(s1)).Step(NetworkState(0, "", 0))
                              .Step(Section(s2)).Step(NetworkState(1, "", 0)).Step(Section(s3));
            ClosedWithNetwork(m) && m.lost == []
  {
    var m := Initial().Step(NetworkState(1, "", 0)).Step(Section(s1));
    assert m.slot == None && m.pending == None && m.conn == Open && m.network.available && m.lost == [] && !m.ended;
    var n := m.Step(NetworkState(0, "", 0)).Step(Section(s2));
    assert n.slot == None && n.conn == Closed && !n.network.available && n.lost == [];
  }

  /** With a lost post: the close is overwritten by an assistance time, and the connection
      stays open without a network. */
  lemma LostCloseStaysOpen(t: Time)
    ensures var m := Initial().Step(NetworkState(1, "", 0)).Step(Section(true)).Step(NetworkState(0, "", 0))
                              .Step(XtraTime(t)).Step(Section(true));
            m.slot == None && m.conn == Open && !m.network.available && m.lost == [1]
  {
  }

  /** And shutdown's request to quit can be lost in the same way. */
  lemma LostQuitGoesOn(t: Time, service: bool)
    ensures !Initial().Step(Shutdown).Step(XtraTime(t)).Step(Section(service)).ended
    ensures Initial().Step(Shutdown).Step(Section(service)).ended
  {
  }

  /** The fields of the provider that the mutex guards, and the histories. */
  class GpsThread {
    var gpsThreadAction: Option<Action>
    var networkInfo: Info
    var dataConnectionState: ConnectionState
    var xtraData: seq<int>
    var xtraTime: Time
    var ended: bool
    var posts: seq<Posted>
    var pending: Option<nat>
    var taken: seq<nat>
    var lost: seq<nat>
    var executed: seq<Action>
    var trace: seq<Entry>

    function State(): Mailbox
      reads this
    {
      Mailbox(gpsThreadAction, networkInfo, dataConnectionState, xtraData, xtraTime, ended,
              posts, pending, taken, lost, executed, trace)
    }

    constructor ()
      ensures State() == Initial() && Inv(State())
    {
      gpsThreadAction, networkInfo, dataConnectionState := None, Info(false, "", 0), Idle;
      xtraData, xtraTime, ended := [], Time(0, 0, 0), false;
      posts, pending, taken, lost, executed, trace := [], None, [], [], [], [];
    }

    method Post(action: Action)
      modifies `gpsThreadAction, `posts, `pending, `lost
      ensures State() == old(State()).Put(action)
    {
      gpsThreadAction := Some(action);
      if pending.Some? {
        lost := lost + [pending.value];
      }
      pending := Some(|posts|);
      posts := posts + [Posted(action, xtraData, xtraTime)];
    }

    method UpdateNetworkState(available: int, apn: string, bearerType: int)
      requires Inv(State())
      modifies this
      ensures State() == old(State()).UpdateNetworkState(available, apn, bearerType) && Inv(State())
    {
      NetworkStateKeeps(State(), available, apn, bearerType);
      if available == 1 && !networkInfo.available {
        if apn != "" {
          networkInfo := networkInfo.(apn := apn);
        }
        networkInfo := networkInfo.(bearerType := bearerType, available := true);
        trace := trace + [NetworkUp(networkInfo)];
        if dataConnectionState == Idle || dataConnectionState == Failed {
          Post(OpenAtl);
        }
      } else if available == 0 && networkInfo.available {
        networkInfo := networkInfo.(available := false);
        trace := trace + [NetworkDown];
        if dataConnectionState == Open {
          Post(CloseAtl);
        }
      }
    }

    method AgpsStatusCb(status: AgpsStatus)
      requires Inv(State())
      modifies `gpsThreadAction, `posts, `pending, `lost
      ensures State() == old(State()).AgpsStatusCb(status) && Inv(State())
    {
      StepKeeps(State(), Agps(status));
      if status == RequestDataConn {
        Post(OpenAtl);
      } else if status == ReleaseDataConn {
        Post(CloseAtl);
      }
    }

    method XtraDataCb(bytes: seq<int>)
      requires Inv(State())
      modifies `xtraData, `gpsThreadAction, `posts, `pending, `lost
      ensures State() == old(State()).XtraDataCb(bytes) && Inv(State())
    {
      StepKeeps(State(), XtraData(bytes));
      if |bytes| > 0 {
        xtraData := bytes;
      }
      Post(XtraDataReady);
    }

    method XtraTimeCb(utcTime: int, timeReference: int, uncertainty: int)
      requires Inv(State())
      modifies `xtraTime, `gpsThreadAction, `posts, `pending, `lost
      ensures State() == old(State()).XtraTimeCb(Time(utcTime, timeReference, uncertainty)) && Inv(State())
    {
      StepKeeps(State(), XtraTime(Time(utcTime, timeReference, uncertainty)));
      xtraTime := Time(utcTime, timeReference, uncertainty);
      Post(XtraTimeReady);
    }

    method Shutdown()
      requires Inv(State())
      modifies `gpsThreadAction, `posts, `pending, `lost
      ensures State() == old(State()).Put(Quit) && Inv(State())
    {
      StepKeeps(State(), Event.Shutdown);
      Post(Quit);
    }

    /** The switch in gpsThreadProc; `service` is the WAN interface's status. */
    method Execute(service: bool)
      requires gpsThreadAction.Some?
      modifies `dataConnectionState, `executed, `trace
      ensures State() == old(State()).Execute(service)
    {
      executed := executed + [gpsThreadAction.value];
      match gpsThreadAction.value {
        case OpenAtl =>
          if networkInfo.available {
            trace := trace + [DataConnOpen(networkInfo)];
            dataConnectionState := Open;
          } else if service {
            dataConnectionState := Idle;
            trace := trace + [WanConnect];
          }
        case CloseAtl =>
          if networkInfo.available {
            trace := trace + [WanDisconnect];
          } else {
            trace := trace + [DataConnClosed];
            dataConnectionState := Closed;
          }
        case FailAtl =>
          trace := trace + [DataConnFailed];
          dataConnectionState := Failed;
        case XtraDataReady =>
          trace := trace + [InjectData(xtraData)];
        case XtraTimeReady =>
          trace := trace + [InjectTime(xtraTime)];
        case _ =>
      }
    }

    /** One turn of the loop in gpsThreadProc. */
    method Take(service: bool)
      modifies this
      ensures State() == old(State()).Take(service)
    {
      if ended || gpsThreadAction.None? {
        return;
      }
      Execute(service);
      if gpsThreadAction == Some(Quit) {
        ended := true;
      } else {
        gpsThreadAction := None;
      }
      taken := if pending.Some? then taken + [pending.value] else taken;
      pending := None;
    }

    method ThreadSection(service: bool)
      requires Inv(State())
      modifies this
      ensures State() == old(State()).Take(service) && Inv(State())
      ensures trace == old(trace) + DueCalls(old(State()), service)
    {
      ghost var m := State();
      StepKeeps(m, Section(service));
      Take(service);
      SectionCalls(m, service);
    }
  }
}
