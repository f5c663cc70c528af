/** The bookkeeping of subscribers: the subscription lists of the bus, the table of
    location requests with their response timers, and the replies sent.

    A message stands for its LSMessage pointer and for what its payload says. GLib source
    ids and TimerData objects are numbered in the order they are made, from one counter. The n-th reading of the wall
    clock is `clock(n)`, any numbers in any order.
 */
module Subscriptions {
  import opened Common

  datatype Key = NmeaKey | SatelliteKey | GpsKey | NetworkKey | HybridKey | PassiveKey

  datatype Api = GetNmeaData | GetGpsSatelliteData | GetLocationUpdates

  /** The "Handler" of a location request; `Unspecified` when the payload has none. */
  datatype Handler = Gps | Network | Hybrid | Passive | Unspecified | Unknown

  datatype Message = Message(
    id: nat, api: Api, subscription: bool, handler: Handler,
    responseTimeout: nat, minInterval: int, minDistance: int)

  datatype Coordinates = Coordinates(latitude: real, longitude: real)

  datatype Fix = Fix(at: Coordinates, timestamp: int, accuracy: real)

  datatype ReplyKind =
    | Refused                                                   // an error, from the request's own handler
    | Reading                                                   // to an NMEA or satellite request
    | Failure                                                   // an error sent to a location list
    | Located(time: int, at: Coordinates, accuracy: real)       // a position that met the criteria
    | TimedOut

  datatype Reply = Reply(to: Message, kind: ReplyKind)

  /** The wall clock and the distance function. */
  datatype World = World(clock: nat -> int, distance: (Coordinates, Coordinates) -> real)

  const MINIMAL_ACCURACY: real := 100.0
  const HYBRID_PATIENCE: int := 60000
  const NOWHERE := Coordinates(0.0, 0.0)

  datatype TimerData = TimerData(id: nat, message: Message, key: Key)

  /** A LocationUpdateRequest. */
  datatype Request = Request(
    requestTime: int, last: Coordinates, firstReply: bool, timerId: nat, timerData: Option<TimerData>)

  /** The request table, the armed GLib timeouts with their user data, and the TimerData
      objects deleted so far. */
  datatype Timers = Timers(
    table: map<Message, Request>, armed: map<nat, TimerData>, freed: seq<nat>, nextId: nat)
  {
    function ArmedWithout(m: Message): map<nat, TimerData>
      requires m in table
    {
      if table[m].timerId == 0 then armed else armed - {table[m].timerId}
    }

    function FreedWith(m: Message): seq<nat>
      requires m in table
    {
      if table[m].timerData.Some? then freed + [table[m].timerData.value.id] else freed
    }

    function RemoveTimer(m: Message): Timers {
      if m in table
      then Timers(table[m := table[m].(timerData := None)], ArmedWithout(m), FreedWith(m), nextId)
      else this
    }

    function RemoveRequest(m: Message): Timers {
      if m in table then Timers(table - {m}, ArmedWithout(m), FreedWith(m), nextId) else this
    }

    function Add(m: Message, key: Key, now: int): Timers {
      var data := TimerData(nextId, m, key);
      var timerId := if m.responseTimeout != 0 then nextId else 0;
      Timers(table[m := Request(now, NOWHERE, true, timerId, Some(data))],
             if m.responseTimeout != 0 then armed[timerId := data] else armed, freed, nextId + 1)
    }

    /** The source of a fired timeout is gone. */
    function Fired(timerId: nat): Timers {
      this.(armed := armed - {timerId})
    }

    function Answered(m: Message, now: int, at: Coordinates): Timers
      requires m in table
    {
      this.(table := table[m := table[m].(requestTime := now, last := at, firstReply := false)])
    }
  }

  type Lists = map<Key, seq<Message>>

  /** A key without an entry has an empty list. */
  function ListOf(lists: Lists, key: Key): seq<Message> {
    if key in lists then lists[key] else []
  }

  datatype Registry = Registry(
    lists: Lists, timers: Timers, log: seq<Reply>, readings: nat,
    seen: set<Message>, cancelled: set<Message>)
  {
    function List(key: Key): seq<Message> {
      ListOf(lists, key)
    }

    function WithList(key: Key, list: seq<Message>): Lists {
      lists[key := list]
    }

    /** LSMessageReplyLocUpdateCase. */
    function Answer(key: Key, m: Message, kind: ReplyKind): Registry {
      this.(lists := if m.subscription then lists else WithList(key, Without(List(key), m)),
            timers := if m.subscription then timers.RemoveTimer(m) else timers.RemoveRequest(m),
            log := log + [Reply(m, kind)])
    }

    /** One round of the loop for data that is not a position. */
    function Deliver(key: Key, m: Message): Registry {
      this.(lists := if m.subscription then lists else WithList(key, Without(List(key), m)),
            log := log + [Reply(m, Reading)])
    }

    function Meets(m: Message, fix: Fix, world: World): bool {
      m in timers.table &&
      MeetsCriteria(timers.table[m], m, fix, world.clock(readings), world)
    }

    /** One round of the location reply loop: `fix` is None when an error goes out. */
    function Consider(key: Key, m: Message, fix: Option<Fix>, world: World): Registry {
      if fix.None? then Answer(key, m, Failure)
      else if !Meets(m, fix.value, world) then this.(readings := readings + 1)
      else
        var now := world.clock(readings);
        this.(timers := timers.Answered(m, now, fix.value.at), readings := readings + 1)
        .Answer(key, m, Located(now, fix.value.at, fix.value.accuracy))
    }

    /** The location reply loop over the messages an iterator yields. */
    function ConsiderAll(key: Key, ms: seq<Message>, fix: Option<Fix>, world: World): Registry {
      if ms == [] then this
      else ConsiderAll(key, ms[..|ms| - 1], fix, world).Consider(key, ms[|ms| - 1], fix, world)
    }

    function DeliverAll(key: Key, ms: seq<Message>): Registry {
      if ms == [] then this
      else DeliverAll(key, ms[..|ms| - 1]).Deliver(key, ms[|ms| - 1])
    }

    /** The response timer `timerId` fires: reply, removal from the list the timer names, and
        the end of the source. */
    function TimeOut(timerId: nat): Registry
      requires timerId in timers.armed
    {
      var d := timers.armed[timerId];
      var listed := d.message in List(d.key);
      this.(lists := if listed then WithList(d.key, Without(List(d.key), d.message)) else lists,
            timers := (if listed then timers.RemoveRequest(d.message) else timers).Fired(timerId),
            log := log + [Reply(d.message, TimedOut)])
    }

    /** A request reaches the service for the first time and is refused at once. */
    function Refuse(m: Message): Registry {
      this.(seen := seen + {m}, log := log + [Reply(m, Refused)])
    }

    /** A request is entered into the table (location requests only) and added to a list,
        unless the bus fails to add it; a satellite request does not hear of that. */
    function Enter(m: Message, key: Key, added: bool, world: World): Registry {
      this.(lists := if added then WithList(key, List(key) + [m]) else lists,
            timers := if m.api == GetLocationUpdates
                      then timers.Add(m, key, world.clock(readings)) else timers,
            readings := if m.api == GetLocationUpdates then readings + 1 else readings,
            log := if added || m.api == GetGpsSatelliteData then log else log + [Reply(m, Refused)],
            seen := seen + {m})
    }

    /** The end of a cancel: a location request leaves the table, and after the cancel
        function has run the bus drops the message from its lists. */
    function Cancel(m: Message): Registry {
      this.(lists := map key | key in lists :: Without(lists[key], m),
            timers := if m.api == GetLocationUpdates then timers.RemoveRequest(m) else timers,
            cancelled := cancelled + {m})
    }
  }

  function MeetsCriteria(q: Request, m: Message, fix: Fix, now: int, world: World): bool {
    q.firstReply ||
    (fix.timestamp != 0 &&
     (m.minInterval > 0 ==> now - q.requestTime > m.minInterval) &&
     (m.minDistance > 0 ==> world.distance(fix.at, q.last) >= m.minDistance as real) &&
     (m.handler == Unspecified ==> now - q.requestTime > HYBRID_PATIENCE || fix.accuracy < MINIMAL_ACCURACY))
  }

  function Initial(): Registry {
    Registry(map[], Timers(map[], map[], [], 1), [], 0, {}, {})
  }

  // What the log of replies says.

  /** How often a request has been answered: with anything but its handler's own refusal. */
  function Answers(log: seq<Reply>, m: Message): nat {
    if log == [] then 0
    else
      var last := log[|log| - 1];
      Answers(log[..|log| - 1], m) + if last.to == m && last.kind != Refused then 1 else 0
  }

  /** Time and place of the latest position sent to `m`. */
  function LastLocated(log: seq<Reply>, m: Message): Option<(int, Coordinates)> {
    if log == [] then None
    else
      var last := log[|log| - 1];
      if last.to == m && last.kind.Located? then Some((last.kind.time, last.kind.at))
      else LastLocated(log[..|log| - 1], m)
  }

  /** All that was sent to `m`. */
  function To(log: seq<Reply>, m: Message): seq<ReplyKind> {
    if log == [] then []
    else
      var last := log[|log| - 1];
      To(log[..|log| - 1], m) + if last.to == m then [last.kind] else []
  }

  lemma LogSnoc(log: seq<Reply>, x: Reply, m: Message)
    ensures To(log + [x], m) == To(log, m) + if x.to == m then [x.kind] else []
    ensures Answers(log + [x], m) == Answers(log, m) + if x.to == m && x.kind != Refused then 1 else 0
    ensures LastLocated(log + [x], m) ==
            if x.to == m && x.kind.Located? then Some((x.kind.time, x.kind.at)) else LastLocated(log, m)
  {
    assert (log + [x])[..|log|] == log;
  }

  /** Answers are what was sent but for refusals. */
  lemma {:induction false} AnsweredIfTold(log: seq<Reply>, m: Message, kind: ReplyKind)
    requires kind in To(log, m) && kind != Refused
    ensures Answers(log, m) > 0
  {
    if log == [] {
    } else if kind in To(log[..|log| - 1], m) {
      AnsweredIfTold(log[..|log| - 1], m, kind);
    }
  }

  /** A position may follow the previous one to the same subscriber. */
  predicate MayFollow(previous: (int, Coordinates), next: Reply, world: World)
    requires next.kind.Located?
  {
    var m := next.to;
    && (m.minInterval > 0 ==> next.kind.time - previous.0 > m.minInterval)
    && (m.minDistance > 0 ==> world.distance(next.kind.at, previous.1) >= m.minDistance as real)
    && (m.handler == Unspecified ==>
          next.kind.time - previous.0 > HYBRID_PATIENCE || next.kind.accuracy < MINIMAL_ACCURACY)
  }

  /** A position comes after the one before it as it may, a time-out reply before any answer. */
  predicate MayCome(log: seq<Reply>, next: Reply, world: World) {
    && (next.kind.Located? && LastLocated(log, next.to).Some? ==>
          MayFollow(LastLocated(log, next.to).value, next, world))
    && (next.kind.TimedOut? ==> Answers(log, next.to) == 0)
  }

  ghost predicate Spaced(log: seq<Reply>, world: World) {
    forall i :: 0 <= i < |log| ==> MayCome(log[..i], log[i], world)
  }

  lemma SpacedSnoc(log: seq<Reply>, x: Reply, world: World)
    requires Spaced(log, world) && MayCome(log, x, world)
    ensures Spaced(log + [x], world)
  {
    var next := log + [x];
    assert next[..|log|] == log;
    forall i | 0 <= i < |next|
      ensures MayCome(next[..i], next[i], world)
    {
      if i < |log| {
        assert next[..i] == log[..i];
      }
    }
  }

  // What every step keeps.

  predicate IsLocationKey(key: Key) {
    key == GpsKey || key == NetworkKey || key == HybridKey || key == PassiveKey
  }

  predicate Serves(key: Key, api: Api) {
    match api
    case GetNmeaData => key == NmeaKey
    case GetGpsSatelliteData => key == SatelliteKey
    case GetLocationUpdates => IsLocationKey(key)
  }

  ghost predicate Distinct(lists: Lists) {
    forall key: Key :: NoDuplicates(ListOf(lists, key))
  }

  /** Each list names every message once, and no message is in two lists. */
  ghost predicate ListsOk(lists: Lists, seen: set<Message>) {
    && Distinct(lists)
    && (forall key: Key, m: Message :: m in ListOf(lists, key) ==> m in seen && Serves(key, m.api))
    && (forall k1: Key, k2: Key, m: Message :: m in ListOf(lists, k1) && m in ListOf(lists, k2) ==> k1 == k2)
  }

  /** An armed timeout is owned by the table entry of its message, with its TimerData alive. */
  ghost predicate ArmedOk(t: Timers, id: nat)
    requires id in t.armed
  {
    var d := t.armed[id];
    id != 0 && d.message in t.table && t.table[d.message].timerId == id && t.table[d.message].timerData == Some(d)
  }

  /** A TimerData an entry holds is alive, and no other entry holds it. */
  ghost predicate HeldOk(t: Timers, m: Message)
    requires m in t.table
  {
    var q := t.table[m];
    && q.timerId < t.nextId
    && (q.timerData.Some? ==>
          q.timerData.value.message == m && 0 < q.timerData.value.id < t.nextId && q.timerData.value.id !in t.freed)
  }

  /** No two entries share a source or a TimerData. */
  predicate Apart(q1: Request, q2: Request) {
    && (q1.timerId == 0 || q1.timerId != q2.timerId)
    && (q1.timerData.None? || q2.timerData.None? || q1.timerData.value.id != q2.timerData.value.id)
  }

  ghost predicate TimersFit(t: Timers) {
    && (forall id: nat :: id in t.armed ==> ArmedOk(t, id))
    && (forall m: Message :: m in t.table ==> HeldOk(t, m))
    && (forall m1: Message, m2: Message :: m1 in t.table && m2 in t.table && m1 != m2 ==>
          Apart(t.table[m1], t.table[m2]))
    && (forall id: nat :: id in t.freed ==> 0 < id < t.nextId)
    && NoDuplicates(t.freed)
    && t.nextId > 0
  }

  /** An entry holds the TimerData with this number. */
  ghost predicate Held(t: Timers, id: nat) {
    exists m: Message :: m in t.table && Holds(t.table[m], id)
  }

  predicate Holds(q: Request, id: nat) {
    q.timerData.Some? && q.timerData.value.id == id
  }

  /** Every TimerData ever made is deleted or held. */
  ghost predicate NoneLeaked(t: Timers) {
    forall id: nat :: 0 < id < t.nextId && id !in t.freed ==> Held(t, id)
  }

  ghost predicate TimersOk(t: Timers) {
    TimersFit(t) && NoneLeaked(t)
  }

  /** Of the timeouts armed in `was`, exactly that of `m` is no longer armed. */
  ghost predicate ArmedFor(now: Timers, was: Timers, m: Message) {
    && (forall id: nat :: id in now.armed ==> id in was.armed && now.armed[id] == was.armed[id] && was.armed[id].message != m)
    && (forall id: nat :: id in was.armed && was.armed[id].message != m ==> id in now.armed)
  }

  /** Disarming the timeout of `m` leaves exactly those of other messages. */
  lemma ArmedLeft(t: Timers, m: Message)
    requires TimersFit(t)
    ensures forall id: nat :: id in t.armed ==>
              ArmedOk(t, id) && (t.armed[id].message == m <==> m in t.table && t.table[m].timerId == id)
  {
    forall id: nat | id in t.armed
      ensures ArmedOk(t, id) && (t.armed[id].message == m <==> m in t.table && t.table[m].timerId == id)
    {
      assert ArmedOk(t, id);
      assert m in t.table && t.armed[id].message != m ==> Apart(t.table[m], t.table[t.armed[id].message]);
    }
  }

  /** What was held and is not deleted is held by the same entry, or by one made since. */
  lemma StillHeld(s: Timers, t: Timers)
    requires NoneLeaked(t)
    requires forall id: nat :: id in t.freed ==> id in s.freed
    requires forall m: Message, id: nat :: m in t.table && Holds(t.table[m], id) ==>
               id in s.freed || (m in s.table && Holds(s.table[m], id))
    requires forall id: nat :: t.nextId <= id < s.nextId ==> Held(s, id)
    ensures NoneLeaked(s)
  {
    forall id: nat | 0 < id < s.nextId && id !in s.freed
      ensures Held(s, id)
    {
      if id < t.nextId {
        assert Held(t, id);
        var m :| m in t.table && Holds(t.table[m], id);
      }
    }
  }

  lemma RemoveTimerFits(t: Timers, m: Message)
    requires TimersFit(t)
    ensures TimersFit(t.RemoveTimer(m))
  {
    ArmedLeft(t, m);
  }

  lemma RemoveArmed(t: Timers, m: Message)
    requires TimersFit(t)
    ensures ArmedFor(t.RemoveTimer(m), t, m)
    ensures ArmedFor(t.RemoveRequest(m), t, m)
  {
    ArmedLeft(t, m);
  }

  lemma RemoveTimerKeeps(t: Timers, m: Message)
    requires TimersOk(t)
    ensures TimersOk(t.RemoveTimer(m))
    ensures ArmedFor(t.RemoveTimer(m), t, m)
  {
    RemoveTimerFits(t, m);
    RemoveArmed(t, m);
    StillHeld(t.RemoveTimer(m), t);
  }

  lemma RemoveRequestFits(t: Timers, m: Message)
    requires TimersFit(t)
    ensures TimersFit(t.RemoveRequest(m))
  {
    ArmedLeft(t, m);
  }

  lemma RemoveRequestKeeps(t: Timers, m: Message)
    requires TimersOk(t)
    ensures TimersOk(t.RemoveRequest(m))
    ensures ArmedFor(t.RemoveRequest(m), t, m)
    ensures m !in t.RemoveRequest(m).table
  {
    RemoveRequestFits(t, m);
    RemoveArmed(t, m);
    StillHeld(t.RemoveRequest(m), t);
  }

  lemma AddFits(t: Timers, m: Message, key: Key, now: int)
    requires TimersFit(t) && m !in t.table
    ensures TimersFit(t.Add(m, key, now))
  {
  }

  lemma AddKeeps(t: Timers, m: Message, key: Key, now: int)
    requires TimersOk(t) && m !in t.table
    ensures TimersOk(t.Add(m, key, now))
  {
    var s := t.Add(m, key, now);
    AddFits(t, m, key, now);
    assert Holds(s.table[m], t.nextId) && Held(s, t.nextId);
    StillHeld(s, t);
  }

  lemma AnsweredKeeps(t: Timers, m: Message, now: int, at: Coordinates)
    requires TimersOk(t) && m in t.table
    ensures TimersOk(t.Answered(m, now, at))
  {
    StillHeld(t.Answered(m, now, at), t);
  }

  lemma FiredKeeps(t: Timers, timerId: nat)
    requires TimersOk(t)
    ensures TimersOk(t.Fired(timerId))
  {
    StillHeld(t.Fired(timerId), t);
  }

  predicate Listed(lists: Lists, m: Message) {
    || m in ListOf(lists, GpsKey) || m in ListOf(lists, NetworkKey)
    || m in ListOf(lists, HybridKey) || m in ListOf(lists, PassiveKey)
  }

  /** The table has an entry for every listed location request; an entry remembers the
      latest position sent; an armed timeout names the list its message is in. */
  ghost predicate RecordsOk(lists: Lists, t: Timers, log: seq<Reply>, seen: set<Message>) {
    && (forall key: Key, m: Message :: m in ListOf(lists, key) && IsLocationKey(key) ==> m in t.table)
    && (forall m: Message :: m in t.table ==> m in seen && m.api == GetLocationUpdates)
    && (forall m: Message :: m in t.table ==> LastLocated(log, m) == Remembered(t.table[m]))
    && (forall id: nat :: id in t.armed ==> IsLocationKey(t.armed[id].key))
    && (forall id: nat, key: Key :: id in t.armed && t.armed[id].message in ListOf(lists, key) ==>
          key == t.armed[id].key)
  }

  function Remembered(q: Request): Option<(int, Coordinates)> {
    if q.firstReply then None else Some((q.requestTime, q.last))
  }

  /** A one-shot location request is answered at most once and not while it is listed; a
      timeout is armed only for an unanswered request. */
  ghost predicate AnswersOk(lists: Lists, t: Timers, log: seq<Reply>, seen: set<Message>) {
    && (forall m: Message :: !m.subscription && m.api == GetLocationUpdates ==> Answers(log, m) <= 1)
    && (forall key: Key, m: Message :: m in ListOf(lists, key) && IsLocationKey(key) && !m.subscription ==>
          Answers(log, m) == 0)
    && (forall id: nat :: id in t.armed ==> Answers(log, t.armed[id].message) == 0)
    && (forall m: Message :: m !in seen ==> Answers(log, m) == 0 && LastLocated(log, m) == None)
  }

  /** A request has a timeout if it asked for one, and that is armed until the first answer. */
  predicate RunsUntilAnswered(t: Timers, log: seq<Reply>, m: Message)
    requires m in t.table
  {
    var id := t.table[m].timerId;
    && (id != 0 <==> m.responseTimeout != 0)
    && (id != 0 && Answers(log, m) == 0 ==> id in t.armed && t.armed[id].message == m)
  }

  ghost predicate TimersRun(t: Timers, log: seq<Reply>) {
    forall m: Message :: m in t.table ==> RunsUntilAnswered(t, log, m)
  }

  predicate Waiting(log: seq<Reply>, cancelled: set<Message>, m: Message) {
    && m.api == GetLocationUpdates && m !in cancelled
    && Reply(m, Refused) !in log && Answers(log, m) == 0
  }

  /** An accepted location request that is neither answered nor cancelled is still listed. */
  ghost predicate NoneLost(lists: Lists, log: seq<Reply>, seen: set<Message>, cancelled: set<Message>) {
    forall m: Message :: m in seen && Waiting(log, cancelled, m) ==> Listed(lists, m)
  }

  /** A table entry belongs to a listed request or to one that its own handler refused. */
  ghost predicate Owned(lists: Lists, t: Timers, log: seq<Reply>) {
    forall m: Message :: m in t.table ==> Listed(lists, m) || Reply(m, Refused) in log
  }

  ghost predicate Inv(r: Registry, world: World) {
    && ListsOk(r.lists, r.seen)
    && TimersOk(r.timers)
    && RecordsOk(r.lists, r.timers, r.log, r.seen)
    && AnswersOk(r.lists, r.timers, r.log, r.seen)
    && TimersRun(r.timers, r.log)
    && NoneLost(r.lists, r.log, r.seen, r.cancelled)
    && Owned(r.lists, r.timers, r.log)
    && Spaced(r.log, world)
  }

  lemma LogSnocAll(log: seq<Reply>, x: Reply)
    ensures forall m: Message :: Answers(log + [x], m) == Answers(log, m) + if x.to == m && x.kind != Refused then 1 else 0
    ensures forall m: Message :: LastLocated(log + [x], m) ==
              if x.to == m && x.kind.Located? then Some((x.kind.time, x.kind.at)) else LastLocated(log, m)
  {
    forall m {
      LogSnoc(log, x, m);
    }
  }

  /** `s` lists what `r` does, except that `m` may have left the list of `key`. */
  ghost predicate Delisted(s: Lists, r: Lists, key: Key, m: Message) {
    && (forall k: Key :: k != key ==> ListOf(s, k) == ListOf(r, k))
    && (ListOf(s, key) == ListOf(r, key) || ListOf(s, key) == Without(ListOf(r, key), m))
  }

  lemma DelistSubset(s: Lists, r: Lists, key: Key, m: Message)
    requires Delisted(s, r, key, m)
    ensures forall k: Key, x: Message :: x in ListOf(s, k) ==> x in ListOf(r, k)
  {
    forall k: Key, x: Message | x in ListOf(s, k)
      ensures x in ListOf(r, k)
    {
      if k != key {
        assert ListOf(s, k) == ListOf(r, k);
      }
    }
  }

  lemma DelistDistinct(s: Lists, r: Lists, key: Key, m: Message)
    requires Delisted(s, r, key, m) && Distinct(r)
    ensures Distinct(s)
  {
    forall k: Key
      ensures NoDuplicates(ListOf(s, k))
    {
      assert NoDuplicates(ListOf(r, k));
      assert k != key ==> ListOf(s, k) == ListOf(r, k);
    }
  }

  lemma SubsetKeeps(s: Lists, r: Lists, seen: set<Message>)
    requires ListsOk(r, seen) && Distinct(s)
    requires forall k: Key, x: Message :: x in ListOf(s, k) ==> x in ListOf(r, k)
    ensures ListsOk(s, seen)
  {
  }

  lemma DelistKeeps(s: Lists, r: Lists, key: Key, m: Message, seen: set<Message>)
    requires ListsOk(r, seen) && Delisted(s, r, key, m)
    ensures ListsOk(s, seen)
  {
    DelistSubset(s, r, key, m);
    DelistDistinct(s, r, key, m);
    SubsetKeeps(s, r, seen);
  }

  /** What answering `m`, known under `key`, comes to: one reply more; `m` stays listed only
      as a subscription; its timeout is gone; its entry remembers a position sent. */
  ghost predicate AnswerStep(s: Registry, r: Registry, key: Key, m: Message, kind: ReplyKind) {
    && s.log == r.log + [Reply(m, kind)] && kind != Refused
    && s.seen == r.seen && s.cancelled == r.cancelled
    && Delisted(s.lists, r.lists, key, m)
    && (m in ListOf(s.lists, key) ==> m.subscription && m in s.timers.table)
    && (m in s.timers.table ==> ListOf(s.lists, key) == ListOf(r.lists, key))
    && ArmedFor(s.timers, r.timers, m)
    && (forall x: Message :: x != m ==> SameEntry(s.timers, r.timers, x))
    && (m in s.timers.table ==>
          && m in r.timers.table && s.timers.table[m].timerId == r.timers.table[m].timerId
          && Remembered(s.timers.table[m]) ==
             if kind.Located? then Some((kind.time, kind.at)) else Remembered(r.timers.table[m]))
  }

  predicate SameEntry(s: Timers, t: Timers, x: Message) {
    (x in s.table <==> x in t.table) && (x in s.table ==> s.table[x] == t.table[x])
  }

  /** When `m` may be answered: a location request, unanswered if it is a one-shot one. */
  ghost predicate Answerable(r: Registry, key: Key, m: Message) {
    && m.api == GetLocationUpdates && m in r.seen && IsLocationKey(key)
    && (forall k: Key :: m in ListOf(r.lists, k) ==> k == key)
    && (!m.subscription ==> Answers(r.log, m) == 0)
  }

  lemma AnswerStepRecords(s: Registry, r: Registry, key: Key, m: Message, kind: ReplyKind)
    requires ListsOk(r.lists, r.seen) && RecordsOk(r.lists, r.timers, r.log, r.seen)
    requires AnswerStep(s, r, key, m, kind) && Answerable(r, key, m)
    ensures RecordsOk(s.lists, s.timers, s.log, s.seen)
  {
    LogSnocAll(r.log, Reply(m, kind));
    DelistSubset(s.lists, r.lists, key, m);
    forall x: Message | x != m
      ensures x in s.timers.table <==> x in r.timers.table
      ensures x in s.timers.table ==> s.timers.table[x] == r.timers.table[x]
    {
      assert SameEntry(s.timers, r.timers, x);
    }
  }

  lemma AnswerStepAnswers(s: Registry, r: Registry, key: Key, m: Message, kind: ReplyKind)
    requires AnswersOk(r.lists, r.timers, r.log, r.seen)
    requires AnswerStep(s, r, key, m, kind) && Answerable(r, key, m)
    ensures AnswersOk(s.lists, s.timers, s.log, s.seen)
  {
    LogSnocAll(r.log, Reply(m, kind));
    DelistSubset(s.lists, r.lists, key, m);
  }

  lemma AnswerStepRuns(s: Registry, r: Registry, key: Key, m: Message, kind: ReplyKind)
    requires TimersRun(r.timers, r.log) && AnswerStep(s, r, key, m, kind)
    ensures TimersRun(s.timers, s.log)
  {
    LogSnocAll(r.log, Reply(m, kind));
    forall x: Message | x in s.timers.table
      ensures RunsUntilAnswered(s.timers, s.log, x)
    {
      assert x != m ==> SameEntry(s.timers, r.timers, x);
      assert RunsUntilAnswered(r.timers, r.log, x);
    }
  }

  lemma AnswerStepNoneLost(s: Registry, r: Registry, key: Key, m: Message, kind: ReplyKind)
    requires NoneLost(r.lists, r.log, r.seen, r.cancelled) && AnswerStep(s, r, key, m, kind)
    ensures NoneLost(s.lists, s.log, s.seen, s.cancelled)
  {
    LogSnocAll(r.log, Reply(m, kind));
    forall x: Message | x in s.seen && Waiting(s.log, s.cancelled, x)
      ensures Listed(s.lists, x)
    {
      assert x != m && Waiting(r.log, r.cancelled, x);
    }
  }

  lemma AnswerStepOwned(s: Registry, r: Registry, key: Key, m: Message, kind: ReplyKind)
    requires Owned(r.lists, r.timers, r.log) && AnswerStep(s, r, key, m, kind)
    ensures Owned(s.lists, s.timers, s.log)
  {
    forall x: Message | x in s.timers.table
      ensures Listed(s.lists, x) || Reply(x, Refused) in s.log
    {
      assert SameEntry(s.timers, r.timers, x) || x == m;
      if Listed(r.lists, x) {
        assert forall k: Key :: x in ListOf(r.lists, k) ==> x in ListOf(s.lists, k);
      }
    }
  }

  lemma AnswerStepKeeps(s: Registry, r: Registry, key: Key, m: Message, kind: ReplyKind, world: World)
    requires Inv(r, world) && TimersOk(s.timers)
    requires AnswerStep(s, r, key, m, kind) && Answerable(r, key, m)
    requires MayCome(r.log, Reply(m, kind), world)
    ensures Inv(s, world)
  {
    DelistKeeps(s.lists, r.lists, key, m, r.seen);
    AnswerStepRecords(s, r, key, m, kind);
    AnswerStepAnswers(s, r, key, m, kind);
    AnswerStepRuns(s, r, key, m, kind);
    AnswerStepNoneLost(s, r, key, m, kind);
    AnswerStepOwned(s, r, key, m, kind);
    SpacedSnoc(r.log, Reply(m, kind), world);
  }

  lemma RemoveTimerSame(t: Timers, m: Message)
    ensures forall x: Message :: x != m ==> SameEntry(t.RemoveTimer(m), t, x)
    ensures m in t.RemoveTimer(m).table <==> m in t.table
    ensures m in t.table ==>
              var q := t.RemoveTimer(m).table[m];
              Remembered(q) == Remembered(t.table[m]) && q.timerId == t.table[m].timerId
  {
  }

  lemma RemoveRequestSame(t: Timers, m: Message)
    ensures forall x: Message :: x != m ==> SameEntry(t.RemoveRequest(m), t, x)
    ensures m !in t.RemoveRequest(m).table
  {
  }

  /** Answering a listed location request. */
  lemma {:induction false} AnswerKeeps(r: Registry, key: Key, m: Message, kind: ReplyKind, world: World)
    requires Inv(r, world) && m in r.List(key) && IsLocationKey(key)
    requires kind.Failure?
    ensures Inv(r.Answer(key, m, kind), world)
  {
    if m.subscription {
      RemoveTimerKeeps(r.timers, m);
      RemoveTimerSame(r.timers, m);
    } else {
      RemoveRequestKeeps(r.timers, m);
      RemoveRequestSame(r.timers, m);
    }
    AnswerStepKeeps(r.Answer(key, m, kind), r, key, m, kind, world);
  }

  /** The criteria are what the log's spacing asks for. */
  lemma MeetsMayCome(r: Registry, m: Message, fix: Fix, world: World)
    requires RecordsOk(r.lists, r.timers, r.log, r.seen)
    requires r.Meets(m, fix, world)
    ensures MayCome(r.log, Reply(m, Located(world.clock(r.readings), fix.at, fix.accuracy)), world)
  {
  }

  lemma {:induction false} RememberKeeps(t: Timers, m: Message, now: int, at: Coordinates)
    requires TimersOk(t) && m in t.table
    ensures var s := t.Answered(m, now, at);
            var u := if m.subscription then s.RemoveTimer(m) else s.RemoveRequest(m);
            && TimersOk(u) && ArmedFor(u, t, m)
            && (forall x: Message :: x != m ==> SameEntry(u, t, x))
            && (m in u.table <==> m.subscription)
            && (m in u.table ==> Remembered(u.table[m]) == Some((now, at)) && u.table[m].timerId == t.table[m].timerId)
  {
    var s := t.Answered(m, now, at);
    AnsweredKeeps(t, m, now, at);
    var u := if m.subscription then s.RemoveTimer(m) else s.RemoveRequest(m);
    if m.subscription {
      RemoveTimerKeeps(s, m);
      RemoveTimerSame(s, m);
    } else {
      RemoveRequestKeeps(s, m);
      RemoveRequestSame(s, m);
    }
    forall x: Message | x != m
      ensures SameEntry(u, t, x)
    {
      assert SameEntry(u, s, x);
    }
  }

  lemma {:induction false} LocatedIsAnswer(r: Registry, key: Key, m: Message, fix: Fix, world: World)
    requires TimersOk(r.timers) && m in r.List(key) && r.Meets(m, fix, world)
    ensures var s := r.Consider(key, m, Some(fix), world);
            && AnswerStep(s, r, key, m, Located(world.clock(r.readings), fix.at, fix.accuracy))
            && TimersOk(s.timers)
  {
    RememberKeeps(r.timers, m, world.clock(r.readings), fix.at);
  }

  lemma {:induction false} LocatedKeeps(r: Registry, key: Key, m: Message, fix: Fix, world: World)
    requires Inv(r, world) && m in r.List(key) && IsLocationKey(key)
    requires r.Meets(m, fix, world)
    ensures Inv(r.Consider(key, m, Some(fix), world), world)
  {
    var kind := Located(world.clock(r.readings), fix.at, fix.accuracy);
    LocatedIsAnswer(r, key, m, fix, world);
    MeetsMayCome(r, m, fix, world);
    AnswerStepKeeps(r.Consider(key, m, Some(fix), world), r, key, m, kind, world);
  }

  lemma ConsiderKeeps(r: Registry, key: Key, m: Message, fix: Option<Fix>, world: World)
    requires Inv(r, world) && m in r.List(key) && IsLocationKey(key)
    ensures Inv(r.Consider(key, m, fix, world), world)
  {
    if fix.None? {
      AnswerKeeps(r, key, m, Failure, world);
    } else if r.Meets(m, fix.value, world) {
      LocatedKeeps(r, key, m, fix.value, world);
    }
  }

  /** What a reply loop does to the lists: the list of `key` loses one-shot requests among
      `ms` and nothing else; the other lists stay. */
  ghost predicate Thinned(s: Lists, r: Lists, key: Key, ms: seq<Message>) {
    && (forall k: Key :: k != key ==> ListOf(s, k) == ListOf(r, k))
    && (forall x: Message :: x in ListOf(s, key) ==> x in ListOf(r, key))
    && (forall x: Message :: x in ListOf(r, key) && (x !in ms || x.subscription) ==> x in ListOf(s, key))
  }

  lemma AnswerThins(r: Registry, key: Key, m: Message, kind: ReplyKind)
    ensures Thinned(r.Answer(key, m, kind).lists, r.lists, key, [m])
    ensures !m.subscription ==> m !in ListOf(r.Answer(key, m, kind).lists, key)
  {
  }

  lemma ConsiderThins(r: Registry, key: Key, m: Message, fix: Option<Fix>, world: World)
    ensures Thinned(r.Consider(key, m, fix, world).lists, r.lists, key, [m])
    ensures r.Consider(key, m, fix, world).seen == r.seen
    ensures r.Consider(key, m, fix, world).cancelled == r.cancelled
    ensures fix.None? && !m.subscription ==> m !in ListOf(r.Consider(key, m, fix, world).lists, key)
  {
    if fix.None? {
      AnswerThins(r, key, m, Failure);
    } else if r.Meets(m, fix.value, world) {
      var now := world.clock(r.readings);
      AnswerThins(r.(timers := r.timers.Answered(m, now, fix.value.at), readings := r.readings + 1),
                  key, m, Located(now, fix.value.at, fix.value.accuracy));
    }
  }

  lemma ThinnedTwice(t: Lists, s: Lists, r: Lists, key: Key, ms: seq<Message>, m: Message)
    requires Thinned(s, r, key, ms) && Thinned(t, s, key, [m])
    ensures Thinned(t, r, key, ms + [m])
  {
  }

  /** What the location reply loop has done after `ms`. */
  ghost predicate Considered(s: Registry, r: Registry, key: Key, ms: seq<Message>, fix: Option<Fix>, world: World) {
    && Inv(s, world) && s.seen == r.seen && s.cancelled == r.cancelled
    && Thinned(s.lists, r.lists, key, ms)
    && (fix.None? ==> forall m :: m in ms && !m.subscription ==> m !in ListOf(s.lists, key))
  }

  lemma {:induction false} ConsiderOneMore(s: Registry, r: Registry, key: Key, ms: seq<Message>, m: Message, fix: Option<Fix>, world: World)
    requires Considered(s, r, key, ms, fix, world) && IsLocationKey(key)
    requires m in ListOf(r.lists, key) && m !in ms
    ensures Considered(s.Consider(key, m, fix, world), r, key, ms + [m], fix, world)
  {
    assert m in ListOf(s.lists, key);
    ConsiderKeeps(s, key, m, fix, world);
    ConsiderThins(s, key, m, fix, world);
    ThinnedTwice(s.Consider(key, m, fix, world).lists, s.lists, r.lists, key, ms, m);
  }

  /** The location reply loop, over any part of the list the iterator has copied. */
  lemma {:induction false} ConsiderAllKeeps(r: Registry, key: Key, ms: seq<Message>, fix: Option<Fix>, world: World)
    requires Inv(r, world) && IsLocationKey(key) && NoDuplicates(ms)
    requires forall m :: m in ms ==> m in ListOf(r.lists, key)
    ensures Considered(r.ConsiderAll(key, ms, fix, world), r, key, ms, fix, world)
  {
    if ms == [] {
    } else {
      var front, m := ms[..|ms| - 1], ms[|ms| - 1];
      var s := r.ConsiderAll(key, front, fix, world);
      assert ms == front + [m];
      assert r.ConsiderAll(key, ms, fix, world) == s.Consider(key, m, fix, world);
      assert m in ListOf(r.lists, key) && m !in front;
      ConsiderAllKeeps(r, key, front, fix, world);
      ConsiderOneMore(s, r, key, front, m, fix, world);
    }
  }

  /** What the log has to say about a position found for `m` at `now`: it goes out exactly if
      it is the first one to `m`, or is fresh and may follow the one before. */
  predicate MayGoOut(log: seq<Reply>, m: Message, fix: Fix, now: int, world: World) {
    var last := LastLocated(log, m);
    last.None? ||
    (fix.timestamp != 0 && MayFollow(last.value, Reply(m, Located(now, fix.at, fix.accuracy)), world))
  }

  /** Whether a location list's loop has to answer `m` at the n-th reading of the clock. */
  predicate Due(log: seq<Reply>, m: Message, fix: Option<Fix>, world: World, n: nat) {
    fix.Some? ==> MayGoOut(log, m, fix.value, world.clock(n), world)
  }

  /** The table entry of `m` remembers what the log says was sent to it. */
  predicate Remembers(r: Registry, m: Message) {
    m in r.timers.table && LastLocated(r.log, m) == Remembered(r.timers.table[m])
  }

  /** The criteria let out exactly the positions that may go out. */
  lemma MeetsExactly(r: Registry, m: Message, fix: Fix, world: World)
    requires Remembers(r, m)
    ensures r.Meets(m, fix, world) <==> MayGoOut(r.log, m, fix, world.clock(r.readings), world)
  {
  }

  /** One reply more for `m`, with the position or else the error, exactly if it is due at
      the n-th reading of the clock. */
  ghost predicate Reached(t: Registry, r: Registry, m: Message, fix: Option<Fix>, world: World, n: nat) {
    To(t.log, m) == To(r.log, m) + if Due(r.log, m, fix, world, n) then [ReplyWith(fix, world.clock(n))] else []
  }

  function ReplyWith(fix: Option<Fix>, now: int): ReplyKind {
    if fix.None? then Failure else Located(now, fix.value.at, fix.value.accuracy)
  }

  ghost predicate Untouched(t: Registry, r: Registry, m: Message) {
    To(t.log, m) == To(r.log, m) && LastLocated(t.log, m) == LastLocated(r.log, m) && SameEntry(t.timers, r.timers, m)
  }

  lemma ConsiderTable(r: Registry, key: Key, m: Message, fix: Option<Fix>, world: World, x: Message)
    requires x != m
    ensures SameEntry(r.Consider(key, m, fix, world).timers, r.timers, x)
  {
  }

  lemma ConsiderOthers(r: Registry, key: Key, m: Message, fix: Option<Fix>, world: World, x: Message)
    requires x != m
    ensures Untouched(r.Consider(key, m, fix, world), r, x)
  {
    LogSnoc(r.log, Reply(m, Failure), x);
    if fix.Some? {
      LogSnoc(r.log, Reply(m, Located(world.clock(r.readings), fix.value.at, fix.value.accuracy)), x);
    }
    ConsiderTable(r, key, m, fix, world, x);
  }

  /** Who is not among the messages of the loop gets nothing. */
  lemma {:induction false} ConsiderAllOthers(r: Registry, key: Key, ms: seq<Message>, fix: Option<Fix>, world: World, x: Message)
    requires x !in ms
    ensures Untouched(r.ConsiderAll(key, ms, fix, world), r, x)
  {
    if ms == [] {
    } else {
      var front := ms[..|ms| - 1];
      ConsiderAllOthers(r, key, front, fix, world, x);
      ConsiderOthers(r.ConsiderAll(key, front, fix, world), key, ms[|ms| - 1], fix, world, x);
    }
  }

  lemma {:induction false} ConsiderAllReadings(r: Registry, key: Key, ms: seq<Message>, fix: Option<Fix>, world: World)
    ensures r.ConsiderAll(key, ms, fix, world).readings == r.readings + if fix.Some? then |ms| else 0
  {
    if ms == [] {
    } else {
      ConsiderAllReadings(r, key, ms[..|ms| - 1], fix, world);
    }
  }

  lemma {:induction false} ConsiderDelivers(r: Registry, key: Key, m: Message, fix: Option<Fix>, world: World)
    requires Remembers(r, m)
    ensures Reached(r.Consider(key, m, fix, world), r, m, fix, world, r.readings)
  {
    if fix.Some? {
      MeetsExactly(r, m, fix.value, world);
    }
    LogSnoc(r.log, Reply(m, Failure), m);
    if fix.Some? {
      LogSnoc(r.log, Reply(m, Located(world.clock(r.readings), fix.value.at, fix.value.accuracy)), m);
    }
  }

  lemma LastDelivered(r: Registry, s: Registry, key: Key, m: Message, fix: Option<Fix>, world: World)
    requires Untouched(s, r, m) && Remembers(r, m)
    ensures Reached(s.Consider(key, m, fix, world), r, m, fix, world, s.readings)
  {
    ConsiderDelivers(s, key, m, fix, world);
  }

  /** The i-th message of the loop gets one answer or none, as the log before the loop has it
      due or not at the i-th reading: what the loop does for the others makes no difference. */
  lemma {:induction false} ConsiderAllDelivers(r: Registry, key: Key, ms: seq<Message>, fix: Option<Fix>, world: World, i: nat)
    requires i < |ms| && NoDuplicates(ms) && Remembers(r, ms[i])
    ensures Reached(r.ConsiderAll(key, ms, fix, world), r, ms[i], fix, world, r.readings + if fix.Some? then i else 0)
  {
    var front, m := ms[..|ms| - 1], ms[|ms| - 1];
    var s := r.ConsiderAll(key, front, fix, world);
    if i == |ms| - 1 {
      ConsiderAllOthers(r, key, front, fix, world, m);
      ConsiderAllReadings(r, key, front, fix, world);
      LastDelivered(r, s, key, m, fix, world);
    } else {
      ConsiderAllDelivers(r, key, front, fix, world, i);
      ConsiderOthers(s, key, m, fix, world, ms[i]);
    }
  }

  /** The place of `m` in a list. */
  function Place(list: seq<Message>, m: Message): (i: nat)
    requires m in list
    ensures i < |list| && list[i] == m
  {
    if list[0] == m then 0 else 1 + Place(list[1..], m)
  }

  /** What the loop over a whole list is for `m`: it is looked at with the reading of its
      place in the list, counted from the loop's first reading. */
  ghost predicate LoopDone(t: Registry, r: Registry, list: seq<Message>, fix: Option<Fix>, world: World, m: Message) {
    && t.readings == r.readings + (if fix.Some? then |list| else 0)
    && (m in list ==> Reached(t, r, m, fix, world, r.readings + Place(list, m)))
    && (m !in list ==> Untouched(t, r, m))
  }

  /** Without a fix every reading will do. */
  lemma ReachedAt(t: Registry, r: Registry, m: Message, fix: Option<Fix>, world: World, n: nat, k: nat)
    requires Reached(t, r, m, fix, world, n) && (fix.None? || n == k)
    ensures Reached(t, r, m, fix, world, k)
  {
  }

  lemma LoopReaches(r: Registry, key: Key, fix: Option<Fix>, world: World, m: Message)
    requires NoDuplicates(r.List(key)) && (m in r.List(key) ==> Remembers(r, m))
    ensures LoopDone(r.ConsiderAll(key, r.List(key), fix, world), r, r.List(key), fix, world, m)
  {
    var list := r.List(key);
    ConsiderAllReadings(r, key, list, fix, world);
    if m in list {
      var i := Place(list, m);
      ConsiderAllDelivers(r, key, list, fix, world, i);
      ReachedAt(r.ConsiderAll(key, list, fix, world), r, m, fix, world, r.readings + if fix.Some? then i else 0, r.readings + i);
    } else {
      ConsiderAllOthers(r, key, list, fix, world, m);
    }
  }

  /** The loop over the list of `key` leaves the other lists alone. */
  lemma {:induction false} LoopLists(r: Registry, key: Key, ms: seq<Message>, fix: Option<Fix>, world: World)
    ensures forall k: Key :: k != key ==> r.ConsiderAll(key, ms, fix, world).List(k) == r.List(k)
  {
    if ms == [] {
    } else {
      LoopLists(r, key, ms[..|ms| - 1], fix, world);
    }
  }

  lemma ReachedLater(t: Registry, s: Registry, r: Registry, m: Message, fix: Option<Fix>, world: World, n: nat)
    requires Untouched(s, r, m) && Reached(t, s, m, fix, world, n)
    ensures Reached(t, r, m, fix, world, n)
  {
  }

  lemma ReachedBefore(t: Registry, s: Registry, r: Registry, m: Message, fix: Option<Fix>, world: World, n: nat)
    requires Reached(s, r, m, fix, world, n) && Untouched(t, s, m)
    ensures Reached(t, r, m, fix, world, n)
  {
  }

  /** The reading of the clock at which a position finds `m`: the loops take the lists of the
      handler's key, the hybrid and the passive key one after the other. */
  function ReadingFor(r: Registry, key: Key, m: Message): nat
    requires m in r.List(key) || m in r.List(HybridKey) || m in r.List(PassiveKey)
  {
    if m in r.List(key) then r.readings + Place(r.List(key), m)
    else if m in r.List(HybridKey) then r.readings + |r.List(key)| + Place(r.List(HybridKey), m)
    else r.readings + |r.List(key)| + |r.List(HybridKey)| + Place(r.List(PassiveKey), m)
  }

  /** Three loops one after the other, with `m` in one of the lists at most. */
  lemma LoopsCombine(r: Registry, r1: Registry, r2: Registry, t: Registry, key: Key, fix: Option<Fix>, world: World, m: Message)
    requires LoopDone(r1, r, r.List(key), fix, world, m)
    requires LoopDone(r2, r1, r.List(HybridKey), fix, world, m)
    requires LoopDone(t, r2, r.List(PassiveKey), fix, world, m)
    requires m in r.List(key) ==> m !in r.List(HybridKey) && m !in r.List(PassiveKey)
    requires m in r.List(HybridKey) ==> m !in r.List(PassiveKey)
    ensures m in r.List(key) || m in r.List(HybridKey) || m in r.List(PassiveKey) ==>
              Reached(t, r, m, fix, world, ReadingFor(r, key, m))
    ensures m !in r.List(key) && m !in r.List(HybridKey) && m !in r.List(PassiveKey) ==> Untouched(t, r, m)
  {
    if m in r.List(key) {
      var n := ReadingFor(r, key, m);
      ReachedBefore(r2, r1, r, m, fix, world, n);
      ReachedBefore(t, r2, r, m, fix, world, n);
    } else if m in r.List(HybridKey) {
      var n := r1.readings + Place(r.List(HybridKey), m);
      ReachedLater(r2, r1, r, m, fix, world, n);
      ReachedBefore(t, r2, r, m, fix, world, n);
      ReachedAt(t, r, m, fix, world, n, ReadingFor(r, key, m));
    } else if m in r.List(PassiveKey) {
      var n := r2.readings + Place(r.List(PassiveKey), m);
      ReachedLater(t, r2, r1, m, fix, world, n);
      ReachedLater(t, r1, r, m, fix, world, n);
      ReachedAt(t, r, m, fix, world, n, ReadingFor(r, key, m));
    }
  }

  lemma RemembersStill(s: Registry, r: Registry, m: Message)
    requires Untouched(s, r, m) && Remembers(r, m)
    ensures Remembers(s, m)
  {
  }

  lemma UntouchedTwice(t: Registry, s: Registry, r: Registry, m: Message)
    requires Untouched(t, s, m) && Untouched(s, r, m)
    ensures Untouched(t, r, m)
  {
  }

  /** A loop after others that have not touched `m`. */
  lemma LaterLoopReaches(s: Registry, r: Registry, key: Key, fix: Option<Fix>, world: World, m: Message)
    requires NoDuplicates(s.List(key))
    requires m in s.List(key) ==> Remembers(r, m) && Untouched(s, r, m)
    ensures LoopDone(s.ConsiderAll(key, s.List(key), fix, world), s, s.List(key), fix, world, m)
  {
    if m in s.List(key) {
      RemembersStill(s, r, m);
    }
    LoopReaches(s, key, fix, world, m);
  }

  /** The three loops for a position. */
  lemma LoopsReach(r: Registry, r1: Registry, r2: Registry, t: Registry, key: Key, fix: Option<Fix>, world: World, m: Message)
    requires ListsOk(r.lists, r.seen) && RecordsOk(r.lists, r.timers, r.log, r.seen) && (key == GpsKey || key == NetworkKey)
    requires r1 == r.ConsiderAll(key, r.List(key), fix, world)
    requires r2 == r1.ConsiderAll(HybridKey, r1.List(HybridKey), fix, world)
    requires t == r2.ConsiderAll(PassiveKey, r2.List(PassiveKey), fix, world)
    ensures m in r.List(key) || m in r.List(HybridKey) || m in r.List(PassiveKey) ==>
              Reached(t, r, m, fix, world, ReadingFor(r, key, m))
    ensures m !in r.List(key) && m !in r.List(HybridKey) && m !in r.List(PassiveKey) ==> Untouched(t, r, m)
  {
    assert forall k: Key :: NoDuplicates(ListOf(r.lists, k)) && r.List(k) == ListOf(r.lists, k);
    LoopLists(r, key, r.List(key), fix, world);
    LoopLists(r1, HybridKey, r1.List(HybridKey), fix, world);
    LoopReaches(r, key, fix, world, m);
    LaterLoopReaches(r1, r, HybridKey, fix, world, m);
    if m !in r.List(key) && m !in r.List(HybridKey) {
      UntouchedTwice(r2, r1, r, m);
    }
    LaterLoopReaches(r2, r, PassiveKey, fix, world, m);
    LoopsCombine(r, r1, r2, t, key, fix, world, m);
  }

  // Requests that are not for a location are replied to without criteria.

  /** What such a reply comes to: `m` may leave a list that is not for locations. */
  ghost predicate OtherReply(s: Registry, r: Registry, key: Key, m: Message, kind: ReplyKind) {
    && s.log == r.log + [Reply(m, kind)] && (kind.Refused? || kind.Reading?)
    && s.timers == r.timers && s.cancelled == r.cancelled && s.seen == r.seen + {m}
    && Delisted(s.lists, r.lists, key, m) && !IsLocationKey(key)
    && (kind == Refused || (m.api != GetLocationUpdates && m in r.seen))
  }

  lemma OtherReplyRecords(s: Registry, r: Registry, key: Key, m: Message, kind: ReplyKind)
    requires RecordsOk(r.lists, r.timers, r.log, r.seen) && OtherReply(s, r, key, m, kind)
    ensures RecordsOk(s.lists, s.timers, s.log, s.seen)
  {
    LogSnocAll(r.log, Reply(m, kind));
    DelistSubset(s.lists, r.lists, key, m);
  }

  lemma OtherReplyAnswers(s: Registry, r: Registry, key: Key, m: Message, kind: ReplyKind)
    requires RecordsOk(r.lists, r.timers, r.log, r.seen) && TimersOk(r.timers)
    requires AnswersOk(r.lists, r.timers, r.log, r.seen) && OtherReply(s, r, key, m, kind)
    requires ListsOk(r.lists, r.seen)
    ensures AnswersOk(s.lists, s.timers, s.log, s.seen)
  {
    LogSnocAll(r.log, Reply(m, kind));
    DelistSubset(s.lists, r.lists, key, m);
    forall id: nat | id in r.timers.armed
      ensures r.timers.armed[id].message.api == GetLocationUpdates
    {
      assert ArmedOk(r.timers, id);
    }
  }

  lemma OtherReplyRuns(s: Registry, r: Registry, key: Key, m: Message, kind: ReplyKind)
    requires RecordsOk(r.lists, r.timers, r.log, r.seen) && OtherReply(s, r, key, m, kind)
    requires TimersRun(r.timers, r.log)
    ensures TimersRun(s.timers, s.log)
  {
    LogSnocAll(r.log, Reply(m, kind));
    forall x: Message | x in s.timers.table
      ensures RunsUntilAnswered(s.timers, s.log, x)
    {
      assert RunsUntilAnswered(r.timers, r.log, x);
    }
  }

  lemma OtherReplyNoneLost(s: Registry, r: Registry, key: Key, m: Message, kind: ReplyKind)
    requires NoneLost(r.lists, r.log, r.seen, r.cancelled) && OtherReply(s, r, key, m, kind)
    ensures NoneLost(s.lists, s.log, s.seen, s.cancelled)
  {
    LogSnocAll(r.log, Reply(m, kind));
    forall x: Message | x in s.seen && Waiting(s.log, s.cancelled, x)
      ensures Listed(s.lists, x)
    {
      assert s.log[|r.log|] == Reply(m, kind);
      assert x != m;
      assert Waiting(r.log, r.cancelled, x);
    }
  }

  lemma OtherReplyOwned(s: Registry, r: Registry, key: Key, m: Message, kind: ReplyKind)
    requires Owned(r.lists, r.timers, r.log) && OtherReply(s, r, key, m, kind)
    ensures Owned(s.lists, s.timers, s.log)
  {
    forall x: Message | Listed(r.lists, x)
      ensures Listed(s.lists, x)
    {
      assert forall k: Key :: IsLocationKey(k) ==> ListOf(s.lists, k) == ListOf(r.lists, k);
    }
  }

  lemma OtherReplyKeeps(s: Registry, r: Registry, key: Key, m: Message, kind: ReplyKind, world: World)
    requires Inv(r, world) && OtherReply(s, r, key, m, kind)
    ensures Inv(s, world)
  {
    DelistKeeps(s.lists, r.lists, key, m, r.seen);
    OtherReplyRecords(s, r, key, m, kind);
    OtherReplyAnswers(s, r, key, m, kind);
    OtherReplyRuns(s, r, key, m, kind);
    OtherReplyNoneLost(s, r, key, m, kind);
    OtherReplyOwned(s, r, key, m, kind);
    SpacedSnoc(r.log, Reply(m, kind), world);
  }

  /** The reply to an NMEA or satellite request. */
  lemma {:induction false} DeliverKeeps(r: Registry, key: Key, m: Message, world: World)
    requires Inv(r, world) && m in ListOf(r.lists, key) && !IsLocationKey(key)
    ensures Inv(r.Deliver(key, m), world)
  {
    OtherReplyKeeps(r.Deliver(key, m), r, key, m, Reading, world);
  }

  /** An error reply from a request's own handler, of a new or of a listed request. */
  lemma RefuseKeeps(r: Registry, m: Message, world: World)
    requires Inv(r, world)
    ensures Inv(r.Refuse(m), world)
  {
    OtherReplyKeeps(r.Refuse(m), r, NmeaKey, m, Refused, world);
  }

  lemma DeliverThins(r: Registry, key: Key, m: Message)
    ensures Thinned(r.Deliver(key, m).lists, r.lists, key, [m])
    ensures !m.subscription ==> m !in ListOf(r.Deliver(key, m).lists, key)
  {
  }

  /** What that reply loop has done after `ms`. */
  ghost predicate Delivered(s: Registry, r: Registry, key: Key, ms: seq<Message>, world: World) {
    && Inv(s, world) && s.seen == r.seen && s.timers == r.timers
    && Thinned(s.lists, r.lists, key, ms)
    && (forall m :: m in ms && !m.subscription ==> m !in ListOf(s.lists, key))
  }

  lemma DeliverOneMore(s: Registry, r: Registry, key: Key, ms: seq<Message>, m: Message, world: World)
    requires Delivered(s, r, key, ms, world) && !IsLocationKey(key)
    requires m in ListOf(r.lists, key) && m !in ms
    ensures Delivered(s.Deliver(key, m), r, key, ms + [m], world)
  {
    assert m in ListOf(s.lists, key);
    DeliverKeeps(s, key, m, world);
    DeliverThins(s, key, m);
    ThinnedTwice(s.Deliver(key, m).lists, s.lists, r.lists, key, ms, m);
  }

  /** The reply loop for NMEA and satellite data: every one-shot request leaves. */
  lemma {:induction false} DeliverAllKeeps(r: Registry, key: Key, ms: seq<Message>, world: World)
    requires Inv(r, world) && !IsLocationKey(key) && NoDuplicates(ms)
    requires forall m :: m in ms ==> m in ListOf(r.lists, key)
    ensures Delivered(r.DeliverAll(key, ms), r, key, ms, world)
  {
    if ms == [] {
    } else {
      var front, m := ms[..|ms| - 1], ms[|ms| - 1];
      var s := r.DeliverAll(key, front);
      assert ms == front + [m];
      assert r.DeliverAll(key, ms) == s.Deliver(key, m);
      assert m in ListOf(r.lists, key) && m !in front;
      DeliverAllKeeps(r, key, front, world);
      DeliverOneMore(s, r, key, front, m, world);
    }
  }

  /** That loop sends one reading to each message it meets, and nothing to anybody else. */
  lemma {:induction false} DeliverAllDelivers(r: Registry, key: Key, ms: seq<Message>, m: Message)
    requires NoDuplicates(ms)
    ensures To(r.DeliverAll(key, ms).log, m) == To(r.log, m) + if m in ms then [Reading] else []
  {
    if ms == [] {
    } else {
      var front, last := ms[..|ms| - 1], ms[|ms| - 1];
      assert ms == front + [last];
      DeliverAllDelivers(r, key, front, m);
      LogSnoc(r.DeliverAll(key, front).log, Reply(last, Reading), m);
    }
  }

  /** The timeout of `m` is the only one armed for it. */
  lemma OnlyTimeout(t: Timers, timerId: nat)
    requires TimersOk(t) && timerId in t.armed
    ensures ArmedFor(t.Fired(timerId), t, t.armed[timerId].message)
  {
    assert ArmedOk(t, timerId);
    forall id: nat | id in t.armed && t.armed[id].message == t.armed[timerId].message
      ensures id == timerId
    {
      assert ArmedOk(t, id);
    }
  }

  /** With the entry goes its source, so the source ends only once. */
  lemma FiredGone(t: Timers, timerId: nat)
    requires TimersOk(t) && timerId in t.armed
    ensures var u := t.RemoveRequest(t.armed[timerId].message); u.Fired(timerId) == u
  {
    var u := t.RemoveRequest(t.armed[timerId].message);
    RemoveRequestKeeps(t, t.armed[timerId].message);
    assert timerId !in u.armed;
    assert u.armed - {timerId} == u.armed;
  }

  lemma TimeOutTimers(t: Timers, timerId: nat, listed: bool)
    requires TimersOk(t) && timerId in t.armed
    ensures var m := t.armed[timerId].message;
            var u := (if listed then t.RemoveRequest(m) else t).Fired(timerId);
            && TimersOk(u) && ArmedFor(u, t, m)
            && (forall x: Message :: x != m ==> SameEntry(u, t, x))
            && (m in u.table ==> m in t.table && u.table[m] == t.table[m])
  {
    var m := t.armed[timerId].message;
    if listed {
      RemoveRequestKeeps(t, m);
      RemoveRequestSame(t, m);
      FiredGone(t, timerId);
    } else {
      OnlyTimeout(t, timerId);
      FiredKeeps(t, timerId);
    }
  }

  lemma {:induction false} TimeOutIsAnswer(r: Registry, timerId: nat)
    requires TimersOk(r.timers) && timerId in r.timers.armed
    ensures var d := r.timers.armed[timerId];
            AnswerStep(r.TimeOut(timerId), r, d.key, d.message, TimedOut)
    ensures TimersOk(r.TimeOut(timerId).timers)
  {
    var d := r.timers.armed[timerId];
    TimeOutTimers(r.timers, timerId, d.message in r.List(d.key));
  }

  lemma {:induction false} TimeOutKeeps(r: Registry, timerId: nat, world: World)
    requires Inv(r, world) && timerId in r.timers.armed
    ensures Inv(r.TimeOut(timerId), world)
  {
    var d := r.timers.armed[timerId];
    assert ArmedOk(r.timers, timerId);
    TimeOutIsAnswer(r, timerId);
    AnswerStepKeeps(r.TimeOut(timerId), r, d.key, d.message, TimedOut, world);
  }

  /** A new message in the list of `key`. */
  ghost predicate Enlisted(s: Lists, r: Lists, key: Key, m: Message) {
    && (forall k: Key :: k != key ==> ListOf(s, k) == ListOf(r, k))
    && (ListOf(s, key) == ListOf(r, key) || ListOf(s, key) == ListOf(r, key) + [m])
  }

  lemma EnlistDistinct(s: Lists, r: Lists, key: Key, m: Message)
    requires Distinct(r) && Enlisted(s, r, key, m) && m !in ListOf(r, key)
    ensures Distinct(s)
  {
    forall k: Key
      ensures NoDuplicates(ListOf(s, k))
    {
      assert NoDuplicates(ListOf(r, k));
      assert k != key ==> ListOf(s, k) == ListOf(r, k);
    }
  }

  ghost predicate Grown(s: Lists, r: Lists, key: Key, m: Message) {
    && (forall k: Key, x: Message :: x in ListOf(s, k) ==> x in ListOf(r, k) || (x == m && k == key))
    && (forall k: Key, x: Message :: x in ListOf(r, k) ==> x in ListOf(s, k))
  }

  lemma EnlistGrows(s: Lists, r: Lists, key: Key, m: Message)
    requires Enlisted(s, r, key, m)
    ensures Grown(s, r, key, m)
  {
    forall k: Key, x: Message
      ensures x in ListOf(s, k) ==> x in ListOf(r, k) || (x == m && k == key)
      ensures x in ListOf(r, k) ==> x in ListOf(s, k)
    {
      if k != key {
        assert ListOf(s, k) == ListOf(r, k);
      }
    }
  }

  lemma GrownKeeps(s: Lists, r: Lists, key: Key, m: Message, seen: set<Message>)
    requires ListsOk(r, seen) && Grown(s, r, key, m) && Distinct(s)
    requires m !in seen && Serves(key, m.api)
    ensures ListsOk(s, seen + {m})
  {
  }

  ghost predicate SameAnswers(s: seq<Reply>, r: seq<Reply>) {
    forall x: Message :: Answers(s, x) == Answers(r, x) && LastLocated(s, x) == LastLocated(r, x)
  }

  /** What a new request comes to: an entry for a location request, perhaps a timeout, a
      place in its list, and no answer. */
  ghost predicate EnterStep(s: Registry, r: Registry, key: Key, m: Message) {
    && SameAnswers(s.log, r.log) && Grown(s.lists, r.lists, key, m)
    && s.seen == r.seen + {m} && m !in r.seen && Serves(key, m.api)
    && (forall x: Message :: x != m ==> SameEntry(s.timers, r.timers, x))
    && (m in s.timers.table <==> m.api == GetLocationUpdates)
    && (m in s.timers.table ==> s.timers.table[m].firstReply)
    && (forall id: nat :: id in s.timers.armed ==> ArmedLater(s.timers, r.timers, id, key, m))
  }

  predicate ArmedLater(s: Timers, t: Timers, id: nat, key: Key, m: Message)
    requires id in s.armed
  {
    || (id in t.armed && s.armed[id] == t.armed[id])
    || (s.armed[id].message == m && s.armed[id].key == key && IsLocationKey(key))
  }

  lemma EnterTimers(r: Registry, m: Message, key: Key, added: bool, world: World)
    requires RecordsOk(r.lists, r.timers, r.log, r.seen) && m !in r.seen && Serves(key, m.api)
    ensures var (s, t) := (r.Enter(m, key, added, world).timers, r.timers);
            && (forall x: Message :: x != m ==> SameEntry(s, t, x))
            && (m in s.table <==> m.api == GetLocationUpdates)
            && (m in s.table ==> s.table[m].firstReply)
            && (forall id: nat :: id in s.armed ==> ArmedLater(s, t, id, key, m))
  {
  }

  lemma EnterLists(r: Registry, m: Message, key: Key, added: bool, world: World)
    requires Distinct(r.lists) && m !in ListOf(r.lists, key)
    ensures Grown(r.Enter(m, key, added, world).lists, r.lists, key, m)
    ensures Distinct(r.Enter(m, key, added, world).lists)
  {
    var lists := r.Enter(m, key, added, world).lists;
    assert Enlisted(lists, r.lists, key, m);
    EnlistGrows(lists, r.lists, key, m);
    EnlistDistinct(lists, r.lists, key, m);
  }

  lemma EnterIsStep(r: Registry, m: Message, key: Key, added: bool, world: World)
    requires ListsOk(r.lists, r.seen) && RecordsOk(r.lists, r.timers, r.log, r.seen)
    requires m !in r.seen && Serves(key, m.api)
    ensures EnterStep(r.Enter(m, key, added, world), r, key, m)
    ensures Distinct(r.Enter(m, key, added, world).lists)
  {
    EnterTimers(r, m, key, added, world);
    EnterLists(r, m, key, added, world);
    LogSnocAll(r.log, Reply(m, Refused));
  }

  lemma EnterRecords(s: Registry, r: Registry, key: Key, m: Message)
    requires ListsOk(r.lists, r.seen) && TimersOk(r.timers) && RecordsOk(r.lists, r.timers, r.log, r.seen)
    requires AnswersOk(r.lists, r.timers, r.log, r.seen)
    requires EnterStep(s, r, key, m)
    ensures RecordsOk(s.lists, s.timers, s.log, s.seen)
  {
    forall id: nat | id in r.timers.armed
      ensures r.timers.armed[id].message != m
    {
      assert ArmedOk(r.timers, id);
    }
    forall x: Message | x != m
      ensures x in s.timers.table <==> x in r.timers.table
      ensures x in s.timers.table ==> s.timers.table[x] == r.timers.table[x]
    {
      assert SameEntry(s.timers, r.timers, x);
    }
    forall id: nat | id in s.timers.armed
      ensures ArmedLater(s.timers, r.timers, id, key, m)
    {
    }
  }

  lemma EnterAnswers(s: Registry, r: Registry, key: Key, m: Message)
    requires AnswersOk(r.lists, r.timers, r.log, r.seen) && EnterStep(s, r, key, m)
    ensures AnswersOk(s.lists, s.timers, s.log, s.seen)
  {
    forall id: nat | id in s.timers.armed
      ensures ArmedLater(s.timers, r.timers, id, key, m)
    {
    }
  }

  lemma AddRuns(t: Timers, m: Message, key: Key, now: int, log: seq<Reply>)
    requires TimersRun(t, log) && TimersFit(t) && m !in t.table
    ensures TimersRun(t.Add(m, key, now), log)
  {
    forall x: Message | x in t.Add(m, key, now).table
      ensures RunsUntilAnswered(t.Add(m, key, now), log, x)
    {
      if x != m {
        assert RunsUntilAnswered(t, log, x) && HeldOk(t, x);
      }
    }
  }

  lemma SameAnswersRun(t: Timers, now: seq<Reply>, was: seq<Reply>)
    requires TimersRun(t, was) && SameAnswers(now, was)
    ensures TimersRun(t, now)
  {
    forall x: Message | x in t.table
      ensures RunsUntilAnswered(t, now, x)
    {
      assert RunsUntilAnswered(t, was, x);
    }
  }

  lemma EnterRuns(r: Registry, m: Message, key: Key, added: bool, world: World)
    requires TimersRun(r.timers, r.log) && TimersFit(r.timers) && m !in r.timers.table
    ensures var s := r.Enter(m, key, added, world); TimersRun(s.timers, s.log)
  {
    var s := r.Enter(m, key, added, world);
    LogSnocAll(r.log, Reply(m, Refused));
    AddRuns(r.timers, m, key, world.clock(r.readings), r.log);
    SameAnswersRun(s.timers, s.log, r.log);
  }

  lemma EnterOwned(r: Registry, m: Message, key: Key, added: bool, world: World)
    requires Owned(r.lists, r.timers, r.log) && Serves(key, m.api)
    requires Grown(r.Enter(m, key, added, world).lists, r.lists, key, m)
    ensures var s := r.Enter(m, key, added, world); Owned(s.lists, s.timers, s.log)
  {
    var s := r.Enter(m, key, added, world);
    forall x: Message | x in s.timers.table
      ensures Listed(s.lists, x) || Reply(x, Refused) in s.log
    {
      if x == m && m.api == GetLocationUpdates {
        assert !added ==> Reply(m, Refused) in s.log;
        assert added ==> m in ListOf(s.lists, key);
      }
    }
  }

  lemma EnterNoneLost(r: Registry, m: Message, key: Key, added: bool, world: World)
    requires NoneLost(r.lists, r.log, r.seen, r.cancelled) && Serves(key, m.api)
    requires Grown(r.Enter(m, key, added, world).lists, r.lists, key, m)
    requires SameAnswers(r.Enter(m, key, added, world).log, r.log)
    ensures var s := r.Enter(m, key, added, world); NoneLost(s.lists, s.log, s.seen, s.cancelled)
  {
    var s := r.Enter(m, key, added, world);
    forall x: Message | x in s.seen && Waiting(s.log, s.cancelled, x)
      ensures Listed(s.lists, x)
    {
      if x == m {
        assert !added ==> Reply(m, Refused) in s.log;
        assert m in ListOf(s.lists, key);
      } else {
        assert Waiting(r.log, r.cancelled, x);
      }
    }
  }

  /** A new request: entered into the table and the list, or refused by the bus. */
  lemma {:induction false} EnterKeeps(r: Registry, m: Message, key: Key, added: bool, world: World)
    requires Inv(r, world) && m !in r.seen && Serves(key, m.api)
    ensures Inv(r.Enter(m, key, added, world), world)
  {
    var s := r.Enter(m, key, added, world);
    EnterIsStep(r, m, key, added, world);
    GrownKeeps(s.lists, r.lists, key, m, r.seen);
    AddKeeps(r.timers, m, key, world.clock(r.readings));
    EnterRecords(s, r, key, m);
    EnterAnswers(s, r, key, m);
    EnterRuns(r, m, key, added, world);
    EnterNoneLost(r, m, key, added, world);
    EnterOwned(r, m, key, added, world);
    SpacedSnoc(r.log, Reply(m, Refused), world);
  }

  lemma CancelLists(r: Registry, m: Message)
    ensures forall k: Key :: ListOf(r.Cancel(m).lists, k) == Without(ListOf(r.lists, k), m)
  {
  }

  lemma {:induction false} CancelKeeps(r: Registry, m: Message, world: World)
    requires Inv(r, world)
    ensures Inv(r.Cancel(m), world)
  {
    var s := r.Cancel(m);
    CancelLists(r, m);
    assert Distinct(s.lists) by {
      assert forall k: Key :: NoDuplicates(ListOf(r.lists, k));
    }
    SubsetKeeps(s.lists, r.lists, r.seen);
    RemoveRequestKeeps(r.timers, m);
    CancelRecords(r, m);
    CancelRuns(r, m);
    forall x: Message | x in s.seen && Waiting(s.log, s.cancelled, x)
      ensures Listed(s.lists, x)
    {
      assert Waiting(r.log, r.cancelled, x);
    }
  }

  lemma {:induction false} CancelRuns(r: Registry, m: Message)
    requires TimersRun(r.timers, r.log) && TimersOk(r.timers)
    ensures TimersRun(r.Cancel(m).timers, r.log)
  {
    var t := r.timers.RemoveRequest(m);
    RemoveRequestKeeps(r.timers, m);
    RemoveRequestSame(r.timers, m);
    forall x: Message | x in t.table
      ensures RunsUntilAnswered(t, r.log, x)
    {
      assert SameEntry(t, r.timers, x) && RunsUntilAnswered(r.timers, r.log, x);
    }
  }

  lemma {:induction false} CancelRecords(r: Registry, m: Message)
    requires RecordsOk(r.lists, r.timers, r.log, r.seen) && TimersOk(r.timers) && ListsOk(r.lists, r.seen)
    ensures var s := r.Cancel(m); RecordsOk(s.lists, s.timers, s.log, s.seen)
  {
    var s := r.Cancel(m);
    CancelLists(r, m);
    RemoveRequestKeeps(r.timers, m);
    forall x: Message | x != m
      ensures SameEntry(s.timers, r.timers, x)
    {
      RemoveRequestSame(r.timers, m);
    }
  }

  lemma InitialInv(world: World)
    ensures Inv(Initial(), world)
  {
  }

  // What the invariant says of one request.

  /** A one-shot location request that was accepted and has been answered got exactly one
      answer and is gone from the lists, the table and the armed timeouts. */
  lemma {:induction false} AnsweredOnce(r: Registry, world: World, m: Message)
    requires Inv(r, world) && m.api == GetLocationUpdates && !m.subscription
    requires Answers(r.log, m) > 0
    ensures Answers(r.log, m) == 1
    ensures forall key: Key :: m !in r.List(key)
    ensures forall id: nat :: id in r.timers.armed ==> r.timers.armed[id].message != m
    ensures Reply(m, Refused) !in r.log ==> m !in r.timers.table
  {
    forall key: Key
      ensures m !in r.List(key)
    {
      assert m in ListOf(r.lists, key) ==> Serves(key, m.api);
    }
    assert !Listed(r.lists, m);
  }

  /** A time-out reply goes only to a request that had no answer yet. */
  lemma TimedOutUnanswered(r: Registry, world: World, i: nat)
    requires Inv(r, world) && i < |r.log| && r.log[i].kind == TimedOut
    ensures Answers(r.log[..i], r.log[i].to) == 0
  {
  }

  /** An armed timeout is that of its message's table entry, which holds its live TimerData. */
  lemma TimersOwned(r: Registry, world: World, id: nat)
    requires Inv(r, world) && id in r.timers.armed
    ensures var d := r.timers.armed[id];
            && d.message in r.timers.table && d.id !in r.timers.freed
            && r.timers.table[d.message].timerId == id && r.timers.table[d.message].timerData == Some(d)
  {
    assert ArmedOk(r.timers, id) && HeldOk(r.timers, r.timers.armed[id].message);
  }

  ghost predicate HasTimeout(t: Timers, m: Message) {
    exists id: nat :: id in t.armed && t.armed[id].message == m
  }

  /** A request of the table has a timeout running exactly if it asked for one and has had no
      answer yet. */
  lemma {:induction false} TimeoutExactly(r: Registry, world: World, m: Message)
    requires Inv(r, world) && m in r.timers.table
    ensures HasTimeout(r.timers, m) <==> m.responseTimeout != 0 && Answers(r.log, m) == 0
  {
    assert RunsUntilAnswered(r.timers, r.log, m);
    if HasTimeout(r.timers, m) {
      var id: nat :| id in r.timers.armed && r.timers.armed[id].message == m;
      assert ArmedOk(r.timers, id);
    }
  }

  /** Each TimerData ever made is either held by one entry or deleted, and that once. */
  lemma FreedExactly(r: Registry, world: World, id: nat)
    requires Inv(r, world) && 0 < id < r.timers.nextId
    ensures Held(r.timers, id) <==> id !in r.timers.freed
    ensures NoDuplicates(r.timers.freed)
  {
    if Held(r.timers, id) {
      var m: Message :| m in r.timers.table && Holds(r.timers.table[m], id);
      assert HeldOk(r.timers, m);
    }
  }

  /** The times of the positions sent to `m`. */
  function Times(log: seq<Reply>, m: Message): seq<int> {
    if log == [] then []
    else
      var last := log[|log| - 1];
      Times(log[..|log| - 1], m) + if last.to == m && last.kind.Located? then [last.kind.time] else []
  }

  lemma {:induction false} TimesLast(log: seq<Reply>, m: Message)
    ensures Times(log, m) == [] <==> LastLocated(log, m).None?
    ensures Times(log, m) != [] ==> Times(log, m)[|Times(log, m)| - 1] == LastLocated(log, m).value.0
  {
    if log == [] {
    } else {
      TimesLast(log[..|log| - 1], m);
    }
  }

  /** The k + 1 latest positions to a subscriber with an interval span k intervals, also
      when the wall clock was set back in between. */
  lemma {:induction false} PositionsSpan(log: seq<Reply>, world: World, m: Message, i: nat, j: nat)
    requires Spaced(log, world) && m.minInterval > 0
    requires i <= j < |Times(log, m)|
    ensures Times(log, m)[j] - Times(log, m)[i] >= (j - i) * (m.minInterval + 1)
  {
    if i == j {
    } else {
      var front, last := log[..|log| - 1], log[|log| - 1];
      assert log == front + [last];
      forall k | 0 <= k < |front|
        ensures MayCome(front[..k], front[k], world)
      {
        assert front[..k] == log[..k] && MayCome(log[..k], log[k], world);
      }
      if j < |Times(front, m)| {
        PositionsSpan(front, world, m, i, j);
      } else {
        PositionsSpan(front, world, m, i, j - 1);
        TimesLast(front, m);
        assert MayCome(log[..|front|], log[|front|], world);
        assert (j - i) * (m.minInterval + 1) == (j - 1 - i) * (m.minInterval + 1) + m.minInterval + 1;
      }
    }
  }

  lemma {:induction false} LocatedIsLast(log: seq<Reply>, i: nat, j: nat)
    requires i < j <= |log| && log[i].kind.Located?
    requires forall k :: i < k < j ==> log[k].to != log[i].to || !log[k].kind.Located?
    ensures LastLocated(log[..j], log[i].to) == Some((log[i].kind.time, log[i].kind.at))
  {
    assert log[..j][..j - 1] == log[..j - 1];
    if i == j - 1 {
    } else {
      LocatedIsLast(log, i, j - 1);
    }
  }

  /** Two consecutive positions to a subscriber are as far apart in time and place as it
      asked; without a "Handler" the second is accurate or a minute late. */
  lemma RateLimited(r: Registry, world: World, i: nat, j: nat)
    requires Inv(r, world) && i < j < |r.log|
    requires r.log[i].to == r.log[j].to && r.log[i].kind.Located? && r.log[j].kind.Located?
    requires forall k :: i < k < j ==> r.log[k].to != r.log[i].to || !r.log[k].kind.Located?
    ensures var (was, now, m) := (r.log[i].kind, r.log[j].kind, r.log[j].to);
            && (m.minInterval > 0 ==> now.time - was.time > m.minInterval)
            && (m.minDistance > 0 ==> world.distance(now.at, was.at) >= m.minDistance as real)
            && (m.handler == Unspecified ==>
                  now.time - was.time > HYBRID_PATIENCE || now.accuracy < MINIMAL_ACCURACY)
  {
    LocatedIsLast(r.log, i, j);
    assert MayCome(r.log[..j], r.log[j], world);
  }

  // isListFilled.

  /** Whether the list is filled; in a cancel, apart from the cancelled message `m`, which
      is looked for in the first place only. */
  function IsListFilled(list: seq<Message>, m: Option<Message>, cancelCase: bool): bool {
    if list != [] && cancelCase && m == Some(list[0]) then |list| > 1 else |list| > 0
  }

  /** Looking at the first place is enough exactly when the list does not only consist of
      repetitions of `m`; so always in a list without duplicates. */
  lemma FilledMeansOthers(list: seq<Message>, m: Message)
    ensures (IsListFilled(list, Some(m), true) <==> exists x :: x in list && x != m)
       <==> |list| < 2 || (exists x :: x in list && x != m)
    ensures NoDuplicates(list) ==> (IsListFilled(list, Some(m), true) <==> exists x :: x in list && x != m)
    ensures IsListFilled(list, None, false) <==> list != []
  {
    if |list| >= 2 && NoDuplicates(list) {
      var other := list[if list[0] == m then 1 else 0];
      assert other in list && other != m;
    } else if list != [] && list[0] != m {
      assert list[0] in list;
    }
  }
}
