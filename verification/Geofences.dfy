/** The allocator of geofence ids: 200 slots, a random draw for each try, and releases by the
    HAL's replies and by cancelled subscriptions.

    The ids drawn, the HAL's and the bus's answers are inputs. Hand-outs and releases are
    kept as a history.
 */
module Geofences {
  import opened Common

  const MAX_GEOFENCE_ID: nat := 200
  const MIN_GEOFENCE_RANGE: int := 1000

  type Token = nat

  datatype Entry = HandedOut(token: Token, id: int) | Released(id: int)

  datatype AddResult = Accepted(id: int) | TooMany | GpsOff | Failed(id: int)

  /** `forWhom` is the subscriber whose geofence the HAL was asked to add or to remove when
      it replies; the reply does not say, and the program does not know. */
  datatype Event =
    | Add(token: Token, gpsOn: bool, draws: nat -> int, requested: bool, added: bool)
    | AddReply(id: int, success: bool, forWhom: Token)
    | RemoveReply(id: int, success: bool, key: Option<Token>, forWhom: Token)
    | Cancel(token: Token)

  /** geofenceSlot. */
  function Slot(id: int): (slot: Option<nat>)
    ensures slot.Some? <==> MIN_GEOFENCE_RANGE <= id < MIN_GEOFENCE_RANGE + MAX_GEOFENCE_ID
    ensures slot.Some? ==> slot.value < MAX_GEOFENCE_ID && slot.value + MIN_GEOFENCE_RANGE == id
  {
    var index := id - MIN_GEOFENCE_RANGE;
    if index < 0 || index >= MAX_GEOFENCE_ID then None else Some(index)
  }

  type Slots = s: seq<bool> | |s| == MAX_GEOFENCE_ID witness seq(MAX_GEOFENCE_ID, _ => false)

  predicate Free(used: Slots, id: int) {
    Slot(id).Some? && !used[Slot(id).value]
  }

  /** The first free id among the draws from the k-th on. */
  function Pick(used: Slots, draws: nat -> int, k: nat): Option<int>
    decreases MAX_GEOFENCE_ID - k
  {
    if k >= MAX_GEOFENCE_ID then None
    else if Free(used, draws(k)) then Some(draws(k))
    else Pick(used, draws, k + 1)
  }

  /** An id is found exactly when one of the 200 draws is free; so in a full table never. */
  lemma {:induction false} PickFinds(used: Slots, draws: nat -> int, k: nat)
    ensures Pick(used, draws, k).Some? <==> exists i: nat :: k <= i < MAX_GEOFENCE_ID && Free(used, draws(i))
    ensures Pick(used, draws, k).Some? ==> Free(used, Pick(used, draws, k).value)
    ensures (forall slot :: 0 <= slot < MAX_GEOFENCE_ID ==> used[slot]) ==> Pick(used, draws, k) == None
    decreases MAX_GEOFENCE_ID - k
  {
    if k >= MAX_GEOFENCE_ID || Free(used, draws(k)) {
    } else {
      PickFinds(used, draws, k + 1);
    }
  }

  /** `tokens` is htPseudoGeofence. */
  datatype Table = Table(used: Slots, tokens: map<Token, int>, history: seq<Entry>)
  {
    function Release(id: int): Table {
      if Slot(id).Some? then this.(used := used[Slot(id).value := false], history := history + [Released(id)])
      else this
    }

    function HandOut(token: Token, id: int): Table
      requires Slot(id).Some?
    {
      this.(used := used[Slot(id).value := true], history := history + [HandedOut(token, id)])
    }

    /** addGeofenceArea: the id is taken before the HAL is asked, and kept if it refuses. */
    function AddArea(token: Token, gpsOn: bool, draws: nat -> int, requested: bool, added: bool): (Table, AddResult) {
      var pick := Pick(used, draws, 0);
      if !gpsOn then (this, GpsOff)
      else if pick.None? || Slot(pick.value).None? then (this, TooMany)
      else
        var t := HandOut(token, pick.value);
        if !requested || !added then (t, Failed(pick.value))
        else (t.(tokens := tokens[token := pick.value]), Accepted(pick.value))
    }

    function AddAnswered(id: int, success: bool): Table {
      if success then this else Release(id)
    }

    /** `key` is the entry of the id that the iteration over the table finds first. */
    function RemoveAnswered(id: int, success: bool, key: Option<Token>): Table {
      if !success then this
      else Release(id).(tokens := if key.Some? then tokens - {key.value} else tokens)
    }

    /** cancelSubscription; the entry stays in the table. */
    function CancelArea(token: Token): Table {
      if token in tokens then Release(tokens[token]) else this
    }

    function Step(e: Event): Table {
      match e
      case Add(token, gpsOn, draws, requested, added) => AddArea(token, gpsOn, draws, requested, added).0
      case AddReply(id, success, _) => AddAnswered(id, success)
      case RemoveReply(id, success, key, _) => RemoveAnswered(id, success, key)
      case Cancel(token) => CancelArea(token)
    }
  }

  function Initial(): Table {
    Table(seq(MAX_GEOFENCE_ID, _ => false), map[], [])
  }

  function Run(t: Table, events: seq<Event>): Table {
    if events == [] then t
    else Run(t, events[..|events| - 1]).Step(events[|events| - 1])
  }

  /** Whether `id` is handed out and not since released. */
  predicate IsOut(history: seq<Entry>, id: int) {
    if history == [] then false
    else
      var last := history[|history| - 1];
      if last.id == id then last.HandedOut? else IsOut(history[..|history| - 1], id)
  }

  /** Only ids that are not out are handed out. */
  ghost predicate Exclusive(history: seq<Entry>) {
    forall i :: 0 <= i < |history| && history[i].HandedOut? ==>
      !IsOut(history[..i], history[i].id) && Slot(history[i].id).Some?
  }

  ghost predicate Inv(t: Table) {
    && (forall id: int :: IsOut(t.history, id) <==> Slot(id).Some? && t.used[Slot(id).value])
    && Exclusive(t.history)
  }

  lemma HistorySnoc(history: seq<Entry>, e: Entry)
    requires Exclusive(history)
    requires e.HandedOut? ==> !IsOut(history, e.id) && Slot(e.id).Some?
    ensures Exclusive(history + [e])
    ensures forall id: int :: IsOut(history + [e], id) == if e.id == id then e.HandedOut? else IsOut(history, id)
  {
    var more := history + [e];
    assert more[..|history|] == history;
    forall i | 0 <= i < |history|
      ensures more[..i] == history[..i] && more[i] == history[i]
    {
    }
  }

  lemma ReleaseKeeps(t: Table, id: int)
    requires Inv(t)
    ensures Inv(t.Release(id))
  {
    HistorySnoc(t.history, Released(id));
  }

  lemma AddKeeps(t: Table, token: Token, gpsOn: bool, draws: nat -> int, requested: bool, added: bool)
    requires Inv(t)
    ensures Inv(t.AddArea(token, gpsOn, draws, requested, added).0)
  {
    PickFinds(t.used, draws, 0);
    var pick := Pick(t.used, draws, 0);
    if pick.Some? {
      HandOutKeeps(t, token, pick.value);
    }
  }

  lemma HandOutKeeps(t: Table, token: Token, id: int)
    requires Inv(t) && Free(t.used, id)
    ensures Inv(t.HandOut(token, id))
  {
    HistorySnoc(t.history, HandedOut(token, id));
  }

  lemma StepKeeps(t: Table, e: Event)
    requires Inv(t)
    ensures Inv(t.Step(e))
  {
    if e.Add? {
      AddKeeps(t, e.token, e.gpsOn, e.draws, e.requested, e.added);
    } else if e.Cancel? {
      if e.token in t.tokens {
        ReleaseKeeps(t, t.tokens[e.token]);
      }
    } else {
      ReleaseKeeps(t, e.id);
    }
  }

  lemma {:induction false} RunKeeps(events: seq<Event>)
    ensures Inv(Run(Initial(), events))
  {
    if events == [] {
    } else {
      RunKeeps(events[..|events| - 1]);
      StepKeeps(Run(Initial(), events[..|events| - 1]), events[|events| - 1]);
    }
  }

  lemma {:induction false} OutUntilReleased(history: seq<Entry>, i: nat, j: nat)
    requires i < j <= |history| && history[i].HandedOut?
    requires forall k :: i < k < j ==> history[k] != Released(history[i].id)
    ensures IsOut(history[..j], history[i].id)
  {
    assert history[..j][..j - 1] == history[..j - 1];
    if i == j - 1 {
    } else {
      OutUntilReleased(history, i, j - 1);
    }
  }

  /** In every run the used slots are those of the ids handed out and not since released,
      every id handed out has a slot, and between two hand-outs of an id it is released. */
  lemma {:induction false} IdsAreExclusive(events: seq<Event>)
    ensures var t := Run(Initial(), events);
            && (forall id: int :: IsOut(t.history, id) <==> Slot(id).Some? && t.used[Slot(id).value])
            && (forall i, j :: 0 <= i < j < |t.history| && t.history[i].HandedOut? && t.history[j].HandedOut? && t.history[i].id == t.history[j].id ==>
                  exists k :: i < k < j && t.history[k] == Released(t.history[i].id))
  {
    RunKeeps(events);
    var h := Run(Initial(), events).history;
    forall i, j | 0 <= i < j < |h| && h[i].HandedOut? && h[j].HandedOut? && h[i].id == h[j].id
      ensures exists k :: i < k < j && h[k] == Released(h[i].id)
    {
      if forall k :: i < k < j ==> h[k] != Released(h[i].id) {
        OutUntilReleased(h, i, j);
      }
    }
  }

  /** A hand-out takes one free slot and touches no other; a full table refuses whatever is
      drawn; when the HAL or the bus refuses, the slot stays taken though nobody can cancel. */
  lemma AddAreaEffect(t: Table, token: Token, gpsOn: bool, draws: nat -> int, requested: bool, added: bool)
    ensures var (u, r) := t.AddArea(token, gpsOn, draws, requested, added);
            && (r == TooMany <==> gpsOn && forall i: nat :: i < MAX_GEOFENCE_ID ==> !Free(t.used, draws(i)))
            && (r.TooMany? || r.GpsOff? ==> u == t)
            && (r.Accepted? || r.Failed? ==>
                  && Free(t.used, r.id) && (exists i: nat :: i < MAX_GEOFENCE_ID && r.id == draws(i))
                  && (forall id: int :: Free(u.used, id) <==> Free(t.used, id) && id != r.id)
                  && u.tokens == if r.Accepted? then t.tokens[token := r.id] else t.tokens)
            && (r.Accepted? <==> gpsOn && r != TooMany && requested && added)
    ensures gpsOn && (forall slot :: 0 <= slot < MAX_GEOFENCE_ID ==> t.used[slot]) ==>
              t.AddArea(token, gpsOn, draws, requested, added) == (t, TooMany)
  {
    PickFinds(t.used, draws, 0);
    PickIsDrawn(t.used, draws, 0);
  }

  lemma {:induction false} PickIsDrawn(used: Slots, draws: nat -> int, k: nat)
    ensures Pick(used, draws, k).Some? ==>
              exists i: nat :: k <= i < MAX_GEOFENCE_ID && Pick(used, draws, k).value == draws(i)
    decreases MAX_GEOFENCE_ID - k
  {
    if k >= MAX_GEOFENCE_ID || Free(used, draws(k)) {
    } else {
      PickIsDrawn(used, draws, k + 1);
    }
  }

  /** A release frees its id and nothing else; an id without a slot changes nothing. */
  lemma ReleaseEffect(t: Table, id: int)
    ensures Slot(id).None? ==> t.Release(id) == t
    ensures forall other: int :: Free(t.Release(id).used, other) <==> Free(t.used, other) || (other == id && Slot(id).Some?)
  {
  }

  // Who has an id.

  /** The subscriber that has `id`: it was handed out to it and not released since. */
  function Holder(history: seq<Entry>, id: int): (holder: Option<Token>)
    ensures holder.Some? <==> IsOut(history, id)
  {
    if history == [] then None
    else
      var last := history[|history| - 1];
      if last.id != id then Holder(history[..|history| - 1], id)
      else if last.HandedOut? then Some(last.token)
      else None
  }

  lemma HolderSnoc(history: seq<Entry>, e: Entry, id: int)
    ensures Holder(history + [e], id) ==
            if e.id != id then Holder(history, id) else if e.HandedOut? then Some(e.token) else None
  {
    assert (history + [e])[..|history|] == history;
  }

  /** The subscriber, if any, for whom a step releases `id`: the one that cancels, or the
      one whose geofence failed to be added or was removed. */
  function ReleasedFor(t: Table, e: Event, id: int): Option<Token> {
    match e
    case Add(_, _, _, _, _) => None
    case AddReply(i, success, forWhom) => if i == id && !success then Some(forWhom) else None
    case RemoveReply(i, success, _, forWhom) => if i == id && success then Some(forWhom) else None
    case Cancel(token) => if token in t.tokens && t.tokens[token] == id then Some(token) else None
  }

  lemma ReleaseHolder(t: Table, i: int, id: int)
    requires Inv(t)
    ensures Holder(t.Release(i).history, id) == if i == id then None else Holder(t.history, id)
  {
    HolderSnoc(t.history, Released(i), id);
  }

  lemma AddHolder(t: Table, token: Token, gpsOn: bool, draws: nat -> int, requested: bool, added: bool, id: int)
    requires Inv(t)
    ensures var u := t.AddArea(token, gpsOn, draws, requested, added).0;
            Holder(u.history, id) == Holder(t.history, id) || (Holder(t.history, id) == None && Holder(u.history, id) == Some(token))
  {
    PickFinds(t.used, draws, 0);
    var pick := Pick(t.used, draws, 0);
    if pick.Some? {
      HolderSnoc(t.history, HandedOut(token, pick.value), id);
    }
  }

  /** A step takes `id` from whoever has it exactly if it releases the id for some subscriber;
      only an add gives it to somebody. */
  lemma HolderAfter(t: Table, e: Event, id: int)
    requires Inv(t)
    ensures ReleasedFor(t, e, id).Some? ==> Holder(t.Step(e).history, id) == None
    ensures ReleasedFor(t, e, id).None? ==>
              Holder(t.Step(e).history, id) == Holder(t.history, id) ||
              (e.Add? && Holder(t.history, id) == None && Holder(t.Step(e).history, id) == Some(e.token))
  {
    if e.Add? {
      AddHolder(t, e.token, e.gpsOn, e.draws, e.requested, e.added, id);
    } else if e.Cancel? {
      if e.token in t.tokens {
        ReleaseHolder(t, t.tokens[e.token], id);
      }
    } else {
      ReleaseHolder(t, e.id, id);
    }
  }

  /** A step releases `id`, which `b` has, for another subscriber. */
  predicate TakenFrom(t: Table, e: Event, id: int, b: Token) {
    Holder(t.history, id) == Some(b) && ReleasedFor(t, e, id).Some? && ReleasedFor(t, e, id) != Some(b)
  }

  predicate Follows(path: seq<Table>, events: seq<Event>, k: nat)
    requires k < |events| && k + 1 < |path|
  {
    path[k + 1] == path[k].Step(events[k])
  }

  /** The tables a run goes through: path[k] is the table before the k-th event. */
  ghost predicate IsRun(path: seq<Table>, events: seq<Event>) {
    && |path| == |events| + 1 && path[0] == Initial()
    && forall k: nat :: k < |events| ==> Follows(path, events, k)
  }

  lemma {:induction false} PathIsRun(path: seq<Table>, events: seq<Event>, k: nat)
    requires IsRun(path, events) && k <= |events|
    ensures path[k] == Run(Initial(), events[..k]) && Inv(path[k])
  {
    if k == 0 {
    } else {
      PathIsRun(path, events, k - 1);
      assert Follows(path, events, k - 1);
      assert events[..k][..k - 1] == events[..k - 1];
    }
    RunKeeps(events[..k]);
  }

  predicate Has(t: Table, id: int, b: Token) {
    Holder(t.history, id) == Some(b)
  }

  /** In every run a subscriber loses an id it has without giving it up exactly at a step that
      releases the id for another: a cancel by one whose table entry still names the id, or a
      reply to a request of the HAL that was made for another. */
  lemma LosesOnlyForAnother(path: seq<Table>, events: seq<Event>, k: nat, id: int, b: Token)
    requires IsRun(path, events) && k < |events| && Has(path[k], id, b)
    ensures !Has(path[k + 1], id, b) && ReleasedFor(path[k], events[k], id) != Some(b)
       <==> TakenFrom(path[k], events[k], id, b)
  {
    PathIsRun(path, events, k);
    assert Follows(path, events, k);
    HolderAfter(path[k], events[k], id);
  }

  /** The table of tokens names what was handed out. */
  ghost predicate TokensOk(t: Table) {
    forall token :: token in t.tokens ==> HandedOut(token, t.tokens[token]) in t.history
  }

  lemma TokensStep(t: Table, e: Event)
    requires TokensOk(t)
    ensures TokensOk(t.Step(e))
  {
  }

  lemma {:induction false} TokensInRun(events: seq<Event>)
    ensures TokensOk(Run(Initial(), events))
  {
    if events == [] {
    } else {
      TokensInRun(events[..|events| - 1]);
      TokensStep(Run(Initial(), events[..|events| - 1]), events[|events| - 1]);
    }
  }

  /** The HAL replies only about geofences it was asked for: the id was handed out to the
      subscriber it replies for. */
  ghost predicate Honest(t: Table, e: Event) {
    && (e.AddReply? ==> HandedOut(e.forWhom, e.id) in t.history)
    && (e.RemoveReply? ==> HandedOut(e.forWhom, e.id) in t.history)
  }

  /** The other subscriber is an earlier one: the id was handed out to it before the step,
      for a cancel always and for a reply if the HAL is honest. */
  lemma TakenForAnEarlierOne(path: seq<Table>, events: seq<Event>, k: nat, id: int, b: Token)
    requires IsRun(path, events) && k < |events| && TakenFrom(path[k], events[k], id, b)
    requires Honest(path[k], events[k])
    ensures ReleasedFor(path[k], events[k], id).Some?
    ensures HandedOut(ReleasedFor(path[k], events[k], id).value, id) in path[k].history
  {
    PathIsRun(path, events, k);
    TokensInRun(events[..k]);
  }

  /** An event neither gives `id` up for `b` nor is a new request of `b`. */
  predicate Stays(t: Table, e: Event, id: int, b: Token) {
    (e.Add? ==> e.token != b) && ReleasedFor(t, e, id) != Some(b)
  }

  lemma KeepsOneStep(path: seq<Table>, events: seq<Event>, k: nat, id: int, b: Token)
    requires IsRun(path, events) && k < |events| && Stays(path[k], events[k], id, b)
    ensures Has(path[k + 1], id, b) <==> Has(path[k], id, b) && !TakenFrom(path[k], events[k], id, b)
  {
    PathIsRun(path, events, k);
    assert Follows(path, events, k);
    HolderAfter(path[k], events[k], id);
  }

  /** So a subscriber that has an id and does not give it up still has it later exactly if no
      step in between has taken it away. */
  lemma {:induction false} KeepsUnlessTaken(path: seq<Table>, events: seq<Event>, i: nat, j: nat, id: int, b: Token)
    requires IsRun(path, events) && i <= j <= |events| && Has(path[i], id, b)
    requires forall k :: i <= k < j ==> Stays(path[k], events[k], id, b)
    ensures Has(path[j], id, b) <==> forall k :: i <= k < j ==> !TakenFrom(path[k], events[k], id, b)
    decreases j
  {
    if i == j {
    } else {
      KeepsUnlessTaken(path, events, i, j - 1, id, b);
      KeepsOneStep(path, events, j - 1, id, b);
    }
  }

  /** Two subscribers that were handed out the same id and have both kept it share it only
      after it was taken from one of them. */
  lemma SharedOnlyIfTaken(path: seq<Table>, events: seq<Event>, i1: nat, i2: nat, j: nat, id: int, a: Token, b: Token)
    requires IsRun(path, events) && a != b && i1 <= j <= |events| && i2 <= j
    requires Has(path[i1], id, a) && forall k :: i1 <= k < j ==> Stays(path[k], events[k], id, a)
    requires Has(path[i2], id, b) && forall k :: i2 <= k < j ==> Stays(path[k], events[k], id, b)
    ensures (exists k :: i1 <= k < j && TakenFrom(path[k], events[k], id, a)) ||
            (exists k :: i2 <= k < j && TakenFrom(path[k], events[k], id, b))
  {
    KeepsUnlessTaken(path, events, i1, j, id, a);
    KeepsUnlessTaken(path, events, i2, j, id, b);
  }

  /** Exclusive ids do not mean that two subscribers never share one: the removal confirmed
      late for a cancelled subscriber releases the id of the next, who has not cancelled. */
  lemma LateConfirmationFreesTheNext(a: Token, b: Token, c: Token)
    requires a != b && b != c && a != c
    ensures var draws := (n: nat) => 1000;
            var t := Initial().Step(Add(a, true, draws, true, true)).Step(Cancel(a))
                              .Step(Add(b, true, draws, true, true)).Step(RemoveReply(1000, true, Some(a), a))
                              .Step(Add(c, true, draws, true, true));
            && t.tokens == map[b := 1000, c := 1000]
            && t.history == [HandedOut(a, 1000), Released(1000), HandedOut(b, 1000), Released(1000), HandedOut(c, 1000)]
  {
    var draws := (n: nat) => 1000;
    var used := Initial().used;
    assert Pick(used, draws, 0) == Some(1000);
    assert used[0 := true][0 := false] == used;
  }

  /** So does a failed add: its subscriber can still cancel, when another has the id. */
  lemma FailedAddCancelsTheNext(a: Token, b: Token)
    requires a != b
    ensures var draws := (n: nat) => 1000;
            var t := Initial().Step(Add(a, true, draws, true, true)).Step(AddReply(1000, false, a))
                              .Step(Add(b, true, draws, true, true)).Step(Cancel(a));
            t.tokens == map[a := 1000, b := 1000] && Free(t.used, 1000)
  {
    var draws := (n: nat) => 1000;
    var used := Initial().used;
    assert Pick(used, draws, 0) == Some(1000);
    assert used[0 := true][0 := false] == used;
  }

  /** The service's array of slots and its table of tokens. */
  class GeofenceTable {
    const isGeofenceIdUsed: array<bool>
    var htPseudoGeofence: map<Token, int>
    var history: seq<Entry>

    predicate Valid()
      reads this
    {
      isGeofenceIdUsed.Length == MAX_GEOFENCE_ID
    }

    function State(): Table
      reads this, isGeofenceIdUsed
      requires Valid()
    {
      Table(isGeofenceIdUsed[..], htPseudoGeofence, history)
    }

    constructor ()
      ensures Valid() && fresh(isGeofenceIdUsed) && State() == Initial()
    {
      isGeofenceIdUsed := new bool[MAX_GEOFENCE_ID](_ => false);
      htPseudoGeofence, history := map[], [];
    }

    method Release(id: int)
      requires Valid()
      modifies `history, isGeofenceIdUsed
      ensures State() == old(State()).Release(id)
    {
      var slot := Slot(id);
      if slot.Some? {
        isGeofenceIdUsed[slot.value] := false;
        history := history + [Released(id)];
      }
    }

    method AddGeofenceArea(token: Token, gpsOn: bool, draws: nat -> int, requested: bool, added: bool)
      returns (result: AddResult)
      requires Valid()
      modifies this, isGeofenceIdUsed
      ensures (State(), result) == old(State()).AddArea(token, gpsOn, draws, requested, added)
    {
      if !gpsOn {
        return GpsOff;
      }
      var geofenceId: Option<int> := None;
      var count := 0;
      while count < MAX_GEOFENCE_ID
        invariant 0 <= count <= MAX_GEOFENCE_ID && geofenceId.None?
        invariant State() == old(State()) && Pick(State().used, draws, 0) == Pick(State().used, draws, count)
      {
        var candidate := draws(count);
        var slot := Slot(candidate);
        if slot.Some? && !isGeofenceIdUsed[slot.value] {
          isGeofenceIdUsed[slot.value] := true;
          history := history + [HandedOut(token, candidate)];
          geofenceId := Some(candidate);
          break;
        }
        count := count + 1;
      }
      if geofenceId.None? {
        return TooMany;
      }
      if !requested || !added {
        return Failed(geofenceId.value);
      }
      htPseudoGeofence := htPseudoGeofence[token := geofenceId.value];
      return Accepted(geofenceId.value);
    }

    method GeofenceAddReply(id: int, success: bool)
      requires Valid()
      modifies `history, isGeofenceIdUsed
      ensures State() == old(State()).AddAnswered(id, success)
    {
      if !success {
        Release(id);
      }
    }

    method SendGeofenceRemoveData(id: int, success: bool) returns (key: Option<Token>)
      requires Valid()
      modifies this, isGeofenceIdUsed
      ensures State() == old(State()).RemoveAnswered(id, success, key)
      ensures key.Some? ==> key.value in old(htPseudoGeofence) && old(htPseudoGeofence)[key.value] == id
      ensures key.None? && success ==> forall token :: token in old(htPseudoGeofence) ==> old(htPseudoGeofence)[token] != id
    {
      key := None;
      if success {
        Release(id);
        if token :| token in htPseudoGeofence && htPseudoGeofence[token] == id {
          htPseudoGeofence := htPseudoGeofence - {token};
          key := Some(token);
        }
      }
    }

    method CancelSubscription(token: Token)
      requires Valid()
      modifies `history, isGeofenceIdUsed
      ensures State() == old(State()).CancelArea(token)
    {
      if token in htPseudoGeofence {
        Release(htPseudoGeofence[token]);
      }
    }
  }
}
