/** Wi-Fi scans and the change detector that decides whether a scan is worth a query:
    the arithmetic behind `parseWifiData`, free of any iteration order.

    A scan maps access point addresses to signal strengths. Two scans are compared
    with one reading per address, 0 where the address is missing.
 */
module WifiScans {
  import opened Common

  type Scan = map<string, int>

  const SIGNAL_CHANGE_THRESHOLD: int := 20

  function Abs(x: int): int {
    if x < 0 then -x else x
  }

  function Reading(scan: Scan, key: string): int {
    if key in scan then scan[key] else 0
  }

  function Change(now: Scan, was: Scan, key: string): int {
    Abs(Reading(now, key) - Reading(was, key))
  }

  /** The sum of the changes over a set of addresses. */
  ghost function ChangeOver(keys: set<string>, now: Scan, was: Scan): int {
    if keys == {} then 0
    else
      var key :| key in keys;
      Change(now, was, key) + ChangeOver(keys - {key}, now, was)
  }

  /** The L1 distance between two scans. */
  ghost function Distance(now: Scan, was: Scan): int {
    ChangeOver(now.Keys + was.Keys, now, was)
  }

  /** The addresses whose disappearance the second pass sees: a reading of 0 looks to
      it like a missing address. */
  function Vanished(now: Scan, was: Scan): set<string> {
    set key | key in was && Reading(now, key) == 0
  }

  /** What the two passes add up. */
  ghost function PassSum(now: Scan, was: Scan): int {
    ChangeOver(now.Keys, now, was) + ChangeOver(Vanished(now, was), now, was)
  }

  /** What the two passes divide by. */
  function PassCount(now: Scan, was: Scan): nat {
    |now| + |Vanished(now, was)|
  }

  ghost predicate Deviates(now: Scan, was: Scan) {
    PassSum(now, was) > SIGNAL_CHANGE_THRESHOLD * PassCount(now, was)
  }

  /** The change detector: what is compared with next time, and whether to query. */
  ghost function Consult(last: Option<Scan>, scan: Scan): (Option<Scan>, bool) {
    if |scan| < 2 then (last, false)
    else if last.None? || Deviates(scan, last.value) then (Some(scan), true)
    else (last, false)
  }

  // The sum does not depend on the order in which the addresses come.

  lemma {:induction false} ChangeOverRemove(keys: set<string>, now: Scan, was: Scan, key: string)
    requires key in keys
    ensures ChangeOver(keys, now, was) == Change(now, was, key) + ChangeOver(keys - {key}, now, was)
    decreases keys
  {
    var first :| first in keys &&
      ChangeOver(keys, now, was) == Change(now, was, first) + ChangeOver(keys - {first}, now, was);
    if first != key {
      ChangeOverRemove(keys - {first}, now, was, key);
      ChangeOverRemove(keys - {key}, now, was, first);
      assert keys - {first} - {key} == keys - {key} - {first};
    }
  }

  lemma {:induction false} ChangeOverUnion(a: set<string>, b: set<string>, now: Scan, was: Scan)
    requires a !! b
    ensures ChangeOver(a + b, now, was) == ChangeOver(a, now, was) + ChangeOver(b, now, was)
    decreases a
  {
    if a == {} {
      assert a + b == b;
    } else {
      var key :| key in a;
      ChangeOverRemove(a, now, was, key);
      ChangeOverRemove(a + b, now, was, key);
      assert a + b - {key} == (a - {key}) + b;
      ChangeOverUnion(a - {key}, b, now, was);
    }
  }

  lemma {:induction false} ChangeOverZero(keys: set<string>, now: Scan, was: Scan)
    requires forall key :: key in keys ==> Change(now, was, key) == 0
    ensures ChangeOver(keys, now, was) == 0
    decreases keys
  {
    if keys == {} {
    } else {
      var key :| key in keys;
      ChangeOverRemove(keys, now, was, key);
      ChangeOverZero(keys - {key}, now, was);
    }
  }

  /** The addresses of both scans that the new scan reads as 0. */
  function SharedZeros(now: Scan, was: Scan): set<string> {
    now.Keys * Vanished(now, was)
  }

  lemma VanishedSplit(now: Scan, was: Scan)
    ensures Vanished(now, was) == (was.Keys - now.Keys) + SharedZeros(now, was)
    ensures (was.Keys - now.Keys) !! SharedZeros(now, was)
  {
  }

  /** For every pair of scans, the passes add up the L1 distance plus the old readings of
      the shared zeros once more, ... */
  lemma PassSumMeasured(now: Scan, was: Scan)
    ensures PassSum(now, was) == Distance(now, was) + ChangeOver(SharedZeros(now, was), now, was)
  {
    var gone, zeros := was.Keys - now.Keys, SharedZeros(now, was);
    VanishedSplit(now, was);
    assert now.Keys + was.Keys == now.Keys + gone;
    ChangeOverUnion(now.Keys, gone, now, was);
    ChangeOverUnion(gone, zeros, now, was);
  }

  /** ... and divide by the size of the union of addresses plus the number of shared zeros. */
  lemma {:induction false} PassCountMeasured(now: Scan, was: Scan)
    ensures PassCount(now, was) == |now.Keys + was.Keys| + |SharedZeros(now, was)|
  {
    var gone := was.Keys - now.Keys;
    VanishedSplit(now, was);
    assert now.Keys + was.Keys == now.Keys + gone;
    assert |now| == |now.Keys|;
  }

  /** The passes compute the mean change over the union of addresses exactly when no
      address of both scans reads 0 in the new one. */
  lemma {:induction false} PassesExact(now: Scan, was: Scan)
    ensures (PassSum(now, was), PassCount(now, was)) == (Distance(now, was), |now.Keys + was.Keys|)
            <==> SharedZeros(now, was) == {}
  {
    PassSumMeasured(now, was);
    PassCountMeasured(now, was);
  }

  ghost predicate NonZero(scan: Scan) {
    forall key :: key in scan ==> scan[key] != 0
  }

  /** With real signal strengths a scan of two or more access points is put into a query
      exactly when there was none before or the mean change exceeds the threshold. */
  lemma {:induction false} QueriedExactly(last: Option<Scan>, scan: Scan)
    requires NonZero(scan) && |scan| >= 2
    ensures Consult(last, scan).1 <==>
              last.None? ||
              Distance(scan, last.value) > SIGNAL_CHANGE_THRESHOLD * |scan.Keys + last.value.Keys|
  {
    if last.Some? {
      PassesExact(scan, last.value);
    }
  }

  /** The mean change from one scan to another exceeds the threshold. */
  ghost predicate Differs(now: Scan, was: Scan) {
    Distance(now, was) > SIGNAL_CHANGE_THRESHOLD * |now.Keys + was.Keys|
  }

  /** The same with the shared zeros counted twice, which is what the passes compute. */
  ghost predicate DiffersWithZeros(now: Scan, was: Scan) {
    Distance(now, was) + ChangeOver(SharedZeros(now, was), now, was) >
    SIGNAL_CHANGE_THRESHOLD * (|now.Keys + was.Keys| + |SharedZeros(now, was)|)
  }

  /** A scan to be put into a query, as the history of scans has it. */
  ghost predicate ScanIsNews(history: seq<Consultation>, scan: Scan) {
    |scan| >= 2 && (LastQueried(history).None? || DiffersWithZeros(scan, LastQueried(history).value))
  }

  lemma {:induction false} ConsultedExactly(history: seq<Consultation>, scan: Scan)
    ensures Consult(LastQueried(history), scan).1 <==> ScanIsNews(history, scan)
    ensures NonZero(scan) ==>
              (ScanIsNews(history, scan) <==>
                 |scan| >= 2 && (LastQueried(history).None? || Differs(scan, LastQueried(history).value)))
  {
    if LastQueried(history).Some? {
      PassSumMeasured(scan, LastQueried(history).value);
      PassCountMeasured(scan, LastQueried(history).value);
      if NonZero(scan) {
        NoZeros(scan, LastQueried(history).value);
      }
    }
  }

  lemma NoZeros(now: Scan, was: Scan)
    requires NonZero(now)
    ensures DiffersWithZeros(now, was) <==> Differs(now, was)
  {
    assert SharedZeros(now, was) == {};
    ChangeOverZero({}, now, was);
  }

  lemma ChangeOverOne(now: Scan, was: Scan, a: string)
    ensures ChangeOver({a}, now, was) == Change(now, was, a)
  {
    ChangeOverRemove({a}, now, was, a);
    assert {a} - {a} == {};
  }

  lemma ChangeOverTwo(now: Scan, was: Scan, a: string, b: string)
    requires a != b
    ensures ChangeOver({a, b}, now, was) == Change(now, was, a) + Change(now, was, b)
  {
    ChangeOverRemove({a, b}, now, was, a);
    assert {a, b} - {a} == {b};
    ChangeOverOne(now, was, b);
  }

  /** A shared zero can turn a change within the threshold into a query. */
  lemma ZeroReadingMisjudged(a: string, b: string)
    requires a != b
    ensures var was: Scan := map[a := -36, b := -50];
            var now: Scan := map[a := 0, b := -50];
            Distance(now, was) <= SIGNAL_CHANGE_THRESHOLD * |now.Keys + was.Keys| && Deviates(now, was)
  {
    var was: Scan := map[a := -36, b := -50];
    var now: Scan := map[a := 0, b := -50];
    assert now.Keys + was.Keys == {a, b} && SharedZeros(now, was) == {a};
    PassSumMeasured(now, was);
    PassCountMeasured(now, was);
    ChangeOverTwo(now, was, a, b);
    ChangeOverOne(now, was, a);
  }

  // parseWifiData's loops.

  /** The first pass, over the new table: a looked up value of 0 is a NULL pointer, and so
      a missing key. The keys come in whatever order the iterator yields them. */
  method FirstPass(now: Scan, was: Scan) returns (sum: int)
    ensures sum == ChangeOver(now.Keys, now, was)
  {
    sum := 0;
    var todo := now.Keys;
    while todo != {}
      invariant todo <= now.Keys
      invariant sum + ChangeOver(todo, now, was) == ChangeOver(now.Keys, now, was)
      decreases |todo|
    {
      var key :| key in todo;
      var signalChange := if Reading(was, key) != 0 then Abs(now[key] - was[key]) else Abs(now[key]);
      ChangeOverRemove(todo, now, was, key);
      sum := sum + signalChange;
      todo := todo - {key};
    }
  }

  /** The second pass, over the old table. */
  method SecondPass(now: Scan, was: Scan) returns (sum: int, vanished: nat)
    ensures sum == ChangeOver(Vanished(now, was), now, was)
    ensures vanished == |Vanished(now, was)|
  {
    sum, vanished := 0, 0;
    var todo := was.Keys;
    ghost var gone := Vanished(now, was);
    assert gone * todo == gone;
    while todo != {}
      invariant todo <= was.Keys
      invariant sum + ChangeOver(gone * todo, now, was) == ChangeOver(gone, now, was)
      invariant vanished + |gone * todo| == |gone|
      decreases |todo|
    {
      var key :| key in todo;
      if Reading(now, key) == 0 {
        ChangeOverRemove(gone * todo, now, was, key);
        assert gone * todo - {key} == gone * (todo - {key});
        sum := sum + Abs(was[key]);
        vanished := vanished + 1;
      } else {
        assert gone * todo == gone * (todo - {key});
      }
      todo := todo - {key};
    }
  }

  method SignalChanged(now: Scan, was: Scan) returns (changed: bool)
    requires |now| >= 2
    ensures changed <==> Deviates(now, was)
  {
    var sum := FirstPass(now, was);
    var vanishedSum, vanishedCount := SecondPass(now, was);
    sum := sum + vanishedSum;
    var count := |now| + vanishedCount;
    var avgSignalChange := sum as real / count as real;
    MeanAbove(sum, count, SIGNAL_CHANGE_THRESHOLD);
    return avgSignalChange > SIGNAL_CHANGE_THRESHOLD as real;
  }

  /** Rebuilds the table of last access points, one insertion after the other. */
  method CopyTable(aps: Scan) returns (table: Scan)
    ensures table == aps
  {
    table := map[];
    var todo := aps.Keys;
    while todo != {}
      invariant todo <= aps.Keys && table.Keys == aps.Keys - todo
      invariant forall key :: key in table ==> table[key] == aps[key]
      decreases |todo|
    {
      var key :| key in todo;
      table := table[key := aps[key]];
      todo := todo - {key};
    }
  }

  lemma MeanAbove(sum: int, count: nat, bound: int)
    requires count > 0
    ensures sum as real / count as real > bound as real <==> sum > bound * count
  {
    var mean := sum as real / count as real;
    assert mean * count as real == sum as real;
    if mean > bound as real {
      assert mean * count as real > bound as real * count as real;
    } else {
      assert mean * count as real <= bound as real * count as real;
    }
    assert (bound * count) as real == bound as real * count as real;
  }

  // Runs of the change detector, from one reset to the next.

  datatype Consultation = Consultation(scan: Scan, queried: bool)

  function LastQueried(history: seq<Consultation>): Option<Scan> {
    if history == [] then None
    else
      var c := history[|history| - 1];
      if c.queried then Some(c.scan) else LastQueried(history[..|history| - 1])
  }

  /** Every verdict in the history is the detector's, against the scan queried last. */
  ghost predicate Judged(history: seq<Consultation>) {
    forall i :: 0 <= i < |history| ==>
      history[i].queried == Consult(LastQueried(history[..i]), history[i].scan).1
  }

  lemma HistorySnoc(history: seq<Consultation>, c: Consultation)
    ensures LastQueried(history + [c]) == if c.queried then Some(c.scan) else LastQueried(history)
  {
    assert (history + [c])[..|history|] == history;
  }

  lemma JudgedSnoc(history: seq<Consultation>, c: Consultation)
    requires Judged(history) && c.queried == Consult(LastQueried(history), c.scan).1
    ensures Judged(history + [c])
  {
    var next := history + [c];
    forall i | 0 <= i < |next|
      ensures next[i].queried == Consult(LastQueried(next[..i]), next[i].scan).1
    {
      if i < |history| {
        assert next[..i] == history[..i] && next[i] == history[i];
      } else {
        assert next[..i] == history;
      }
    }
  }

  lemma {:induction false} JudgedStep(history: seq<Consultation>, scan: Scan)
    requires Judged(history)
    ensures var (last, queried) := Consult(LastQueried(history), scan);
            var next := history + [Consultation(scan, queried)];
            Judged(next) && LastQueried(next) == last
  {
    var c := Consultation(scan, Consult(LastQueried(history), scan).1);
    HistorySnoc(history, c);
    JudgedSnoc(history, c);
  }

  /** Hysteresis: in a run over real signal strengths every query is more than the
      threshold away from the one before it, every scan passed over is within the
      threshold of the scan queried last, however many scans have come between, and the
      scan queried last is never queried again. */
  lemma Hysteresis(history: seq<Consultation>, i: nat)
    requires Judged(history) && i < |history| && NonZero(history[i].scan)
    requires LastQueried(history[..i]).Some?
    ensures var scan, last := history[i].scan, LastQueried(history[..i]).value;
            && (history[i].queried ==>
                  |scan| >= 2 && Distance(scan, last) > SIGNAL_CHANGE_THRESHOLD * |scan.Keys + last.Keys|)
            && (!history[i].queried && |scan| >= 2 ==>
                  Distance(scan, last) <= SIGNAL_CHANGE_THRESHOLD * |scan.Keys + last.Keys|)
            && (scan == last ==> !history[i].queried)
  {
    var scan, last := history[i].scan, LastQueried(history[..i]).value;
    if |scan| >= 2 {
      QueriedExactly(Some(last), scan);
      if scan == last {
        ChangeOverZero(scan.Keys + last.Keys, scan, last);
      }
    }
  }

  lemma {:induction false} TriangleOver(keys: set<string>, a: Scan, b: Scan, c: Scan)
    ensures ChangeOver(keys, a, c) <= ChangeOver(keys, a, b) + ChangeOver(keys, b, c)
    decreases keys
  {
    if keys == {} {
    } else {
      var key :| key in keys;
      ChangeOverRemove(keys, a, c, key);
      ChangeOverRemove(keys, a, b, key);
      ChangeOverRemove(keys, b, c, key);
      TriangleOver(keys - {key}, a, b, c);
    }
  }

  lemma DistanceOver(keys: set<string>, a: Scan, b: Scan)
    requires a.Keys + b.Keys <= keys
    ensures Distance(a, b) == ChangeOver(keys, a, b)
  {
    var rest := keys - (a.Keys + b.Keys);
    assert keys == (a.Keys + b.Keys) + rest;
    ChangeOverUnion(a.Keys + b.Keys, rest, a, b);
    ChangeOverZero(rest, a, b);
  }

  /** `Distance` obeys the triangle inequality. */
  lemma DistanceTriangle(a: Scan, b: Scan, c: Scan)
    ensures Distance(a, c) <= Distance(a, b) + Distance(b, c)
  {
    var keys := a.Keys + b.Keys + c.Keys;
    DistanceOver(keys, a, b);
    DistanceOver(keys, b, c);
    DistanceOver(keys, a, c);
    TriangleOver(keys, a, b, c);
  }

  lemma {:induction false} ChangeOverSymmetric(keys: set<string>, a: Scan, b: Scan)
    ensures ChangeOver(keys, a, b) == ChangeOver(keys, b, a)
    decreases keys
  {
    if keys == {} {
    } else {
      var key :| key in keys;
      ChangeOverRemove(keys, a, b, key);
      ChangeOverRemove(keys, b, a, key);
      ChangeOverSymmetric(keys - {key}, a, b);
    }
  }

  /** Two scans passed over since the same query cannot have drifted apart by more than
      both their allowances together. */
  lemma NoUnseenDrift(history: seq<Consultation>, i: nat, j: nat)
    requires Judged(history) && i < j < |history|
    requires NonZero(history[i].scan) && NonZero(history[j].scan)
    requires |history[i].scan| >= 2 && |history[j].scan| >= 2
    requires !history[i].queried && !history[j].queried
    requires LastQueried(history[..i]).Some? && LastQueried(history[..i]) == LastQueried(history[..j])
    ensures var last := LastQueried(history[..i]).value;
            Distance(history[i].scan, history[j].scan) <=
            SIGNAL_CHANGE_THRESHOLD *
            (|history[i].scan.Keys + last.Keys| + |history[j].scan.Keys + last.Keys|)
  {
    var last := LastQueried(history[..i]).value;
    Hysteresis(history, i);
    Hysteresis(history, j);
    DistanceTriangle(history[i].scan, last, history[j].scan);
    ChangeOverSymmetric(last.Keys + history[j].scan.Keys, last, history[j].scan);
    assert last.Keys + history[j].scan.Keys == history[j].scan.Keys + last.Keys;
  }
}
