/** Small definitions shared by the other modules. */
module Common {

  datatype Option<+T> = None | Some(value: T) {
    function GetOr(default: T): T {
      if Some? then value else default
    }
  }

  predicate NoDuplicates<T(==)>(s: seq<T>) {
    forall i, j :: 0 <= i < j < |s| ==> s[i] != s[j]
  }

  /** `s` without any occurrence of `x`, in the same order. */
  function Without<T(==, !new)>(s: seq<T>, x: T): (r: seq<T>)
    ensures forall y :: y in r <==> y in s && y != x
    ensures NoDuplicates(s) ==> NoDuplicates(r)
  {
    if s == [] then []
    else
      var rest := Without(s[1..], x);
      assert NoDuplicates(s) ==> NoDuplicates(s[1..]) && s[0] !in s[1..];
      if s[0] == x then rest else [s[0]] + rest
  }

  lemma {:induction false} WithoutAbsent<T(!new)>(s: seq<T>, x: T)
    requires x !in s
    ensures Without(s, x) == s
  {
    if s == [] {
    } else {
      WithoutAbsent(s[1..], x);
    }
  }

  /** `s` with every element equal to its predecessor dropped. */
  function Destutter<T(==)>(s: seq<T>): (r: seq<T>)
    ensures s != [] ==> r != [] && r[|r| - 1] == s[|s| - 1]
    ensures s == [] ==> r == []
    ensures forall i :: 0 < i < |r| ==> r[i - 1] != r[i]
  {
    if |s| <= 1 then s
    else
      var front := Destutter(s[..|s| - 1]);
      if s[|s| - 1] == s[|s| - 2] then front else front + [s[|s| - 1]]
  }

  lemma DestutterSnoc<T>(s: seq<T>, x: T)
    ensures Destutter(s + [x]) ==
            if s != [] && s[|s| - 1] == x then Destutter(s) else Destutter(s) + [x]
  {
    assert (s + [x])[..|s|] == s;
  }

  /** What the last event with something to say has said. */
  function Latest<E, T>(events: seq<E>, says: E -> Option<T>, start: T): T {
    if events == [] then start
    else says(events[|events| - 1]).GetOr(Latest(events[..|events| - 1], says, start))
  }

  lemma SliceOfSlice<T>(s: seq<T>, from: nat, to: nat, a: nat, b: nat)
    requires from <= to <= |s| && a <= b <= to - from
    ensures s[from..to][a..b] == s[from + a..from + b]
  {
    var t := s[from..to];
    forall k | 0 <= k < b - a
      ensures t[a..b][k] == s[from + a..from + b][k]
    {
      assert t[a..b][k] == t[a + k] == s[from + (a + k)];
    }
  }
}
