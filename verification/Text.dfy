/** Strings without the white space around them. */
module Text {

  predicate SpacesIn(s: string, space: char -> bool, from: nat, to: nat)
    requires to <= |s|
  {
    forall k :: from <= k < to ==> space(s[k])
  }

  predicate AllSpace(s: string, space: char -> bool) {
    SpacesIn(s, space, 0, |s|)
  }

  function TrimLeft(s: string, space: char -> bool): string {
    if s != "" && space(s[0]) then TrimLeft(s[1..], space) else s
  }

  function TrimRight(s: string, space: char -> bool): string {
    if s != "" && space(s[|s| - 1]) then TrimRight(s[..|s| - 1], space) else s
  }

  function Trim(s: string, space: char -> bool): string {
    TrimRight(TrimLeft(s, space), space)
  }

  lemma {:induction false} TrimLeftIs(s: string, space: char -> bool, from: nat)
    requires from <= |s| && SpacesIn(s, space, 0, from)
    requires from < |s| ==> !space(s[from])
    ensures TrimLeft(s, space) == s[from..]
  {
    if from == 0 {
    } else {
      TrimLeftIs(s[1..], space, from - 1);
    }
  }

  lemma {:induction false} TrimRightIs(s: string, space: char -> bool, to: nat)
    requires to <= |s| && SpacesIn(s, space, to, |s|)
    requires to > 0 ==> !space(s[to - 1])
    ensures TrimRight(s, space) == s[..to]
  {
    if to == |s| {
      assert s[..to] == s;
    } else {
      TrimRightIs(s[..|s| - 1], space, to);
      assert s[..|s| - 1][..to] == s[..to];
    }
  }

  /** Trimming is what is left between the first and the last character that is no space. */
  lemma TrimIs(s: string, space: char -> bool, from: nat, to: nat)
    requires from <= to <= |s| && SpacesIn(s, space, 0, from) && SpacesIn(s, space, to, |s|)
    requires from < to ==> !space(s[from]) && !space(s[to - 1])
    ensures Trim(s, space) == s[from..to]
  {
    if from == to {
      TrimLeftIs(s, space, |s|);
    } else {
      TrimLeftIs(s, space, from);
      var t := s[from..];
      assert forall k :: 0 <= k < |t| ==> t[k] == s[from + k];
      TrimRightIs(t, space, to - from);
      assert t[..to - from] == s[from..to];
    }
  }

  /** Trimming leaves no white space around, and does nothing a second time. */
  lemma TrimTrims(s: string, space: char -> bool)
    ensures Trim(s, space) != "" ==> !space(Trim(s, space)[0]) && !space(Trim(s, space)[|Trim(s, space)| - 1])
    ensures Trim(s, space) == "" <==> AllSpace(s, space)
    ensures Trim(Trim(s, space), space) == Trim(s, space)
  {
    var from, to := Bounds(s, space);
    TrimIs(s, space, from, to);
    var t := s[from..to];
    TrimIs(t, space, 0, |t|);
  }

  lemma Bounds(s: string, space: char -> bool) returns (from: nat, to: nat)
    ensures from <= to <= |s| && SpacesIn(s, space, 0, from) && SpacesIn(s, space, to, |s|)
    ensures from < to ==> !space(s[from]) && !space(s[to - 1])
  {
    from := 0;
    while from < |s| && space(s[from])
      invariant from <= |s| && SpacesIn(s, space, 0, from)
    {
      from := from + 1;
    }
    to := |s|;
    while to > from && space(s[to - 1])
      invariant from <= to <= |s| && SpacesIn(s, space, to, |s|)
    {
      to := to - 1;
    }
  }

  /** White space before and after does not matter. */
  lemma TrimPadded(before: string, s: string, after: string, space: char -> bool)
    requires AllSpace(before, space) && AllSpace(after, space)
    ensures Trim(before + s + after, space) == Trim(s, space)
  {
    var from, to := Bounds(s, space);
    TrimIs(s, space, from, to);
    var p := before + s + after;
    var b := |before|;
    PaddedSpaces(before, s, after, space, from, to);
    assert p[b + from..b + to] == s[from..to];
    TrimIs(p, space, b + from, b + to);
  }

  lemma PaddedSpaces(before: string, s: string, after: string, space: char -> bool, from: nat, to: nat)
    requires AllSpace(before, space) && AllSpace(after, space)
    requires from <= to <= |s| && SpacesIn(s, space, 0, from) && SpacesIn(s, space, to, |s|)
    ensures var (p, b) := (before + s + after, |before|);
            SpacesIn(p, space, 0, b + from) && SpacesIn(p, space, b + to, |p|)
  {
  }
}
