/** Reading gps.conf into a table of parameters: chunks of a file, two tokens separated by
    '=', both trimmed in place, and the entries they name.

    A string in a buffer ends before the first NUL. strtol, atoi and atof are functions of the
    text; they are not modelled.
 */
module GpsConfig {
  import opened Common
  import opened Text

  const GPS_MAX_PARAM_LINE: nat := 80
  const GPS_MAX_PARAM_STRING: nat := 80

  /** isspace in the C locale. */
  predicate IsSpace(c: char) {
    c == ' ' || ('\t' <= c <= '\r')
  }

  // trim_spaces.

  /** The string is trimmed, but one of spaces only stays as it is. */
  function Trimmed(s: string): string {
    if AllSpace(s, IsSpace) then s else Trim(s, IsSpace)
  }

  predicate NoNul(s: string) {
    forall i :: 0 <= i < |s| ==> s[i] != '\0'
  }

  predicate NoNulIn(buf: seq<char>, from: nat, to: nat)
    requires to <= |buf|
  {
    forall k :: from <= k < to ==> buf[k] != '\0'
  }

  /** The C string at `from`, which ends at `end`. */
  predicate StringAt(buf: seq<char>, from: nat, end: nat, s: string) {
    from <= end < |buf| && buf[from..end] == s && NoNul(s) && buf[end] == '\0'
  }

  /** Of the string from `from` to `end`, from `first` to `last` is left without the spaces. */
  ghost predicate Kept(buf: seq<char>, from: nat, first: nat, last: nat, end: nat) {
    && from <= first < last <= end <= |buf|
    && SpacesIn(buf, IsSpace, from, first) && SpacesIn(buf, IsSpace, last, end)
    && !IsSpace(buf[first]) && !IsSpace(buf[last - 1])
  }

  lemma KeptIsTrimmed(buf: seq<char>, from: nat, first: nat, last: nat, end: nat)
    requires Kept(buf, from, first, last, end)
    ensures Trimmed(buf[from..end]) == buf[first..last]
  {
    var s := buf[from..end];
    SliceSpaces(buf, from, end, from, first);
    SliceSpaces(buf, from, end, last, end);
    SliceOfSlice(buf, from, end, first - from, last - from);
    assert s[first - from] == buf[first] && s[last - from - 1] == buf[last - 1];
    TrimIs(s, IsSpace, first - from, last - from);
    NotAllSpace(s, first - from);
  }

  lemma SliceSpaces(buf: seq<char>, from: nat, end: nat, a: nat, b: nat)
    requires from <= a <= b <= end <= |buf| && SpacesIn(buf, IsSpace, a, b)
    ensures SpacesIn(buf[from..end], IsSpace, a - from, b - from)
  {
  }

  lemma NotAllSpace(s: string, k: nat)
    requires k < |s| && !IsSpace(s[k])
    ensures !AllSpace(s, IsSpace)
  {
  }

  predicate Same(now: seq<char>, was: seq<char>, from: nat, to: nat)
    requires to <= |now| && to <= |was|
  {
    forall k :: from <= k < to ==> now[k] == was[k]
  }

  /** `now` has at `to` the `n` characters that `was` has at `from`. */
  ghost predicate Moved(now: seq<char>, was: seq<char>, from: nat, to: nat, n: nat) {
    && from + n <= |was| && to + n <= |now|
    && forall k :: to <= k < to + n ==> now[k] == was[k - to + from]
  }

  lemma MovedSlice(now: seq<char>, was: seq<char>, from: nat, to: nat, n: nat)
    requires Moved(now, was, from, to, n)
    ensures now[to..to + n] == was[from..from + n]
  {
    var (a, b) := (now[to..to + n], was[from..from + n]);
    forall k | 0 <= k < n
      ensures a[k] == b[k]
    {
      assert a[k] == now[to + k] == was[to + k - to + from];
    }
  }

  /** The loop of trim_spaces has scanned up to `scan` and written up to `write`, which never
      passes `scan`: what it keeps has moved to the front, and ends at `last`. */
  ghost predicate Scanned(now: seq<char>, was: seq<char>, from: nat, first: Option<nat>, last: Option<nat>, write: nat, scan: nat) {
    && from <= write <= scan < |now| == |was|
    && Same(now, was, 0, from) && Same(now, was, scan, |now|)
    && (first.Some? <==> last.Some?)
    && (first.None? ==> write == from && SpacesIn(was, IsSpace, from, scan) && now == was)
    && (first.Some? ==> ScannedKept(now, was, from, first.value, last.value, write, scan))
  }

  ghost predicate ScannedKept(now: seq<char>, was: seq<char>, from: nat, first: nat, last: nat, write: nat, scan: nat) {
    && from <= first < scan && write - from == scan - first >= 0
    && Moved(now, was, first, from, write - from)
    && from < last <= write
    && Kept(was, from, first, first + last - from, scan)
  }

  lemma ScanSpace(now: seq<char>, was: seq<char>, from: nat, write: nat, scan: nat)
    requires Scanned(now, was, from, None, None, write, scan) && scan + 1 < |now| && IsSpace(now[scan])
    ensures Scanned(now, was, from, None, None, write, scan + 1)
  {
  }

  lemma ScanFirst(now: seq<char>, was: seq<char>, from: nat, write: nat, scan: nat)
    requires Scanned(now, was, from, None, None, write, scan) && scan + 1 < |now| && !IsSpace(now[scan])
    ensures Scanned(now[write := now[scan]], was, from, Some(scan), Some(write + 1), write + 1, scan + 1)
  {
  }

  lemma KeptNext(buf: seq<char>, from: nat, first: nat, last: nat, scan: nat)
    requires Kept(buf, from, first, last, scan) && scan < |buf|
    ensures Kept(buf, from, first, if IsSpace(buf[scan]) then last else scan + 1, scan + 1)
  {
  }

  lemma MovedNext(now: seq<char>, was: seq<char>, first: nat, from: nat, write: nat)
    requires from <= write < |now| && Moved(now, was, first, from, write - from) && first + write - from < |was|
    ensures Moved(now[write := was[first + write - from]], was, first, from, write + 1 - from)
  {
  }

  lemma ScanNext(now: seq<char>, was: seq<char>, from: nat, first: nat, last: nat, write: nat, scan: nat)
    requires Scanned(now, was, from, Some(first), Some(last), write, scan) && scan + 1 < |now|
    ensures Scanned(now[write := now[scan]], was, from, Some(first),
                    Some(if IsSpace(now[scan]) then last else write + 1), write + 1, scan + 1)
  {
    assert now[scan] == was[scan];
    MovedNext(now, was, first, from, write);
    KeptNext(was, from, first, first + last - from, scan);
  }

  /** One turn of the loop, on values. */
  function Advance(now: seq<char>, first: Option<nat>, last: Option<nat>, write: nat, scan: nat): (seq<char>, Option<nat>, Option<nat>, nat)
    requires write <= scan < |now|
  {
    var f := if first.None? && !IsSpace(now[scan]) then Some(scan) else first;
    if f.None? then (now, f, last, write)
    else (now[write := now[scan]], f, if IsSpace(now[scan]) then last else Some(write + 1), write + 1)
  }

  lemma ScanStep(now: seq<char>, was: seq<char>, from: nat, first: Option<nat>, last: Option<nat>, write: nat, scan: nat)
    requires Scanned(now, was, from, first, last, write, scan) && scan + 1 < |now|
    ensures var (n, f, l, w) := Advance(now, first, last, write, scan);
            Scanned(n, was, from, f, l, w, scan + 1)
  {
    if first.Some? {
      ScanNext(now, was, from, first.value, last.value, write, scan);
    } else if IsSpace(now[scan]) {
      ScanSpace(now, was, from, write, scan);
    } else {
      ScanFirst(now, was, from, write, scan);
    }
  }

  lemma ScanDone(now: seq<char>, was: seq<char>, from: nat, first: nat, last: nat, write: nat, scan: nat)
    requires Scanned(now, was, from, Some(first), Some(last), write, scan)
    requires NoNulIn(was, from, scan)
    ensures StringAt(now[last := '\0'], from, last, Trimmed(was[from..scan]))
  {
    var to: nat := first + last - from;
    KeptIsTrimmed(was, from, first, to, scan);
    MovedSlice(now, was, first, from, last - from);
    assert now[last := '\0'][from..last] == now[from..last];
  }

  /** One turn of the loop. */
  method Scan(buf: array<char>, scan: nat, w: nat, first: Option<nat>, last: Option<nat>)
    returns (write: nat, firstNonspace: Option<nat>, lastNonspace: Option<nat>)
    requires w <= scan < buf.Length
    modifies buf
    ensures (buf[..], firstNonspace, lastNonspace, write) == Advance(old(buf[..]), first, last, w, scan)
  {
    write, firstNonspace, lastNonspace := w, first, last;
    if !IsSpace(buf[scan]) && firstNonspace.None? {
      firstNonspace := Some(scan);
    }
    if firstNonspace.Some? {
      buf[write] := buf[scan];
      write := write + 1;
      if !IsSpace(buf[write - 1]) {
        lastNonspace := Some(write);
      }
    }
  }

  method ScanKept(buf: array<char>, ghost was: seq<char>, from: nat, scan: nat, w: nat, first: Option<nat>, last: Option<nat>)
    returns (write: nat, firstNonspace: Option<nat>, lastNonspace: Option<nat>)
    requires scan + 1 < buf.Length && Scanned(buf[..], was, from, first, last, w, scan)
    modifies buf
    ensures Scanned(buf[..], was, from, firstNonspace, lastNonspace, write, scan + 1)
  {
    ScanStep(buf[..], was, from, first, last, w, scan);
    write, firstNonspace, lastNonspace := Scan(buf, scan, w, first, last);
  }

  method ScanAll(buf: array<char>, from: nat, end: nat)
    returns (write: nat, firstNonspace: Option<nat>, lastNonspace: Option<nat>)
    requires from <= end < buf.Length && NoNulIn(buf[..], from, end) && buf[end] == '\0'
    modifies buf
    ensures Scanned(buf[..], old(buf[..]), from, firstNonspace, lastNonspace, write, end)
  {
    ghost var was := buf[..];
    var scan := from;
    write, firstNonspace, lastNonspace := from, None, None;
    while buf[scan] != '\0'
      invariant Scanned(buf[..], was, from, firstNonspace, lastNonspace, write, scan)
      invariant scan <= end
      decreases end - scan
    {
      StillBeforeEnd(buf[..], was, from, firstNonspace, lastNonspace, write, scan, end);
      write, firstNonspace, lastNonspace := ScanKept(buf, was, from, scan, write, firstNonspace, lastNonspace);
      scan := scan + 1;
    }
    ScansToEnd(buf[..], was, from, firstNonspace, lastNonspace, write, scan, end);
  }

  /** trim_spaces on the string from `from` to `end`, in place: nothing else in the buffer
      changes. */
  method TrimSpaces(buf: array<char>, from: nat, end: nat) returns (newEnd: nat)
    requires from <= end < buf.Length && NoNulIn(buf[..], from, end) && buf[end] == '\0'
    modifies buf
    ensures newEnd <= end && StringAt(buf[..], from, newEnd, Trimmed(old(buf[..])[from..end]))
    ensures Same(buf[..], old(buf[..]), 0, from) && Same(buf[..], old(buf[..]), end + 1, buf.Length)
  {
    ghost var was := buf[..];
    var write, firstNonspace, lastNonspace := ScanAll(buf, from, end);
    newEnd := end;
    ghost var now := buf[..];
    if lastNonspace.Some? {
      ScanDone(now, was, from, firstNonspace.value, lastNonspace.value, write, end);
      newEnd := lastNonspace.value;
      buf[newEnd] := '\0';
      assert buf[..] == now[newEnd := '\0'];
    }
  }

  lemma StillBeforeEnd(now: seq<char>, was: seq<char>, from: nat, first: Option<nat>, last: Option<nat>, write: nat, scan: nat, end: nat)
    requires Scanned(now, was, from, first, last, write, scan)
    requires scan <= end < |was| && was[end] == '\0' && now[scan] != '\0'
    ensures scan < end
  {
    assert now[scan] == was[scan];
  }

  lemma ScansToEnd(now: seq<char>, was: seq<char>, from: nat, first: Option<nat>, last: Option<nat>, write: nat, scan: nat, end: nat)
    requires Scanned(now, was, from, first, last, write, scan)
    requires scan <= end < |was| && NoNulIn(was, from, end) && now[scan] == '\0'
    ensures scan == end
  {
    assert now[scan] == was[scan];
  }

  // strtok_r.

  function SkipSeparators(s: string): string {
    if s != "" && s[0] == '=' then SkipSeparators(s[1..]) else s
  }

  /** The first '=' in `s`, or its length. */
  function SeparatorIn(s: string): (i: nat)
    ensures i <= |s| && (i < |s| ==> s[i] == '=') && forall k :: 0 <= k < i ==> s[k] != '='
  {
    if s == "" || s[0] == '=' then 0 else 1 + SeparatorIn(s[1..])
  }

  /** The next token, and what is left after the '=' that ends it. */
  function Token(s: string): Option<(string, string)> {
    var t := SkipSeparators(s);
    var i := SeparatorIn(t);
    if t == "" then None else Some((t[..i], if i < |t| then t[i + 1..] else ""))
  }

  lemma {:induction false} SkipSeparatorsIs(s: string, from: nat)
    requires from <= |s| && (forall k :: 0 <= k < from ==> s[k] == '=') && (from < |s| ==> s[from] != '=')
    ensures SkipSeparators(s) == s[from..]
  {
    if from == 0 {
    } else {
      SkipSeparatorsIs(s[1..], from - 1);
    }
  }

  lemma TokenIs(s: string, from: nat, to: nat)
    requires from < to <= |s| && (forall k :: 0 <= k < from ==> s[k] == '=')
    requires (forall k :: from <= k < to ==> s[k] != '=') && (to < |s| ==> s[to] == '=')
    ensures Token(s) == Some((s[from..to], if to < |s| then s[to + 1..] else ""))
  {
    SkipSeparatorsIs(s, from);
    var t := s[from..];
    var i := SeparatorIn(t);
    assert i < |t| ==> t[i] == s[from + i];
    assert to < |s| ==> t[to - from] == s[to];
    assert i == to - from;
    assert t[..i] == s[from..to];
    assert to < |s| ==> t[i + 1..] == s[to + 1..];
  }

  /** The scanning of strtok_r on the string from `from` to `end`. */
  method FindToken(buf: array<char>, from: nat, end: nat) returns (start: nat, stop: nat)
    requires from <= end < buf.Length
    ensures from <= start <= stop <= end
    ensures Token(buf[..][from..end]) ==
            if start == end then None else Some((buf[..][start..stop], buf[..][if stop < end then stop + 1 else end..end]))
    ensures start < end ==> start < stop
  {
    start := from;
    while start < end && buf[start] == '='
      invariant from <= start <= end
      invariant forall k :: from <= k < start ==> buf[k] == '='
    {
      start := start + 1;
    }
    stop := start;
    while stop < end && buf[stop] != '='
      invariant start <= stop <= end
      invariant forall k :: start <= k < stop ==> buf[k] != '='
    {
      stop := stop + 1;
    }
    if start == end {
      NoTokenInBuffer(buf[..], from, end);
    } else {
      TokenInBuffer(buf[..], from, start, stop, end);
    }
  }

  lemma NoTokenInBuffer(b: seq<char>, from: nat, end: nat)
    requires from <= end <= |b| && forall k :: from <= k < end ==> b[k] == '='
    ensures Token(b[from..end]) == None
  {
    SkipSeparatorsIs(b[from..end], end - from);
  }

  lemma TokenInBuffer(b: seq<char>, from: nat, start: nat, stop: nat, end: nat)
    requires from <= start < stop <= end <= |b|
    requires forall k :: from <= k < start ==> b[k] == '='
    requires forall k :: start <= k < stop ==> b[k] != '='
    requires stop < end ==> b[stop] == '='
    ensures Token(b[from..end]) == Some((b[start..stop], b[(if stop < end then stop + 1 else end)..end]))
  {
    var s := b[from..end];
    TokenIs(s, start - from, stop - from);
    SliceOfSlice(b, from, end, start - from, stop - from);
    if stop < end {
      SliceOfSlice(b, from, end, stop + 1 - from, end - from);
      assert s[stop + 1 - from..end - from] == s[stop + 1 - from..];
    } else {
      assert b[end..end] == "";
    }
  }

  /** strtok_r: the token found is cut off in place. */
  method StrtokR(buf: array<char>, from: nat, end: nat) returns (found: bool, start: nat, stop: nat, next: nat)
    requires from <= end < buf.Length && buf[end] == '\0'
    modifies buf
    ensures !found ==> Token(old(buf[..])[from..end]) == None
    ensures found ==>
              && from <= start < stop <= next <= end && (stop < end ==> stop < next)
              && Token(old(buf[..])[from..end]) == Some((old(buf[..])[start..stop], old(buf[..])[next..end]))
              && buf[..] == old(buf[..])[stop := '\0']
  {
    start, stop := FindToken(buf, from, end);
    found, next := start < end, stop;
    if found {
      if stop < end {
        next := stop + 1;
      }
      buf[stop] := '\0';
    }
  }

  // gps_read_conf.

  /** A line of the file: a name and a value, or None for lines to skip. */
  function ParseLine(s: string): Option<(string, string)> {
    match Token(s)
    case None => None
    case Some((name, rest)) =>
      match Token(rest)
      case None => None
      case Some((value, _)) => Some((Trimmed(name), Trimmed(value)))
  }

  lemma AfterCut(was: seq<char>, stop: nat, next: nat, from: nat, to: nat)
    requires stop < |was| && from <= to < |was| && (to <= stop || stop < from || from == to) && NoNulIn(was, from, to)
    ensures var cut := was[stop := '\0'];
            && NoNulIn(cut, from, to) && cut[from..to] == was[from..to]
            && (was[to] == '\0' || stop == to ==> cut[to] == '\0')
  {
  }

  /** The tokens cut out of the line buffer and trimmed where they are. */
  method SplitLine(buf: array<char>, end: nat) returns (line: Option<(string, string)>)
    requires end < buf.Length && NoNulIn(buf[..], 0, end) && buf[end] == '\0'
    modifies buf
    ensures line == ParseLine(old(buf[..])[..end])
  {
    ghost var was := buf[..];
    assert was[0..end] == was[..end];
    var found, start, stop, next := StrtokR(buf, 0, end);
    if !found {
      return None;
    }
    AfterCut(was, stop, next, next, end);
    AfterCut(was, stop, next, start, stop);
    ghost var cut := buf[..];
    var found2, start2, stop2, next2 := StrtokR(buf, next, end);
    if !found2 {
      return None;
    }
    AfterCut(cut, stop2, next2, start, stop);
    AfterCut(cut, stop2, next2, start2, stop2);
    line := TrimBoth(buf, start, stop, start2, stop2);
  }

  method TrimBoth(buf: array<char>, start: nat, stop: nat, start2: nat, stop2: nat) returns (line: Option<(string, string)>)
    requires start <= stop < start2 <= stop2 < buf.Length
    requires NoNulIn(buf[..], start, stop) && NoNulIn(buf[..], start2, stop2) && buf[stop] == '\0' && buf[stop2] == '\0'
    modifies buf
    ensures line == Some((Trimmed(old(buf[..])[start..stop]), Trimmed(old(buf[..])[start2..stop2])))
  {
    ghost var cut := buf[..];
    var nameEnd := TrimSpaces(buf, start, stop);
    ghost var trimmed := buf[..];
    SameSlice(trimmed, cut, start2, stop2);
    var valueEnd := TrimSpaces(buf, start2, stop2);
    SameSlice(buf[..], trimmed, start, nameEnd);
    return Some((buf[..][start..nameEnd], buf[..][start2..valueEnd]));
  }

  lemma SameSlice(now: seq<char>, was: seq<char>, from: nat, to: nat)
    requires from <= to <= |now| && to <= |was| && Same(now, was, from, to)
    ensures now[from..to] == was[from..to]
  {
  }

  /** strtol in base 16, atoi and atof. */
  datatype Parsers = Parsers(hex: string -> int, decimal: string -> int, float: string -> real)

  datatype Line = Line(name: string, text: string, number: int, decimal: real)

  function Interpret(name: string, text: string, parsers: Parsers): Line {
    if |text| >= 2 && text[0] == '0' && (text[1] == 'x' || text[1] == 'X')
    then Line(name, text, parsers.hex(text[2..]), 0.0)
    else Line(name, text, parsers.decimal(text), parsers.float(text))
  }

  /** An entry of the table; `bound` and `flagged` tell whether its two pointers are set. */
  datatype Param = Param(name: string, kind: char, bound: bool, flagged: bool)

  /** What an entry's pointers point to. */
  datatype Setting = Setting(text: string, number: int, decimal: real, isSet: bool)

  function Truncated(s: string): (r: string)
    ensures |r| < GPS_MAX_PARAM_STRING && |r| <= |s| && r == s[..|r|]
    ensures r == s || |r| == GPS_MAX_PARAM_STRING - 1
  {
    if |s| < GPS_MAX_PARAM_STRING then s else s[..GPS_MAX_PARAM_STRING - 1]
  }

  predicate Names(line: Line, p: Param) {
    p.name == line.name && p.bound && (p.kind == 's' || p.kind == 'n' || p.kind == 'f')
  }

  function Assigned(p: Param, s: Setting, line: Line): Setting {
    if !Names(line, p) then s
    else
      var t := s.(isSet := s.isSet || p.flagged);
      if p.kind == 's' then t.(text := if line.text == "NULL" then "" else Truncated(line.text))
      else if p.kind == 'n' then t.(number := line.number)
      else t.(decimal := line.decimal)
  }

  method GpsSetConfigEntry(p: Param, s: Setting, line: Line) returns (r: Setting)
    ensures r == Assigned(p, s, line)
  {
    r := s;
    if p.name == line.name && p.bound {
      match p.kind {
        case 's' =>
          if line.text == "NULL" {
            r := r.(text := "");
          } else {
            r := r.(text := Truncated(line.text));
          }
          if p.flagged {
            r := r.(isSet := true);
          }
        case 'n' =>
          r := r.(number := line.number);
          if p.flagged {
            r := r.(isSet := true);
          }
        case 'f' =>
          r := r.(decimal := line.decimal);
          if p.flagged {
            r := r.(isSet := true);
          }
        case _ =>
      }
    }
  }

  function AssignedAll(p: Param, s: Setting, lines: seq<Line>): Setting
    decreases |lines|
  {
    if lines == [] then s else AssignedAll(p, Assigned(p, s, lines[0]), lines[1..])
  }

  // The chunks fgets reads.

  /** The length of the next chunk: through the next newline, at most 79 characters. */
  function ChunkLength(content: string, limit: nat): (n: nat)
    requires limit > 0
    ensures n <= limit && n <= |content|
    ensures content != "" ==> n > 0
    ensures forall k :: 0 <= k < n - 1 ==> content[k] != '\n'
    ensures n < limit && n < |content| ==> n > 0 && content[n - 1] == '\n'
  {
    if content == "" then 0
    else if content[0] == '\n' || limit == 1 then 1
    else 1 + ChunkLength(content[1..], limit - 1)
  }

  /** A chunk as a C string: up to its first NUL. */
  function CString(s: string): (r: string)
    ensures |r| <= |s| && r == s[..|r|] && NoNul(r) && (|r| < |s| ==> s[|r|] == '\0')
  {
    if s == "" || s[0] == '\0' then "" else [s[0]] + CString(s[1..])
  }

  /** The well-formed lines of a file, in order. */
  function Lines(content: string, parsers: Parsers): seq<Line> {
    if content == "" then []
    else
      var n := ChunkLength(content, GPS_MAX_PARAM_LINE - 1);
      var rest := Lines(content[n..], parsers);
      match ParseLine(CString(content[..n]))
      case None => rest
      case Some((name, text)) => [Interpret(name, text, parsers)] + rest
  }

  /** A name or a value that a line can hold as it is. */
  predicate Word(s: string) {
    s != "" && !IsSpace(s[0]) && !IsSpace(s[|s| - 1]) && '=' !in s
  }

  lemma TrimmedPadded(a: string, word: string, b: string)
    requires AllSpace(a, IsSpace) && AllSpace(b, IsSpace) && Word(word)
    ensures Trimmed(a + word + b) == word
  {
    var s := a + word + b;
    assert s[|a|] == word[0];
    NotAllSpace(s, |a|);
    TrimPadded(a, word, b, IsSpace);
    TrimIs(word, IsSpace, 0, |word|);
  }

  /** A line with a name and a value, and white space wherever it likes, gives both. */
  lemma PairParses(a: string, name: string, b: string, c: string, text: string, d: string)
    requires AllSpace(a, IsSpace) && AllSpace(b, IsSpace) && AllSpace(c, IsSpace) && AllSpace(d, IsSpace)
    requires Word(name) && Word(text)
    ensures ParseLine((a + name + b) + "=" + (c + text + d)) == Some((name, text))
  {
    var (first, second) := (a + name + b, c + text + d);
    var s := first + "=" + second;
    NoSeparator(a, name, b);
    NoSeparator(c, text, d);
    TokenIs(s, 0, |first|);
    assert s[0..|first|] == first && s[|first| + 1..] == second;
    TokenIs(second, 0, |second|);
    assert second[0..|second|] == second;
    TrimmedPadded(a, name, b);
    TrimmedPadded(c, text, d);
  }

  lemma NoSeparator(a: string, word: string, b: string)
    requires AllSpace(a, IsSpace) && AllSpace(b, IsSpace) && Word(word)
    ensures '=' !in a + word + b
  {
  }

  /** A parameter that fits on a line. */
  predicate Storable(pair: (string, string)) {
    && Word(pair.0) && Word(pair.1) && NoNul(pair.0) && NoNul(pair.1)
    && '\n' !in pair.0 && '\n' !in pair.1 && |pair.0| + |pair.1| + 2 < GPS_MAX_PARAM_LINE
  }

  function LineOf(pair: (string, string)): string {
    pair.0 + "=" + (pair.1 + "\n")
  }

  function FileOf(pairs: seq<(string, string)>): string {
    if pairs == [] then "" else LineOf(pairs[0]) + FileOf(pairs[1..])
  }

  predicate IsHex(text: string) {
    |text| >= 2 && (text[..2] == "0x" || text[..2] == "0X")
  }

  /** What a line says: a value with the hexadecimal prefix is read without it, any other as
      a decimal integer and a decimal fraction. */
  predicate Says(line: Line, pair: (string, string), parsers: Parsers) {
    && line.name == pair.0 && line.text == pair.1
    && line.number == (if IsHex(pair.1) then parsers.hex(pair.1[2..]) else parsers.decimal(pair.1))
    && (!IsHex(pair.1) ==> line.decimal == parsers.float(pair.1))
  }

  lemma FirstChunk(pair: (string, string), rest: string)
    requires Storable(pair)
    ensures var content := LineOf(pair) + rest;
            var n := ChunkLength(content, GPS_MAX_PARAM_LINE - 1);
            CString(content[..n]) == LineOf(pair) && content[n..] == rest
  {
    var l := LineOf(pair);
    var content := l + rest;
    var n := ChunkLength(content, GPS_MAX_PARAM_LINE - 1);
    assert content[|l| - 1] == '\n';
    assert forall k :: 0 <= k < |l| - 1 ==> content[k] == l[k] && l[k] != '\n';
    assert n == |l| && content[..n] == l;
    assert forall k :: 0 <= k < |l| ==> l[k] != '\0';
  }

  lemma Unpadded(s: string)
    ensures "" + s == s && s + "" == s
  {
  }

  lemma LineParses(pair: (string, string))
    requires Storable(pair)
    ensures ParseLine(LineOf(pair)) == Some((pair.0, pair.1))
  {
    PairParses("", pair.0, "", "", pair.1, "\n");
    Unpadded(pair.0);
    Unpadded(pair.1);
  }

  lemma FirstLine(pair: (string, string), rest: string, parsers: Parsers)
    requires Storable(pair)
    ensures Lines(LineOf(pair) + rest, parsers) == [Interpret(pair.0, pair.1, parsers)] + Lines(rest, parsers)
  {
    FirstChunk(pair, rest);
    LineParses(pair);
  }

  /** A file with one parameter a line is read back as it was written. */
  lemma {:induction false} FileComesBack(pairs: seq<(string, string)>, parsers: Parsers)
    requires forall k :: 0 <= k < |pairs| ==> Storable(pairs[k])
    ensures var lines := Lines(FileOf(pairs), parsers);
            |lines| == |pairs| && forall k :: 0 <= k < |pairs| ==> Says(lines[k], pairs[k], parsers)
    decreases |pairs|
  {
    if pairs == [] {
    } else {
      FirstLine(pairs[0], FileOf(pairs[1..]), parsers);
      FileComesBack(pairs[1..], parsers);
      Interpreted(pairs[0].0, pairs[0].1, parsers);
    }
  }

  lemma Interpreted(name: string, text: string, parsers: Parsers)
    ensures Says(Interpret(name, text, parsers), (name, text), parsers)
  {
  }

  /** One chunk, on an entry. */
  function Used(p: Param, s: Setting, chunk: string, parsers: Parsers): Setting {
    match ParseLine(chunk)
    case None => s
    case Some((name, text)) => Assigned(p, s, Interpret(name, text, parsers))
  }

  lemma UsedFirst(p: Param, s: Setting, content: string, parsers: Parsers)
    requires content != ""
    ensures var n := ChunkLength(content, GPS_MAX_PARAM_LINE - 1);
            AssignedAll(p, s, Lines(content, parsers)) ==
            AssignedAll(p, Used(p, s, CString(content[..n]), parsers), Lines(content[n..], parsers))
  {
  }

  /** Reading changes nothing if there is no file; otherwise the flag is cleared, and then
      the lines are assigned one after the other. */
  function Read(p: Param, s: Setting, content: Option<string>, parsers: Parsers): Setting {
    if content.None? then s
    else AssignedAll(p, if p.flagged then s.(isSet := false) else s, Lines(content.value, parsers))
  }

  /** Of the lines that name an entry the last decides, whatever came before; an entry no
      line names keeps its setting. */
  lemma {:induction false} LastLineWins(p: Param, s: Setting, lines: seq<Line>, k: nat)
    requires k < |lines| && Names(lines[k], p) && forall j :: k < j < |lines| ==> !Names(lines[j], p)
    ensures var r := AssignedAll(p, s, lines);
            && (p.kind == 's' ==> r.text == (if lines[k].text == "NULL" then "" else Truncated(lines[k].text))
                                  && |r.text| < GPS_MAX_PARAM_STRING && r.number == s.number && r.decimal == s.decimal)
            && (p.kind == 'n' ==> r.number == lines[k].number && r.text == s.text && r.decimal == s.decimal)
            && (p.kind == 'f' ==> r.decimal == lines[k].decimal && r.text == s.text && r.number == s.number)
            && (r.isSet <==> s.isSet || p.flagged)
    decreases |lines|
  {
    var t := Assigned(p, s, lines[0]);
    if k > 0 {
      LastLineWins(p, t, lines[1..], k - 1);
    } else {
      forall j | 0 <= j < |lines[1..]|
        ensures !Names(lines[1..][j], p)
      {
        assert lines[1..][j] == lines[j + 1];
      }
      UnnamedStays(p, t, lines[1..]);
    }
  }

  lemma {:induction false} UnnamedStays(p: Param, s: Setting, lines: seq<Line>)
    requires forall j :: 0 <= j < |lines| ==> !Names(lines[j], p)
    ensures AssignedAll(p, s, lines) == s
    decreases |lines|
  {
    if lines == [] {
    } else {
      UnnamedStays(p, s, lines[1..]);
    }
  }

  ghost predicate SomeNames(lines: seq<Line>, p: Param) {
    exists j :: 0 <= j < |lines| && Names(lines[j], p)
  }

  lemma {:induction false} LastNaming(lines: seq<Line>, p: Param) returns (k: nat)
    requires SomeNames(lines, p)
    ensures k < |lines| && Names(lines[k], p) && forall j :: k < j < |lines| ==> !Names(lines[j], p)
  {
    k := |lines| - 1;
    var j :| 0 <= j < |lines| && Names(lines[j], p);
    while !Names(lines[k], p)
      invariant j <= k < |lines| && forall i :: k < i < |lines| ==> !Names(lines[i], p)
      decreases k
    {
      k := k - 1;
    }
  }

  /** After reading a file an entry's flag says whether some line of it named the entry. */
  lemma {:induction false} FlagSaysNamed(p: Param, s: Setting, content: string, parsers: Parsers)
    requires p.flagged
    ensures Read(p, s, Some(content), parsers).isSet <==> SomeNames(Lines(content, parsers), p)
    ensures !SomeNames(Lines(content, parsers), p) ==> Read(p, s, Some(content), parsers) == s.(isSet := false)
  {
    var lines := Lines(content, parsers);
    if SomeNames(lines, p) {
      var k := LastNaming(lines, p);
      LastLineWins(p, s.(isSet := false), lines, k);
    } else {
      UnnamedStays(p, s.(isSet := false), lines);
    }
  }

  /** A file sets each entry to the value of the last parameter with its name; ... */
  lemma {:induction false} FileSets(p: Param, s: Setting, pairs: seq<(string, string)>, parsers: Parsers, k: nat)
    requires forall j :: 0 <= j < |pairs| ==> Storable(pairs[j])
    requires k < |pairs| && pairs[k].0 == p.name && forall j :: k < j < |pairs| ==> pairs[j].0 != p.name
    requires p.bound
    ensures var (r, text) := (Read(p, s, Some(FileOf(pairs)), parsers), pairs[k].1);
            && (p.kind == 's' ==> r == Setting(if text == "NULL" then "" else text, s.number, s.decimal, s.isSet || p.flagged))
            && (p.kind == 'n' ==>
                  r == Setting(s.text, if IsHex(text) then parsers.hex(text[2..]) else parsers.decimal(text), s.decimal,
                               s.isSet || p.flagged))
            && (p.kind == 'f' && !IsHex(text) ==> r == Setting(s.text, s.number, parsers.float(text), s.isSet || p.flagged))
  {
    var lines := Lines(FileOf(pairs), parsers);
    FileComesBack(pairs, parsers);
    forall j | 0 <= j < |lines|
      ensures lines[j].name == pairs[j].0
    {
      assert Says(lines[j], pairs[j], parsers);
    }
    if p.kind == 's' || p.kind == 'n' || p.kind == 'f' {
      LastLineWins(p, if p.flagged then s.(isSet := false) else s, lines, k);
    }
  }

  /** ... an entry without one keeps its value, and its flag says so. */
  lemma {:induction false} FileSetsNothing(p: Param, s: Setting, pairs: seq<(string, string)>, parsers: Parsers)
    requires forall j :: 0 <= j < |pairs| ==> Storable(pairs[j]) && pairs[j].0 != p.name
    ensures Read(p, s, Some(FileOf(pairs)), parsers) == if p.flagged then s.(isSet := false) else s
  {
    var lines := Lines(FileOf(pairs), parsers);
    FileComesBack(pairs, parsers);
    forall j | 0 <= j < |lines|
      ensures lines[j].name == pairs[j].0
    {
      assert Says(lines[j], pairs[j], parsers);
    }
    UnnamedStays(p, if p.flagged then s.(isSet := false) else s, lines);
  }

  /** The table with what its entries point to; no two entries point to the same place. */
  class ConfigTable {
    const params: seq<Param>
    const settings: array<Setting>

    ghost predicate Valid() {
      settings.Length == |params|
    }

    constructor (params: seq<Param>, settings: array<Setting>)
      requires settings.Length == |params|
      ensures Valid() && this.params == params && this.settings == settings
    {
      this.params, this.settings := params, settings;
    }

    /** fgets; the rest of the buffer does not matter. */
    method ReadChunk(content: string, buf: array<char>) returns (n: nat)
      requires buf.Length == GPS_MAX_PARAM_LINE
      modifies buf
      ensures n == ChunkLength(content, GPS_MAX_PARAM_LINE - 1)
      ensures buf[..n] == content[..n] && buf[n] == '\0'
    {
      n := ChunkLength(content, GPS_MAX_PARAM_LINE - 1);
      var i := 0;
      while i < n
        invariant 0 <= i <= n && buf[..i] == content[..i]
      {
        buf[i] := content[i];
        i := i + 1;
      }
      buf[n] := '\0';
    }

    method SetEntries(line: Line)
      requires Valid()
      modifies settings
      ensures forall i :: 0 <= i < |params| ==> settings[i] == Assigned(params[i], old(settings[i]), line)
    {
      var i := 0;
      while i < settings.Length
        invariant 0 <= i <= settings.Length
        invariant forall k :: 0 <= k < i ==> settings[k] == Assigned(params[k], old(settings[k]), line)
        invariant forall k :: i <= k < settings.Length ==> settings[k] == old(settings[k])
      {
        settings[i] := GpsSetConfigEntry(params[i], settings[i], line);
        i := i + 1;
      }
    }

    method ClearFlags()
      requires Valid()
      modifies settings
      ensures forall i :: 0 <= i < |params| ==>
                settings[i] == if params[i].flagged then old(settings[i]).(isSet := false) else old(settings[i])
    {
      var i := 0;
      while i < settings.Length
        invariant 0 <= i <= settings.Length
        invariant forall k :: 0 <= k < i ==>
                    settings[k] == if params[k].flagged then old(settings[k]).(isSet := false) else old(settings[k])
        invariant forall k :: i <= k < settings.Length ==> settings[k] == old(settings[k])
      {
        if params[i].flagged {
          settings[i] := settings[i].(isSet := false);
        }
        i := i + 1;
      }
    }

    /** One round of the reading loop, from the buffer on. */
    method UseChunk(buf: array<char>, n: nat, parsers: Parsers)
      requires Valid() && n < buf.Length && buf[n] == '\0'
      modifies settings, buf
      ensures forall i :: 0 <= i < |params| ==>
                settings[i] == Used(params[i], old(settings[i]), CString(old(buf[..n])), parsers)
    {
      var end := |CString(buf[..n])|;
      assert buf[..end] == CString(buf[..n]);
      assert end < n ==> buf[..n][end] == buf[end];
      assert forall k :: 0 <= k < end ==> buf[k] == buf[..end][k];
      var line := SplitLine(buf, end);
      if line.Some? {
        SetEntries(Interpret(line.value.0, line.value.1, parsers));
      }
    }

    method GpsReadConf(content: Option<string>, parsers: Parsers)
      requires Valid()
      modifies settings
      ensures forall i :: 0 <= i < |params| ==> settings[i] == Read(params[i], old(settings[i]), content, parsers)
    {
      if content.None? {
        return;
      }
      ClearFlags();
      var buf := new char[GPS_MAX_PARAM_LINE];
      var rest := content.value;
      while rest != ""
        invariant fresh(buf) && buf.Length == GPS_MAX_PARAM_LINE
        invariant forall i :: 0 <= i < |params| ==>
                    AssignedAll(params[i], settings[i], Lines(rest, parsers)) == Read(params[i], old(settings[i]), content, parsers)
        decreases |rest|
      {
        var n := ReadChunk(rest, buf);
        forall i | 0 <= i < |params|
          ensures AssignedAll(params[i], settings[i], Lines(rest, parsers)) ==
                  AssignedAll(params[i], Used(params[i], settings[i], CString(rest[..n]), parsers), Lines(rest[n..], parsers))
        {
          UsedFirst(params[i], settings[i], rest, parsers);
        }
        UseChunk(buf, n, parsers);
        rest := rest[n..];
      }
    }
  }
}
