/** Putting an API key into the URL template of a geolocation server. */
module GeolocateUrl {
  import opened Common
  import opened Text

  predicate IsKeyChar(c: char) {
    'A' <= c <= 'Z' || 'a' <= c <= 'z' || '0' <= c <= '9' || c == '-' || c == '_'
  }

  predicate IsSpace(c: char) {
    c == ' ' || c == '\t' || c == '\n' || c == '\r'
  }

  predicate SlotAt(s: string, i: nat) {
    i + 1 < |s| && s[i] == '%' && s[i + 1] == 's'
  }

  /** strstr(template, "%s"). */
  function FindSlot(s: string): (slot: Option<nat>)
    ensures slot.Some? ==> SlotAt(s, slot.value)
    ensures forall i: nat :: SlotAt(s, i) ==> slot.Some? && slot.value <= i
  {
    if SlotAt(s, 0) then Some(0)
    else if s == "" then None
    else
      var rest := FindSlot(s[1..]);
      assert forall i: nat :: SlotAt(s, i) && i > 0 ==> SlotAt(s[1..], i - 1);
      if rest.None? then None else Some(rest.value + 1)
  }

  predicate IsKey(key: string) {
    key != "" && forall i :: 0 <= i < |key| ==> IsKeyChar(key[i])
  }

  /** The URL, if one can be built that fits a buffer of `size`, its NUL included. */
  function Build(template: Option<string>, apiKey: Option<string>, size: nat): Option<string> {
    if size == 0 || template.None? then None
    else
      var t := template.value;
      match FindSlot(t)
      case None => if |t| < size then template else None
      case Some(i) =>
        if apiKey.None? then None
        else
          var key := Trim(apiKey.value, IsSpace);
          if IsKey(key) && |t| - 2 + |key| < size
          then Some(t[..i] + key + t[i + 2..]) else None
  }

  /** `url` is `template` with the key in place of its first "%s", where the key is what
      `apiKey` has between white space and is made of allowed characters. */
  ghost predicate Fills(template: string, apiKey: string, url: string) {
    exists prefix: string, suffix: string, before: string, key: string, after: string ::
      Splits(template, prefix, suffix) && Surrounds(apiKey, before, key, after) && url == prefix + key + suffix
  }

  predicate Splits(template: string, prefix: string, suffix: string) {
    template == prefix + "%s" + suffix && forall i: nat :: SlotAt(template, i) ==> |prefix| <= i
  }

  predicate Surrounds(apiKey: string, before: string, key: string, after: string) {
    apiKey == before + key + after && AllSpace(before, IsSpace) && AllSpace(after, IsSpace) && IsKey(key)
  }

  lemma SplitsIs(template: string, prefix: string, suffix: string)
    ensures Splits(template, prefix, suffix) <==>
            FindSlot(template).Some? && prefix == template[..FindSlot(template).value] && suffix == template[FindSlot(template).value + 2..]
  {
    if Splits(template, prefix, suffix) {
      assert SlotAt(template, |prefix|);
    }
    if FindSlot(template).Some? {
      var i := FindSlot(template).value;
      assert template[i..i + 2] == "%s";
      assert template == template[..i] + "%s" + template[i + 2..];
    }
  }

  lemma SurroundedIsTrimmed(apiKey: string, before: string, key: string, after: string)
    requires Surrounds(apiKey, before, key, after)
    ensures Trim(apiKey, IsSpace) == key
  {
    TrimPadded(before, key, after, IsSpace);
    assert key[0..|key|] == key && key[..0] == "" && key[|key|..] == "";
    TrimIs(key, IsSpace, 0, |key|);
  }

  lemma TrimmedIsSurrounded(apiKey: string) returns (before: string, after: string)
    requires IsKey(Trim(apiKey, IsSpace))
    ensures Surrounds(apiKey, before, Trim(apiKey, IsSpace), after)
  {
    var from, to := Bounds(apiKey, IsSpace);
    TrimIs(apiKey, IsSpace, from, to);
    before, after := apiKey[..from], apiKey[to..];
    assert apiKey == apiKey[..from] + apiKey[from..to] + apiKey[to..];
  }

  /** The URL built for a template with a slot is the one that fills it, and there is one
      exactly if some URL fills it that leaves room for the NUL. */
  lemma BuiltExactly(template: string, apiKey: string, size: nat, url: string)
    requires FindSlot(template).Some?
    ensures Build(Some(template), Some(apiKey), size) == Some(url) <==> Fills(template, apiKey, url) && |url| < size
  {
    var i := FindSlot(template).value;
    var key := Trim(apiKey, IsSpace);
    SplitsIs(template, template[..i], template[i + 2..]);
    if Fills(template, apiKey, url) {
      var prefix, suffix, before, k, after :|
        Splits(template, prefix, suffix) && Surrounds(apiKey, before, k, after) && url == prefix + k + suffix;
      SplitsIs(template, prefix, suffix);
      SurroundedIsTrimmed(apiKey, before, k, after);
    }
    if IsKey(key) {
      var before, after := TrimmedIsSurrounded(apiKey);
      assert Fills(template, apiKey, template[..i] + key + template[i + 2..]);
    }
  }

  /** The key can be read back out of the URL. */
  lemma {:induction false} KeyComesBack(template: string, apiKey: string, size: nat)
    requires FindSlot(template).Some? && Build(Some(template), Some(apiKey), size).Some?
    ensures var (i, url) := (FindSlot(template).value, Build(Some(template), Some(apiKey), size).value);
            && i + 2 <= |template| <= |url| + 2
            && url[..i] == template[..i]
            && url[|url| - (|template| - i - 2)..] == template[i + 2..]
            && url[i..|url| - (|template| - i - 2)] == Trim(apiKey, IsSpace)
  {
  }

  /** Keys that differ in more than the white space around them give different URLs. */
  lemma DifferentKeysDifferentUrls(template: string, a: string, b: string, size: nat)
    requires FindSlot(template).Some?
    requires Build(Some(template), Some(a), size).Some? && Build(Some(template), Some(b), size).Some?
    ensures Build(Some(template), Some(a), size) == Build(Some(template), Some(b), size) <==> Trim(a, IsSpace) == Trim(b, IsSpace)
  {
    KeyComesBack(template, a, size);
    KeyComesBack(template, b, size);
  }

  /** White space around the key does not matter. */
  lemma PaddingDoesNotMatter(template: Option<string>, before: string, key: string, after: string, size: nat)
    requires AllSpace(before, IsSpace) && AllSpace(after, IsSpace)
    ensures Build(template, Some(before + key + after), size) == Build(template, Some(key), size)
  {
    TrimPadded(before, key, after, IsSpace);
  }

  /** Nothing of the key but its own characters gets into the URL: no second slot, no NUL. */
  lemma KeyAddsNoSlot(template: string, apiKey: string, size: nat, k: nat)
    requires FindSlot(template).Some? && Build(Some(template), Some(apiKey), size).Some?
    requires FindSlot(template).value <= k < FindSlot(template).value + |Trim(apiKey, IsSpace)|
    ensures var url := Build(Some(template), Some(apiKey), size).value;
            k < |url| && IsKeyChar(url[k]) && url[k] != '%' && url[k] != '\0'
  {
    KeyComesBack(template, apiKey, size);
    var url := Build(Some(template), Some(apiKey), size).value;
    assert url[FindSlot(template).value..][k - FindSlot(template).value] == url[k];
  }

  /** The C string in a buffer. */
  predicate Holds(out: seq<char>, s: string) {
    |s| < |out| && out[..|s|] == s && out[|s|] == '\0'
  }

  /** memcpy of a string and its NUL. */
  method CopyOut(s: string, out: array<char>)
    requires |s| < out.Length
    modifies out
    ensures Holds(out[..], s)
    ensures forall k :: |s| < k < out.Length ==> out[k] == old(out[k])
  {
    var i := 0;
    while i < |s|
      invariant 0 <= i <= |s|
      invariant out[..i] == s[..i]
      invariant forall k :: i <= k < out.Length ==> out[k] == old(out[k])
    {
      out[i] := s[i];
      i := i + 1;
    }
    out[i] := '\0';
    assert out[..][..|s|] == out[..i] == s;
  }

  method TrimmedKey(apiKey: string) returns (key: string)
    ensures key == Trim(apiKey, IsSpace)
  {
    var keyStart, keyEnd := 0, |apiKey|;
    while keyStart < keyEnd && IsSpace(apiKey[keyStart])
      invariant 0 <= keyStart <= keyEnd && SpacesIn(apiKey, IsSpace, 0, keyStart)
    {
      keyStart := keyStart + 1;
    }
    while keyEnd > keyStart && IsSpace(apiKey[keyEnd - 1])
      invariant keyStart <= keyEnd <= |apiKey| && SpacesIn(apiKey, IsSpace, keyEnd, |apiKey|)
    {
      keyEnd := keyEnd - 1;
    }
    TrimIs(apiKey, IsSpace, keyStart, keyEnd);
    return apiKey[keyStart..keyEnd];
  }

  /** The buffer `out` of `outSize` cells holds the URL, or on refusal the empty string. */
  method BuildGeolocateUrl(template: Option<string>, apiKey: Option<string>, out: array<char>, outSize: nat)
    returns (ok: bool)
    requires outSize <= out.Length
    modifies out
    ensures ok <==> Build(template, apiKey, outSize).Some?
    ensures ok ==> Holds(out[..outSize], Build(template, apiKey, outSize).value)
    ensures !ok && outSize > 0 ==> Holds(out[..outSize], "") && out[1..] == old(out[1..])
    ensures outSize == 0 ==> out[..] == old(out[..])
    ensures out[outSize..] == old(out[outSize..])
  {
    if outSize == 0 {
      return false;
    }
    out[0] := '\0';
    if template.None? {
      return false;
    }
    var slot := FindSlot(template.value);
    if slot.None? {
      if |template.value| >= outSize {
        return false;
      }
      CopyOut(template.value, out);
      return true;
    }
    if apiKey.None? {
      return false;
    }
    var key := TrimmedKey(apiKey.value);
    if key == "" {
      return false;
    }
    var c := 0;
    while c < |key|
      invariant 0 <= c <= |key|
      invariant forall k :: 0 <= k < c ==> IsKeyChar(key[k])
    {
      if !IsKeyChar(key[c]) {
        return false;
      }
      c := c + 1;
    }
    var url := template.value[..slot.value] + key + template.value[slot.value + 2..];
    if |url| >= outSize {
      return false;
    }
    CopyOut(url, out);
    return true;
  }
}
