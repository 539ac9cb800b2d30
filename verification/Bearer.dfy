/** The Authorization header of the machine API: `crates/ucr-api-grpc/src/machine_api_auth.rs`. */
module Bearer {
  import opened Base

  const MAX_TOKEN_BYTES := 8192
  const MAX_HEADER_BYTES := MAX_TOKEN_BYTES + 32

  /** "bearer" in ASCII. */
  const BEARER: Bytes := [98, 101, 97, 114, 101, 114]

  datatype Unauthenticated = Unauthenticated

  /** `C` is what decoded credential metadata gives. */
  datatype Authentication<C> = ServiceCredential(credential: C) | MachineBearer(token: Bytes)

  /** The parts of the request metadata that are looked at. `credentials` is the outcome of decoding the two
      credential entries. */
  datatype Metadata<C> = Metadata(
    hasCredentialId: bool, hasCredentialSecret: bool, authorization: seq<Bytes>,
    credentials: Result<C, Unauthenticated>)

  predicate Space(b: byte) { b == 32 || b == 9 || b == 10 || b == 12 || b == 13 }

  /** What a header value may contain to be read as text. */
  predicate Readable(value: Bytes) { forall i :: 0 <= i < |value| ==> 32 <= value[i] < 127 || value[i] == 9 }

  predicate AllSpace(s: Bytes) { forall i :: 0 <= i < |s| ==> Space(s[i]) }

  predicate NoSpace(s: Bytes) { forall i :: 0 <= i < |s| ==> !Space(s[i]) }

  function LowerByte(b: byte): byte { if 65 <= b <= 90 then b + 32 else b }

  predicate IsBearer(scheme: Bytes) {
    |scheme| == |BEARER| && forall i :: 0 <= i < |BEARER| ==> LowerByte(scheme[i]) == BEARER[i]
  }

  predicate LegalToken(t: Bytes) { t != [] && NoSpace(t) && |t| <= MAX_TOKEN_BYTES }

  // ---- words ----------------------------------------------------------------------------------------

  function SkipSpace(s: Bytes): (r: Bytes)
    ensures |r| <= |s| && (r != [] ==> !Space(r[0]))
  {
    if s != [] && Space(s[0]) then SkipSpace(s[1..]) else s
  }

  function Word(s: Bytes): (w: Bytes)
    ensures |w| <= |s| && w == s[..|w|] && NoSpace(w)
    ensures |w| < |s| ==> Space(s[|w|])
    ensures s != [] && !Space(s[0]) ==> w != []
  {
    if s == [] || Space(s[0]) then [] else [s[0]] + Word(s[1..])
  }

  /** `split_ascii_whitespace`. */
  function Words(s: Bytes): seq<Bytes>
    decreases |s|
  {
    var r := SkipSpace(s);
    if r == [] then [] else [Word(r)] + Words(r[|Word(r)|..])
  }

  /** One step of the word iterator, on the text from `start` on. */
  method NextWord(text: Bytes, start: nat) returns (word: Option<Bytes>, end: nat)
    requires start <= |text|
    ensures start <= end <= |text|
    ensures match word
      case None => Words(text[start..]) == []
      case Some(w) => Words(text[start..]) == [w] + Words(text[end..])
  {
    hide Words;
    var i := start;
    while i < |text| && Space(text[i])
      invariant start <= i <= |text| && forall k :: start <= k < i ==> Space(text[k])
    {
      i := i + 1;
    }
    if i == |text| {
      assert text[start..i] == text[start..];
      SpacesHaveNoWords(text[start..]);
      return None, i;
    }
    end := i;
    while end < |text| && !Space(text[end])
      invariant i <= end <= |text| && (end == i ==> !Space(text[end]))
      invariant forall k :: i <= k < end ==> !Space(text[k])
    {
      end := end + 1;
    }
    word := Some(text[i..end]);
    FirstWord(text[start..i], text[i..end], text[end..]);
    assert text[start..] == text[start..i] + text[i..end] + text[end..];
  }

  method DecodeAuthentication<C>(m: Metadata<C>) returns (r: Result<Authentication<C>, Unauthenticated>)
    ensures r == Decoded(m)
  {
    if |m.authorization| > 1 { return Err(Unauthenticated); }
    if |m.authorization| == 1 {
      if m.hasCredentialId || m.hasCredentialSecret { return Err(Unauthenticated); }
      var value := m.authorization[0];
      if !Readable(value) { return Err(Unauthenticated); }
      if |value| > MAX_HEADER_BYTES { return Err(Unauthenticated); }
      hide Readable, Word, SkipSpace, IsBearer;
      assert value[0..] == value;
      var scheme, i := NextWord(value, 0);
      if scheme.None? { return Err(Unauthenticated); }
      var token, j := NextWord(value, i);
      if token.None? { return Err(Unauthenticated); }
      var more, _ := NextWord(value, j);
      if !IsBearer(scheme.value) || token.value == [] || |token.value| > MAX_TOKEN_BYTES || more.Some? {
        return Err(Unauthenticated);
      }
      return Ok(MachineBearer(token.value));
    }
    if m.hasCredentialId != m.hasCredentialSecret { return Err(Unauthenticated); }
    match m.credentials {
      case Ok(c) => return Ok(ServiceCredential(c));
      case Err(e) => return Err(e);
    }
  }

  /** The decision in terms of the words of a single header. */
  ghost function Decoded<C>(m: Metadata<C>): Result<Authentication<C>, Unauthenticated> {
    if m.authorization == [] then
      if m.hasCredentialId != m.hasCredentialSecret then Err(Unauthenticated)
      else match m.credentials case Ok(c) => Ok(ServiceCredential(c)) case Err(e) => Err(e)
    else if |m.authorization| > 1 || m.hasCredentialId || m.hasCredentialSecret then Err(Unauthenticated)
    else
      var value := m.authorization[0];
      var words := Words(value);
      if Readable(value) && |value| <= MAX_HEADER_BYTES && |words| == 2 && IsBearer(words[0])
         && words[1] != [] && |words[1]| <= MAX_TOKEN_BYTES
      then Ok(MachineBearer(words[1])) else Err(Unauthenticated)
  }

  // ---- printing and parsing -------------------------------------------------------------------------

  /** The header is the scheme and the token, with spacing before, between and after. */
  ghost predicate Layout(value: Bytes, before: Bytes, scheme: Bytes, gap: Bytes, t: Bytes, after: Bytes) {
    && value == before + scheme + gap + t + after
    && AllSpace(before) && AllSpace(gap) && gap != [] && AllSpace(after)
    && scheme != [] && NoSpace(scheme) && t != [] && NoSpace(t)
  }

  ghost predicate Prints(value: Bytes, scheme: Bytes, t: Bytes) {
    exists before, gap, after :: Layout(value, before, scheme, gap, t, after)
  }

  lemma {:induction false} SkipsAll(pre: Bytes, rest: Bytes)
    requires AllSpace(pre) && (rest == [] || !Space(rest[0]))
    ensures SkipSpace(pre + rest) == rest
  {
    if pre == [] {
      assert pre + rest == rest;
    } else {
      assert (pre + rest)[1..] == pre[1..] + rest;
      SkipsAll(pre[1..], rest);
    }
  }

  lemma {:induction false} TakesAll(w: Bytes, rest: Bytes)
    requires NoSpace(w) && (rest == [] || Space(rest[0]))
    ensures Word(w + rest) == w
  {
    if w == [] {
      assert w + rest == rest;
    } else {
      assert (w + rest)[1..] == w[1..] + rest;
      TakesAll(w[1..], rest);
    }
  }

  lemma FirstWord(pre: Bytes, w: Bytes, rest: Bytes)
    requires AllSpace(pre) && w != [] && NoSpace(w) && (rest == [] || Space(rest[0]))
    ensures Words(pre + w + rest) == [w] + Words(rest)
  {
    SkipsAll(pre, w + rest);
    assert pre + w + rest == pre + (w + rest);
    TakesAll(w, rest);
    assert (w + rest)[|w|..] == rest;
  }

  lemma SpacesHaveNoWords(s: Bytes)
    requires AllSpace(s)
    ensures Words(s) == []
  {
    SkipsAll(s, []);
    assert s + [] == s;
  }

  lemma LaidOutWords(value: Bytes, before: Bytes, scheme: Bytes, gap: Bytes, t: Bytes, after: Bytes)
    requires Layout(value, before, scheme, gap, t, after)
    ensures Words(value) == [scheme, t]
  {
    assert value == before + scheme + (gap + t + after);
    FirstWord(before, scheme, gap + t + after);
    FirstWord(gap, t, after);
    SpacesHaveNoWords(after);
  }

  lemma {:induction false} SpaceBeforeWord(s: Bytes) returns (pre: Bytes)
    ensures AllSpace(pre) && s == pre + SkipSpace(s)
  {
    if s != [] && Space(s[0]) {
      var p := SpaceBeforeWord(s[1..]);
      pre := [s[0]] + p;
    } else {
      pre := [];
    }
  }

  lemma NoWordsMeansSpaces(s: Bytes)
    requires Words(s) == []
    ensures AllSpace(s)
  {
    var pre := SpaceBeforeWord(s);
  }

  lemma OneWordOff(s: Bytes) returns (pre: Bytes, rest: Bytes)
    requires Words(s) != []
    ensures AllSpace(pre) && s == pre + Words(s)[0] + rest && Words(rest) == Words(s)[1..]
    ensures Words(s)[0] != [] && NoSpace(Words(s)[0]) && (rest != [] ==> Space(rest[0]))
  {
    pre := SpaceBeforeWord(s);
    var r := SkipSpace(s);
    rest := r[|Word(r)|..];
    assert r == Word(r) + rest;
  }

  lemma TwoWordsAreLaidOut(value: Bytes, scheme: Bytes, t: Bytes)
    requires Words(value) == [scheme, t]
    ensures Prints(value, scheme, t)
  {
    hide Words, Word, SkipSpace;
    var before, rest := OneWordOff(value);
    assert Words(value)[1..] == [t];
    var gap, after := OneWordOff(rest);
    assert Words(rest)[1..] == [];
    NoWordsMeansSpaces(after);
    assert rest == gap + t + after && Space((gap + t + after)[0]);
    assert value == before + scheme + gap + t + after;
    assert Layout(value, before, scheme, gap, t, after);
  }

  /** The parser is exactly the inverse of printing: with one header and no credential metadata it returns the
      token `t` exactly when the header prints `t` under "bearer" in some letter case and keeps to the bounds. */
  lemma ParserInvertsPrinting<C>(m: Metadata<C>, value: Bytes, t: Bytes)
    requires m.authorization == [value] && !m.hasCredentialId && !m.hasCredentialSecret
    ensures Decoded(m) == Ok(MachineBearer(t)) <==>
      && Readable(value) && |value| <= MAX_HEADER_BYTES && LegalToken(t)
      && exists scheme :: IsBearer(scheme) && Prints(value, scheme, t)
  {
    hide Words, Readable, IsBearer;
    if Decoded(m) == Ok(MachineBearer(t)) {
      var scheme := Words(value)[0];
      assert Words(value) == [scheme, t];
      TwoWordsAreLaidOut(value, scheme, t);
    }
    if scheme :| IsBearer(scheme) && Prints(value, scheme, t) {
      var before, gap, after :| Layout(value, before, scheme, gap, t, after);
      LaidOutWords(value, before, scheme, gap, t, after);
    }
  }

  ghost predicate Blanks(s: Bytes) { forall i :: 0 <= i < |s| ==> s[i] == 32 || s[i] == 9 }

  ghost predicate Visible(s: Bytes) { forall i :: 0 <= i < |s| ==> 33 <= s[i] <= 126 }

  /** "bearer" in any mixture of cases. */
  ghost predicate SpellsBearer(s: Bytes) {
    && |s| == 6 && s[0] in {66, 98} && s[1] in {69, 101} && s[2] in {65, 97} && s[3] in {82, 114}
    && s[4] in {69, 101} && s[5] in {82, 114}
  }

  ghost predicate Spells(value: Bytes, before: Bytes, scheme: Bytes, gap: Bytes, t: Bytes, after: Bytes) {
    && value == before + scheme + gap + t + after
    && Blanks(before) && SpellsBearer(scheme) && Blanks(gap) && gap != [] && Visible(t) && Blanks(after)
  }

  lemma BearerIsSpelled(s: Bytes)
    ensures IsBearer(s) <==> SpellsBearer(s)
  {
    if IsBearer(s) {
      assert LowerByte(s[0]) == BEARER[0] && LowerByte(s[1]) == BEARER[1] && LowerByte(s[2]) == BEARER[2];
      assert LowerByte(s[3]) == BEARER[3] && LowerByte(s[4]) == BEARER[4] && LowerByte(s[5]) == BEARER[5];
    }
  }

  lemma ReadablePart(value: Bytes, left: Bytes, part: Bytes, right: Bytes)
    requires value == left + part + right && Readable(value)
    ensures Readable(part)
  {
    forall i | 0 <= i < |part| ensures 32 <= part[i] < 127 || part[i] == 9 { assert value[|left| + i] == part[i]; }
  }

  lemma ReadableSpaces(part: Bytes)
    requires Readable(part)
    ensures AllSpace(part) <==> Blanks(part)
    ensures NoSpace(part) <==> Visible(part)
  {
  }

  lemma BearerIsVisible(s: Bytes)
    requires SpellsBearer(s)
    ensures s != [] && NoSpace(s) && Readable(s)
  {
  }

  lemma LayoutSpells(value: Bytes, before: Bytes, scheme: Bytes, gap: Bytes, t: Bytes, after: Bytes)
    requires Readable(value) && SpellsBearer(scheme) && Layout(value, before, scheme, gap, t, after)
    ensures Spells(value, before, scheme, gap, t, after)
  {
    hide Readable, SpellsBearer, AllSpace, NoSpace, Blanks, Visible;
    assert value == [] + before + (scheme + gap + t + after);
    ReadablePart(value, [], before, scheme + gap + t + after);
    assert value == (before + scheme) + gap + (t + after);
    ReadablePart(value, before + scheme, gap, t + after);
    assert value == (before + scheme + gap) + t + after;
    ReadablePart(value, before + scheme + gap, t, after);
    assert value == (before + scheme + gap + t) + after + [];
    ReadablePart(value, before + scheme + gap + t, after, []);
    ReadableSpaces(before);
    ReadableSpaces(gap);
    ReadableSpaces(t);
    ReadableSpaces(after);
  }

  lemma SpelledLayout(value: Bytes, before: Bytes, scheme: Bytes, gap: Bytes, t: Bytes, after: Bytes)
    requires Spells(value, before, scheme, gap, t, after) && t != []
    ensures Readable(value) && Layout(value, before, scheme, gap, t, after) && NoSpace(t)
  {
    BearerIsVisible(scheme);
    hide SpellsBearer;
    assert forall b :: b in value ==> b in before || b in scheme || b in gap || b in t || b in after;
    assert forall b :: b in value ==> 32 <= b < 127 || b == 9;
    forall i | 0 <= i < |value| ensures 32 <= value[i] < 127 || value[i] == 9 { assert value[i] in value; }
  }

  /** Exactly the accepted headers, byte by byte: blanks, "bearer" in any case, blanks, 1 to 8192 visible characters,
      blanks, and not more than 8224 bytes together. The characters are the token. */
  lemma AcceptedExactly<C>(m: Metadata<C>, value: Bytes, t: Bytes)
    requires m.authorization == [value] && !m.hasCredentialId && !m.hasCredentialSecret
    ensures Decoded(m) == Ok(MachineBearer(t)) <==>
      |value| <= 8224 && 1 <= |t| <= 8192 && exists before, scheme, gap, after :: Spells(value, before, scheme, gap, t, after)
  {
    ParserInvertsPrinting(m, value, t);
    hide Words, Decoded, Readable, SpellsBearer, IsBearer, Spells, Layout;
    if Decoded(m) == Ok(MachineBearer(t)) {
      var scheme :| IsBearer(scheme) && Prints(value, scheme, t);
      var before, gap, after :| Layout(value, before, scheme, gap, t, after);
      BearerIsSpelled(scheme);
      LayoutSpells(value, before, scheme, gap, t, after);
    }
    if |value| <= 8224 && 1 <= |t| <= 8192 {
      if before, scheme, gap, after :| Spells(value, before, scheme, gap, t, after) {
        SpelledLayout(value, before, scheme, gap, t, after);
        assert IsBearer(scheme) by { BearerIsSpelled(scheme); SchemeOf(value, before, scheme, gap, t, after); }
        assert Prints(value, scheme, t);
      }
    }
  }

  lemma SchemeOf(value: Bytes, before: Bytes, scheme: Bytes, gap: Bytes, t: Bytes, after: Bytes)
    requires Spells(value, before, scheme, gap, t, after)
    ensures SpellsBearer(scheme)
  {
  }

  /** Credential metadata and an Authorization header exclude each other, and a second header is refused. */
  lemma OneWayToAuthenticate<C>(m: Metadata<C>)
    requires Decoded(m).Ok?
    ensures Decoded(m).value.MachineBearer? <==> |m.authorization| == 1
    ensures Decoded(m).value.MachineBearer? ==> !m.hasCredentialId && !m.hasCredentialSecret
    ensures Decoded(m).value.ServiceCredential? ==>
      m.authorization == [] && m.hasCredentialId == m.hasCredentialSecret && m.credentials == Ok(Decoded(m).value.credential)
  {
  }

  /** Any legal token printed with up to 25 spacing bytes beyond the one required is accepted. */
  lemma SpacingIsTolerated<C>(m: Metadata<C>, value: Bytes, before: Bytes, scheme: Bytes, gap: Bytes, t: Bytes, after: Bytes)
    requires m.authorization == [value] && !m.hasCredentialId && !m.hasCredentialSecret
    requires Layout(value, before, scheme, gap, t, after) && IsBearer(scheme) && LegalToken(t) && Readable(value)
    requires |before| + |gap| + |after| <= 1 + 25
    ensures Decoded(m) == Ok(MachineBearer(t))
  {
    hide Readable, IsBearer;
    assert |scheme| == 6 by { BearerLength(scheme); }
    LaidOutWords(value, before, scheme, gap, t, after);
  }

  lemma BearerLength(scheme: Bytes)
    requires IsBearer(scheme)
    ensures |scheme| == 6
  {
  }

  /** The bound is exact: with 26 extra spacing bytes a token of the greatest length is refused. */
  lemma MoreSpacingIsRefused<C>(m: Metadata<C>, value: Bytes, before: Bytes, scheme: Bytes, gap: Bytes, t: Bytes, after: Bytes)
    requires m.authorization == [value]
    requires Layout(value, before, scheme, gap, t, after) && IsBearer(scheme) && |t| == MAX_TOKEN_BYTES
    requires |before| + |gap| + |after| > 1 + 25
    ensures Decoded(m) == Err(Unauthenticated)
  {
    BearerLength(scheme);
    hide IsBearer, Readable, Words;
  }
}
