/** Text as Python's standard library sees it, as far as the release tools depend on it. */
module Characters {
  predicate HexDigit(c: char) { '0' <= c <= '9' || 'a' <= c <= 'f' || 'A' <= c <= 'F' }

  predicate LowerHexDigit(c: char) { '0' <= c <= '9' || 'a' <= c <= 'f' }

  function LowerChar(c: char): char { if 'A' <= c <= 'Z' then c - 'A' + 'a' else c }

  function UpperChar(c: char): char { if 'a' <= c <= 'z' then c - 'a' + 'A' else c }

  /** ASCII lower case. Beyond ASCII no character's lower case is a hexadecimal digit, or a letter of the texts
      searched for here next to another, so comparisons come out as with the full mapping. */
  function Lower(s: string): (r: string)
    ensures |r| == |s| && forall i :: 0 <= i < |s| ==> r[i] == LowerChar(s[i])
  {
    if s == "" then "" else [LowerChar(s[0])] + Lower(s[1..])
  }

  function Upper(s: string): (r: string)
    ensures |r| == |s| && forall i :: 0 <= i < |s| ==> r[i] == UpperChar(s[i])
  {
    if s == "" then "" else [UpperChar(s[0])] + Upper(s[1..])
  }

  lemma LowerTwice(s: string)
    ensures Lower(Lower(s)) == Lower(s)
  {
    assert forall i :: 0 <= i < |s| ==> Lower(Lower(s))[i] == Lower(s)[i];
  }

  predicate Whitespace(c: char) {
    || '\t' <= c <= '\r' || '\U{1c}' <= c <= ' ' || c == '\U{85}' || c == '\U{a0}' || c == '\U{1680}'
    || '\U{2000}' <= c <= '\U{200a}' || c == '\U{2028}' || c == '\U{2029}' || c == '\U{202f}'
    || c == '\U{205f}' || c == '\U{3000}'
  }

  predicate Blank(s: string) { forall i :: 0 <= i < |s| ==> Whitespace(s[i]) }

  function StripLeft(s: string): string {
    if s != "" && Whitespace(s[0]) then StripLeft(s[1..]) else s
  }

  function StripRight(s: string): string {
    if s != "" && Whitespace(s[|s| - 1]) then StripRight(s[..|s| - 1]) else s
  }

  function Strip(s: string): string { StripRight(StripLeft(s)) }

  lemma {:induction false} StrippedRight(s: string)
    ensures StripRight(s) != "" ==> !Blank(StripRight(s))
    decreases |s|
  {
    if s != "" && Whitespace(s[|s| - 1]) { StrippedRight(s[..|s| - 1]); }
  }

  lemma StrippedIsNotBlank(s: string)
    ensures Strip(s) != "" ==> !Blank(Strip(s))
  {
    StrippedRight(StripLeft(s));
  }

  ghost predicate OccursAt(text: string, part: string, i: nat) {
    i + |part| <= |text| && text[i..i + |part|] == part
  }

  /** `part in text`. */
  ghost predicate Contains(text: string, part: string) { exists i :: OccursAt(text, part, i) }

  /** A part that needs a character the prefix lacks, and does not contain the prefix's last character, occurs in
      prefix + rest exactly when it occurs in the rest. */
  lemma PrefixHidesNothing(prefix: string, rest: string, part: string, missing: char)
    requires prefix != "" && missing in part && missing !in prefix && prefix[|prefix| - 1] !in part
    ensures Contains(prefix + rest, part) <==> Contains(rest, part)
  {
    var all, n := prefix + rest, |prefix|;
    forall i: nat | i < n ensures !OccursAt(all, part, i) { NotInPrefix(prefix, rest, part, missing, i); }
    forall i: nat | i >= n ensures OccursAt(all, part, i) <==> OccursAt(rest, part, i - n) {
      if i + |part| <= |all| { assert all[i..i + |part|] == rest[i - n..i - n + |part|]; }
    }
    if Contains(rest, part) {
      var i: nat :| OccursAt(rest, part, i);
      assert OccursAt(all, part, i + n) <==> OccursAt(rest, part, i + n - n);
    }
  }

  lemma NotInPrefix(prefix: string, rest: string, part: string, missing: char, i: nat)
    requires i < |prefix| && missing in part && missing !in prefix && prefix[|prefix| - 1] !in part
    ensures !OccursAt(prefix + rest, part, i)
  {
    var all, n := prefix + rest, |prefix|;
    var j :| 0 <= j < |part| && part[j] == missing;
    if i + |part| <= |all| {
      var found := all[i..i + |part|];
      if i + |part| >= n {
        assert found[n - 1 - i] == prefix[n - 1];
        assert part[n - 1 - i] in part;
      } else {
        assert found[j] == prefix[i + j];
        assert prefix[i + j] in prefix;
      }
    }
  }

  // ---- the character classes, listed ----------------------------------------------------------------

  const HEX := "0123456789abcdef"

  lemma HexDigitsAre(c: char)
    ensures LowerHexDigit(c) <==> c in HEX
    ensures HexDigit(c) <==> c in HEX || c in "ABCDEF"
  {
    assert HEX[0] == '0' && HEX[1] == '1' && HEX[2] == '2' && HEX[3] == '3' && HEX[4] == '4' && HEX[5] == '5';
    assert HEX[6] == '6' && HEX[7] == '7' && HEX[8] == '8' && HEX[9] == '9' && HEX[10] == 'a' && HEX[11] == 'b';
    assert HEX[12] == 'c' && HEX[13] == 'd' && HEX[14] == 'e' && HEX[15] == 'f';
    var upper := "ABCDEF";
    assert upper[0] == 'A' && upper[1] == 'B' && upper[2] == 'C' && upper[3] == 'D' && upper[4] == 'E' && upper[5] == 'F';
  }

  /** ASCII letters are 32 apart from their other case; every other character has none. */
  lemma CasesAre(c: char)
    ensures LowerChar(c) as int == if 65 <= c as int <= 90 then c as int + 32 else c as int
    ensures UpperChar(c) as int == if 97 <= c as int <= 122 then c as int - 32 else c as int
  {
  }

  const SPACES: set<int> := {
    9, 10, 11, 12, 13, 28, 29, 30, 31, 32, 133, 160, 5760, 8192, 8193, 8194, 8195, 8196, 8197, 8198, 8199, 8200, 8201, 8202,
    8232, 8233, 8239, 8287, 12288}

  lemma SpacesAre(c: char)
    ensures Whitespace(c) <==> c as int in SPACES
  {
  }

  ghost predicate Trimmed(s: string) { s != "" ==> !Whitespace(s[0]) && !Whitespace(s[|s| - 1]) }

  lemma {:induction false} StripLeftIs(s: string) returns (left: string)
    ensures s == left + StripLeft(s) && Blank(left)
    ensures StripLeft(s) != "" ==> !Whitespace(StripLeft(s)[0])
  {
    if s != "" && Whitespace(s[0]) {
      var rest := StripLeftIs(s[1..]);
      left := [s[0]] + rest;
      assert s == [s[0]] + (rest + StripLeft(s));
      hide Whitespace;
    } else {
      left := "";
    }
  }

  lemma {:induction false} StripRightIs(s: string) returns (right: string)
    ensures s == StripRight(s) + right && Blank(right)
    ensures StripRight(s) != "" ==> !Whitespace(StripRight(s)[|StripRight(s)| - 1])
    decreases |s|
  {
    if s != "" && Whitespace(s[|s| - 1]) {
      right := StripRightIs(s[..|s| - 1]);
      assert s == s[..|s| - 1] + [s[|s| - 1]];
      right := right + [s[|s| - 1]];
    } else {
      right := "";
    }
  }

  /** Stripping takes white space off both ends and nothing else. */
  lemma StripIs(s: string) returns (left: string, right: string)
    ensures s == left + Strip(s) + right && Blank(left) && Blank(right) && Trimmed(Strip(s))
  {
    left := StripLeftIs(s);
    right := StripRightIs(StripLeft(s));
    assert Strip(s) != "" ==> Strip(s)[0] == StripLeft(s)[0];
  }
}
