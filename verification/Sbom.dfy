/** The deterministic package list of `tools/supply_chain.py`: de-duplicated by package, sorted for output.
    The hexadecimal digest of a text is a parameter. */
module Sbom {
  import opened Base
  import opened Ordering

  type HexDigest = string -> string

  /** One package of the build metadata. Absent and empty optional fields are treated alike by the program. */
  datatype Package = Package(
    name: string, version: string, source: Option<string>, manifestPath: Option<string>, license: Option<string>)

  datatype Key = Key(name: string, version: string, source: string)

  datatype Entry = Entry(id: string, name: string, version: string, license: string)

  /** A dictionary entry; the dictionary is the sequence of its items in insertion order. */
  datatype Item = Item(key: Key, entry: Entry)

  datatype Document = Document(namespaceHash: string, packages: seq<Entry>)

  function OrElse(text: Option<string>, default: string): string {
    if text.Some? && text.value != "" then text.value else default
  }

  function KeyOf(p: Package): Key {
    var path := if p.manifestPath.Some? then p.manifestPath.value else "unknown";
    Key(p.name, p.version, OrElse(p.source, "path:" + path))
  }

  // ---- SPDX ids -------------------------------------------------------------------------------------

  predicate Allowed(c: char) {
    'A' <= c <= 'Z' || 'a' <= c <= 'z' || '0' <= c <= '9' || c == '.' || c == '-'
  }

  /** Each run of other characters becomes one hyphen. */
  function Safe(text: string, inRun: bool): string {
    if text == "" then ""
    else if Allowed(text[0]) then [text[0]] + Safe(text[1..], false)
    else (if inRun then "" else "-") + Safe(text[1..], true)
  }

  ghost predicate Clean(text: string) {
    forall i :: 0 <= i < |text| ==> 65 <= text[i] as int <= 90 || 97 <= text[i] as int <= 122 || 48 <= text[i] as int <= 57
                                    || text[i] == '-' || text[i] == '.'
  }

  ghost predicate Dirty(text: string) { forall i :: 0 <= i < |text| ==> !Clean([text[i]]) }

  lemma AllowedIsClean(c: char)
    ensures Allowed(c) <==> Clean([c])
  {
    if Clean([c]) { assert [c][0] == c; }
  }

  lemma {:induction false} SafeAfter(a: string, b: string, inRun: bool)
    ensures Safe(a + b, inRun) == Safe(a, inRun) + Safe(b, if a == "" then inRun else !Allowed(a[|a| - 1]))
  {
    if a == "" {
      assert a + b == b;
    } else {
      assert (a + b)[1..] == a[1..] + b;
      SafeAfter(a[1..], b, !Allowed(a[0]));
    }
  }

  lemma {:induction false} SafeOnRun(run: string, inRun: bool)
    requires Dirty(run)
    ensures Safe(run, inRun) == if run == "" || inRun then "" else "-"
  {
    if run != "" {
      AllowedIsClean(run[0]);
      SafeOnRun(run[1..], true);
    }
  }

  /** Clean text is kept as it is. */
  lemma {:induction false} SafeKeepsClean(text: string, inRun: bool)
    requires Clean(text)
    ensures Safe(text, inRun) == text
  {
    if text != "" {
      assert Clean([text[0]]);
      AllowedIsClean(text[0]);
      SafeKeepsClean(text[1..], false);
    }
  }

  /** Every maximal run of other characters becomes one hyphen. */
  lemma SafeReplacesRuns(a: string, run: string, b: string)
    requires run != "" && Dirty(run)
    requires a == "" || Clean([a[|a| - 1]])
    requires b == "" || Clean([b[0]])
    ensures Safe(a + run + b, false) == Safe(a, false) + "-" + Safe(b, false)
  {
    SafeAfter(a + run, b, false);
    SafeAfter(a, run, false);
    assert (a + run)[|a + run| - 1] == run[|run| - 1];
    if a != "" { AllowedIsClean(a[|a| - 1]); }
    SafeOnRun(run, false);
    AllowedIsClean(run[|run| - 1]);
    if b != "" { AllowedIsClean(b[0]); }
  }

  function RawName(k: Key): string { k.name + "-" + k.version + "-" + k.source }

  function Prefix12(text: string): string { if |text| < 12 then text else text[..12] }

  function SpdxId(hex: HexDigest, k: Key): string {
    "SPDXRef-Package-" + Safe(k.name + "-" + k.version, false) + "-" + Prefix12(hex(RawName(k)))
  }

  function EntryOf(hex: HexDigest, p: Package): Entry {
    Entry(SpdxId(hex, KeyOf(p)), p.name, p.version, OrElse(p.license, "NOASSERTION"))
  }

  function ItemOf(hex: HexDigest, p: Package): Item { Item(KeyOf(p), EntryOf(hex, p)) }

  /** Two packages whose name and version split the same text at different hyphens share an id, whatever the
      digest: ids are not unique per package. */
  lemma SplitNamesShareAnId(hex: HexDigest, a: string, b: string, c: string, source: string)
    ensures SpdxId(hex, Key(a + "-" + b, c, source)) == SpdxId(hex, Key(a, b + "-" + c, source))
    ensures Key(a + "-" + b, c, source) != Key(a, b + "-" + c, source)
  {
    var left, right := Key(a + "-" + b, c, source), Key(a, b + "-" + c, source);
    assert left.name + "-" + left.version == right.name + "-" + right.version;
    assert RawName(left) == RawName(right);
    assert |left.name| != |right.name|;
  }

  /** Unless the first twelve digest digits of the two joined texts collide, two packages share an id exactly when
      their joined texts and the shown parts agree. */
  lemma IdsAgreeExactlyWhen(hex: HexDigest, j: Key, k: Key)
    requires |hex(RawName(j))| >= 12 && |hex(RawName(k))| >= 12
    requires Prefix12(hex(RawName(j))) == Prefix12(hex(RawName(k))) ==> RawName(j) == RawName(k)
    ensures SpdxId(hex, j) == SpdxId(hex, k) <==>
      RawName(j) == RawName(k) && Safe(j.name + "-" + j.version, false) == Safe(k.name + "-" + k.version, false)
  {
    if SpdxId(hex, j) == SpdxId(hex, k) {
      var head := "SPDXRef-Package-";
      var sj, sk := Safe(j.name + "-" + j.version, false), Safe(k.name + "-" + k.version, false);
      var hj, hk := Prefix12(hex(RawName(j))), Prefix12(hex(RawName(k)));
      assert |hj| == |hk| == 12;
      SameEnds(head + sj + "-", hj, head + sk + "-", hk);
      SameEnds(head + sj, "-", head + sk, "-");
      assert (head + sj)[|head|..] == sj && (head + sk)[|head|..] == sk;
    }
  }

  lemma SameEnds(a: string, x: string, b: string, y: string)
    requires a + x == b + y && |x| == |y|
    ensures a == b && x == y
  {
    assert |a + x| == |b + y|;
    assert (a + x)[..|a|] == a && (b + y)[..|b|] == b;
    assert (a + x)[|a|..] == x && (b + y)[|b|..] == y;
  }

  // ---- de-duplication -------------------------------------------------------------------------------

  /** What one metadata file contributes to the scan. */
  ghost function ScanFile(hex: HexDigest, ps: seq<Package>): (r: seq<Item>)
    ensures |r| == |ps| && forall i :: 0 <= i < |ps| ==> r[i] == ItemOf(hex, ps[i])
  {
    if ps == [] then [] else [ItemOf(hex, ps[0])] + ScanFile(hex, ps[1..])
  }

  /** Everything scanned, file after file. */
  ghost function Scan(hex: HexDigest, metadata: seq<seq<Package>>): seq<Item> {
    if metadata == [] then [] else ScanFile(hex, metadata[0]) + Scan(hex, metadata[1..])
  }

  /** The items a scan adds when the keys `seen` are already there: the first of each new key. */
  ghost function Firsts(scan: seq<Item>, seen: set<Key>): seq<Item> {
    if scan == [] then []
    else if scan[0].key in seen then Firsts(scan[1..], seen)
    else [scan[0]] + Firsts(scan[1..], seen + {scan[0].key})
  }

  function EntryIn(x: Item): Entry { x.entry }

  function Entries(items: seq<Item>): (r: seq<Entry>)
    ensures |r| == |items| && forall i :: 0 <= i < |r| ==> r[i] == items[i].entry
  {
    Mapped(EntryIn, items)
  }

  /** By name, then version, then id. */
  predicate EntryLe(a: Entry, b: Entry) {
    if a.name != b.name then TextLe(a.name, b.name)
    else if a.version != b.version then TextLe(a.version, b.version)
    else TextLe(a.id, b.id)
  }

  /** The document's order does not tell the two apart. */
  predicate Tied(a: Entry, b: Entry) { a.name == b.name && a.version == b.version && a.id == b.id }

  /** The package list of the document. */
  ghost function PackageList(scan: seq<Item>): seq<Entry> { Sort(EntryLe, Entries(Firsts(scan, {}))) }

  lemma FirstsStep(items: seq<Item>, scan: seq<Item>, seen: set<Key>, x: Item)
    requires scan != [] && x == scan[0]
    ensures x.key in seen ==> items + Firsts(scan, seen) == items + Firsts(scan[1..], seen)
    ensures x.key !in seen ==> items + Firsts(scan, seen) == (items + [x]) + Firsts(scan[1..], seen + {x.key})
  {
  }

  ghost predicate KeysApart(items: seq<Item>) {
    forall i, j :: 0 <= i < j < |items| ==> items[i].key != items[j].key
  }

  ghost predicate NewFrom(items: seq<Item>, scan: seq<Item>, seen: set<Key>) {
    forall i :: 0 <= i < |items| ==> items[i] in scan && items[i].key !in seen
  }

  lemma {:induction false} FirstsApart(scan: seq<Item>, seen: set<Key>)
    ensures KeysApart(Firsts(scan, seen)) && NewFrom(Firsts(scan, seen), scan, seen)
    decreases |scan|
  {
    if scan != [] && scan[0].key in seen {
      FirstsApart(scan[1..], seen);
    } else if scan != [] {
      FirstsApart(scan[1..], seen + {scan[0].key});
    }
  }

  lemma {:induction false} FirstsCover(scan: seq<Item>, seen: set<Key>, x: Item) returns (i: nat)
    requires x in scan && x.key !in seen
    ensures i < |Firsts(scan, seen)| && Firsts(scan, seen)[i].key == x.key
    decreases |scan|
  {
    if scan[0].key !in seen && scan[0].key == x.key {
      i := 0;
    } else if scan[0].key in seen {
      i := FirstsCover(scan[1..], seen, x);
    } else {
      i := FirstsCover(scan[1..], seen + {scan[0].key}, x);
      i := i + 1;
    }
  }

  /** The first package of a key is the one that is kept. */
  lemma {:induction false} FirstWins(before: seq<Item>, x: Item, after: seq<Item>, seen: set<Key>)
    requires x.key !in seen && forall y :: y in before ==> y.key != x.key
    ensures x in Firsts(before + [x] + after, seen)
    decreases |before|
  {
    var scan := before + [x] + after;
    if before != [] {
      assert scan[1..] == before[1..] + [x] + after;
      assert scan[0] == before[0] && before[0] in before;
      FirstWins(before[1..], x, after, if scan[0].key in seen then seen else seen + {scan[0].key});
    }
  }

  function Keys(items: seq<Item>): (r: set<Key>)
    ensures forall k :: k in r <==> exists i :: 0 <= i < |items| && items[i].key == k
  {
    if items == [] then {} else
      assert forall i :: 0 < i < |items| ==> items[i] == items[1..][i - 1];
      {items[0].key} + Keys(items[1..])
  }

  lemma {:induction false} KeyCount(items: seq<Item>)
    requires KeysApart(items)
    ensures |Keys(items)| == |items|
  {
    if items != [] { KeyCount(items[1..]); }
  }

  lemma SameKeys(scan: seq<Item>)
    ensures Keys(Firsts(scan, {})) == Keys(scan)
  {
    var items := Firsts(scan, {});
    FirstsApart(scan, {});
    forall k ensures k in Keys(items) <==> k in Keys(scan) {
      if k in Keys(items) {
        var i :| 0 <= i < |items| && items[i].key == k;
        assert items[i] in scan;
      } else if k in Keys(scan) {
        var j :| 0 <= j < |scan| && scan[j].key == k;
        var i := FirstsCover(scan, {}, scan[j]);
      }
    }
  }

  /** Exactly one entry per distinct (name, version, source), and every entry is that of a scanned package. */
  lemma OneEntryPerKey(scan: seq<Item>)
    ensures |PackageList(scan)| == |Keys(scan)|
    ensures forall e :: e in PackageList(scan) ==> exists x :: x in scan && x.entry == e
  {
    hide Firsts, Sort, EntryLe, Keys, Entries;
    FirstsApart(scan, {});
    KeyCount(Firsts(scan, {}));
    SameKeys(scan);
    forall e | e in PackageList(scan) ensures exists x :: x in scan && x.entry == e { ListedIsScanned(scan, e); }
  }

  lemma ListedIsScanned(scan: seq<Item>, e: Entry)
    requires e in PackageList(scan)
    ensures exists x :: x in scan && x.entry == e
  {
    hide Firsts, Sort, EntryLe;
    var items := Firsts(scan, {});
    FirstsApart(scan, {});
    SortKeepsMembers(EntryLe, Entries(items));
    var i :| 0 <= i < |items| && Entries(items)[i] == e;
    assert items[i] in scan && items[i].entry == e;
  }

  // ---- the order of the list ------------------------------------------------------------------------

  lemma EntryLeIsOrder()
    ensures TotalPreorder(EntryLe)
    ensures forall a, b :: EntryLe(a, b) && EntryLe(b, a) ==> Tied(a, b)
  {
    forall a, b ensures EntryLe(a, b) || EntryLe(b, a) {
      TextLeTotal(a.name, b.name);
      TextLeTotal(a.version, b.version);
      TextLeTotal(a.id, b.id);
    }
    forall a, b, c | EntryLe(a, b) && EntryLe(b, c) ensures EntryLe(a, c) { EntryLeTransitive(a, b, c); }
    forall a, b | EntryLe(a, b) && EntryLe(b, a) ensures Tied(a, b) {
      if a.name != b.name { TextLeAntisymmetric(a.name, b.name); }
      else if a.version != b.version { TextLeAntisymmetric(a.version, b.version); }
      else { TextLeAntisymmetric(a.id, b.id); }
    }
  }

  lemma EntryLeTransitive(a: Entry, b: Entry, c: Entry)
    requires EntryLe(a, b) && EntryLe(b, c)
    ensures EntryLe(a, c)
  {
    hide TextLe;
    if a.name != b.name || b.name != c.name {
      Chain(a.name, b.name, c.name);
    } else if a.version != b.version || b.version != c.version {
      Chain(a.version, b.version, c.version);
    } else {
      TextLeTransitive(a.id, b.id, c.id);
    }
  }

  /** Two steps of which one is strict make a strict step. */
  lemma Chain(x: string, y: string, z: string)
    requires x != y || y != z
    requires (x == y || TextLe(x, y)) && (y == z || TextLe(y, z))
    ensures x != z && TextLe(x, z)
  {
    if x != y && y != z {
      TextLeTransitive(x, y, z);
      if x == z { TextLeAntisymmetric(x, y); }
    }
  }

  /** Packages that the document's order cannot tell apart declare the same licence. */
  ghost predicate LicencesAgree(scan: seq<Item>) {
    forall x, y :: x in scan && y in scan && Tied(x.entry, y.entry) ==> x.entry == y.entry
  }

  /** What a package shows of itself is fixed by its key, except the licence. */
  ghost predicate Scanned(scan: seq<Item>) {
    forall x, y :: x in scan && y in scan && x.key == y.key ==> Tied(x.entry, y.entry)
  }

  lemma {:induction false} ScanIsScanned(hex: HexDigest, metadata: seq<seq<Package>>)
    ensures forall x :: x in Scan(hex, metadata) ==> exists p :: ItemOf(hex, p) == x
    ensures Scanned(Scan(hex, metadata))
  {
    hide SpdxId, OrElse;
    if metadata != [] {
      ScanIsScanned(hex, metadata[1..]);
      forall x | x in ScanFile(hex, metadata[0]) ensures exists p :: ItemOf(hex, p) == x {
        var i :| 0 <= i < |metadata[0]| && x == ItemOf(hex, metadata[0][i]);
      }
    }
  }

  lemma FirstsAreAll(scan: seq<Item>, x: Item)
    requires Scanned(scan) && LicencesAgree(scan)
    ensures x in Firsts(scan, {}) <==> x in scan
  {
    FirstsApart(scan, {});
    if x in scan {
      var i := FirstsCover(scan, {}, x);
      assert Firsts(scan, {})[i] in scan;
    }
  }

  lemma EntriesConcat(a: seq<Item>, b: seq<Item>)
    ensures Entries(a + b) == Entries(a) + Entries(b)
  {
    MappedConcat(EntryIn, a, b);
  }

  lemma SameEntries(scan: seq<Item>, other: seq<Item>)
    requires Scanned(scan) && LicencesAgree(scan) && forall x :: x in scan <==> x in other
    ensures multiset(Entries(Firsts(scan, {}))) == multiset(Entries(Firsts(other, {})))
  {
    var a, b := Firsts(scan, {}), Firsts(other, {});
    FirstsApart(scan, {});
    FirstsApart(other, {});
    hide Tied;
    forall x ensures x in a <==> x in b {
      FirstsAreAll(scan, x);
      FirstsAreAll(other, x);
    }
    hide Firsts, LicencesAgree, Scanned;
    ApartMeansNoRepeats(a);
    ApartMeansNoRepeats(b);
    SameMembersSameMultiset(a, b);
    MappedSameMultiset(EntryIn, a, b);
  }

  lemma NoTiesWhenAgreed(scan: seq<Item>)
    requires LicencesAgree(scan)
    ensures NoTies(EntryLe, multiset(Entries(Firsts(scan, {}))))
  {
    var a := Firsts(scan, {});
    EntryLeIsOrder();
    FirstsApart(scan, {});
    hide EntryLe, Firsts, TotalPreorder;
    forall x, y | x in multiset(Entries(a)) && y in multiset(Entries(a)) && EntryLe(x, y) && EntryLe(y, x)
      ensures x == y
    {
      var i :| 0 <= i < |a| && Entries(a)[i] == x;
      var j :| 0 <= j < |a| && Entries(a)[j] == y;
      assert a[i] in scan && a[j] in scan && Tied(a[i].entry, a[j].entry);
    }
  }

  /** The document is the same for every order and repetition of the same packages, if packages its order cannot
      tell apart declare the same licence. */
  lemma OrderDoesNotMatter(scan: seq<Item>, other: seq<Item>)
    requires Scanned(scan) && LicencesAgree(scan) && forall x :: x in scan <==> x in other
    ensures PackageList(scan) == PackageList(other)
  {
    SameEntries(scan, other);
    NoTiesWhenAgreed(scan);
    EntryLeIsOrder();
    hide EntryLe, Firsts, TotalPreorder, LicencesAgree, Scanned;
    SortIgnoresOrder(EntryLe, Entries(Firsts(scan, {})), Entries(Firsts(other, {})));
  }

  lemma ApartMeansNoRepeats(items: seq<Item>)
    requires KeysApart(items)
    ensures NoRepeats(items)
  {
  }

  /** A stable sort keeps the order of two tied leading entries. */
  lemma {:induction false} TiedPairStays(a: Entry, b: Entry, s: seq<Entry>) returns (k: nat)
    requires EntryLe(a, b) && EntryLe(b, a) && TotalPreorder(EntryLe)
    ensures k <= |s|
    ensures Insert(EntryLe, a, Insert(EntryLe, b, s)) == s[..k] + [a, b] + s[k..]
    ensures Insert(EntryLe, b, Insert(EntryLe, a, s)) == s[..k] + [b, a] + s[k..]
    decreases |s|
  {
    hide EntryLe;
    if s == [] || EntryLe(b, s[0]) {
      k := 0;
      LeadsBoth(a, b, s);
      LeadsBoth(b, a, s);
    } else {
      k := TiedPairStays(a, b, s[1..]);
      FollowsBoth(a, b, s, k);
      FollowsBoth(b, a, s, k);
      k := k + 1;
    }
  }

  lemma LeadsBoth(a: Entry, b: Entry, s: seq<Entry>)
    requires EntryLe(a, b) && TotalPreorder(EntryLe) && (s == [] || EntryLe(b, s[0]))
    ensures Insert(EntryLe, a, Insert(EntryLe, b, s)) == s[..0] + [a, b] + s[0..]
  {
    hide EntryLe;
    assert Insert(EntryLe, b, s) == [b] + s;
    assert Insert(EntryLe, a, [b] + s) == [a] + ([b] + s);
  }

  lemma FollowsBoth(a: Entry, b: Entry, s: seq<Entry>, k: nat)
    requires s != [] && k < |s| && !EntryLe(a, s[0]) && !EntryLe(b, s[0])
    requires Insert(EntryLe, a, Insert(EntryLe, b, s[1..])) == s[1..][..k] + [a, b] + s[1..][k..]
    ensures Insert(EntryLe, a, Insert(EntryLe, b, s)) == s[..k + 1] + [a, b] + s[k + 1..]
  {
    hide EntryLe, Insert;
    assert s == [s[0]] + s[1..];
    InsertFollows(b, s[0], s[1..]);
    InsertFollows(a, s[0], Insert(EntryLe, b, s[1..]));
    Prepend(s, k, [a, b]);
  }

  lemma Prepend(s: seq<Entry>, k: nat, pair: seq<Entry>)
    requires k < |s|
    ensures [s[0]] + (s[1..][..k] + pair + s[1..][k..]) == s[..k + 1] + pair + s[k + 1..]
  {
    assert s[..k + 1] == [s[0]] + s[1..][..k];
    assert s[k + 1..] == s[1..][k..];
  }

  lemma InsertFollows(x: Entry, first: Entry, rest: seq<Entry>)
    requires !EntryLe(x, first)
    ensures Insert(EntryLe, x, [first] + rest) == [first] + Insert(EntryLe, x, rest)
  {
    hide EntryLe;
    assert ([first] + rest)[1..] == rest;
  }

  lemma TiedBothWays(a: Entry, b: Entry)
    requires Tied(a, b)
    ensures EntryLe(a, b) && EntryLe(b, a)
  {
    TextLeTotal(a.id, a.id);
  }

  lemma SortPair(a: Entry, b: Entry, s: seq<Entry>)
    ensures Sort(EntryLe, [a, b] + s) == Insert(EntryLe, a, Insert(EntryLe, b, Sort(EntryLe, s)))
  {
    hide EntryLe, Insert;
    assert ([a, b] + s)[1..] == [b] + s && ([b] + s)[1..] == s;
  }

  lemma LeadingPair(x: Item, y: Item, rest: seq<Item>)
    ensures var tail := Entries(Firsts(rest, {x.key, y.key}));
      Entries(Firsts([x, y] + rest, {})) == if x.key == y.key then [x.entry] + tail else [x.entry, y.entry] + tail
  {
    var all := [x, y] + rest;
    assert all[1..] == [y] + rest && ([y] + rest)[1..] == rest;
    assert Firsts(all, {}) == [x] + Firsts([y] + rest, {x.key}) by { assert {} + {x.key} == {x.key}; }
    if x.key == y.key {
      assert {x.key, y.key} == {x.key};
      assert Firsts([y] + rest, {x.key}) == Firsts(rest, {x.key});
      EntriesConcat([x], Firsts(rest, {x.key}));
    } else {
      assert {x.key} + {y.key} == {x.key, y.key};
      assert Firsts([y] + rest, {x.key}) == [y] + Firsts(rest, {x.key, y.key});
      EntriesConcat([x], [y] + Firsts(rest, {x.key, y.key}));
      EntriesConcat([y], Firsts(rest, {x.key, y.key}));
    }
  }

  lemma DifferentKeysShow(x: Item, y: Item, tail: seq<Entry>)
    requires Tied(x.entry, y.entry) && x.entry != y.entry
    ensures Sort(EntryLe, [x.entry, y.entry] + tail) != Sort(EntryLe, [y.entry, x.entry] + tail)
  {
    var a, b := x.entry, y.entry;
    TiedBothWays(a, b);
    EntryLeIsOrder();
    SortPair(a, b, tail);
    SortPair(b, a, tail);
    hide EntryLe, Sort, Insert, TotalPreorder;
    var s := Sort(EntryLe, tail);
    var k := TiedPairStays(a, b, s);
    assert (s[..k] + [a, b] + s[k..])[k] == a && (s[..k] + [b, a] + s[k..])[k] == b;
  }

  /** Two packages that the order cannot tell apart but that declare different licences: which is scanned first
      shows in the document. */
  lemma DisagreementShows(x: Item, y: Item, rest: seq<Item>)
    requires Tied(x.entry, y.entry) && x.entry != y.entry
    ensures PackageList([x, y] + rest) != PackageList([y, x] + rest)
  {
    var tail := Entries(Firsts(rest, {x.key, y.key}));
    LeadingPair(x, y, rest);
    LeadingPair(y, x, rest);
    assert {y.key, x.key} == {x.key, y.key};
    hide Firsts, Sort, EntryLe;
    if x.key == y.key {
      var one, two := [x.entry] + tail, [y.entry] + tail;
      assert multiset(one)[x.entry] == multiset(tail)[x.entry] + 1;
      assert multiset(two)[x.entry] == multiset(tail)[x.entry];
      assert multiset(Sort(EntryLe, one)) != multiset(Sort(EntryLe, two));
    } else {
      DifferentKeysShow(x, y, tail);
    }
  }

  /** Two different members of a sequence, brought to its front. */
  lemma PullOut(scan: seq<Item>, x: Item, y: Item) returns (rest: seq<Item>)
    requires x in scan && y in scan && x != y
    ensures multiset([x, y] + rest) == multiset(scan) == multiset([y, x] + rest)
  {
    assert x in multiset(scan) && y in multiset(scan);
    var i := MoveToFront(scan, x);
    var others := scan[..i] + scan[i + 1..];
    assert y in multiset(others);
    var j := MoveToFront(others, y);
    rest := others[..j] + others[j + 1..];
  }

  /** The exact condition for a deterministic document: over every order of the same packages the document is
      the same exactly when packages its order cannot tell apart declare the same licence. */
  lemma DeterministicExactlyWhenLicencesAgree(scan: seq<Item>)
    requires Scanned(scan)
    ensures LicencesAgree(scan) <==>
      forall other :: multiset(other) == multiset(scan) ==> PackageList(other) == PackageList(scan)
  {
    hide PackageList, Tied;
    if LicencesAgree(scan) {
      forall other | multiset(other) == multiset(scan) ensures PackageList(other) == PackageList(scan) {
        forall x ensures x in scan <==> x in other { assert x in multiset(scan) <==> x in multiset(other); }
        OrderDoesNotMatter(scan, other);
      }
    } else {
      var x, y :| x in scan && y in scan && Tied(x.entry, y.entry) && x.entry != y.entry;
      var rest := PullOut(scan, x, y);
      DisagreementShows(x, y, rest);
    }
  }

  /** The condition is met when equal packages declare equal licences and different packages get different ids. */
  lemma UsualMetadataAgrees(scan: seq<Item>)
    requires forall x, y :: x in scan && y in scan && x.key == y.key ==> x.entry == y.entry
    requires forall x, y :: x in scan && y in scan && x.key != y.key ==> x.entry.id != y.entry.id
    ensures Scanned(scan) && LicencesAgree(scan)
  {
    forall x, y | x in scan && y in scan && Tied(x.entry, y.entry) ensures x.entry == y.entry {
      assert x.key == y.key;
    }
  }

  ghost predicate Lists(metadata: seq<seq<Package>>, p: Package) { exists ps :: ps in metadata && p in ps }

  lemma {:induction false} ScanHasTheListed(hex: HexDigest, metadata: seq<seq<Package>>, x: Item)
    ensures x in Scan(hex, metadata) <==> exists p :: Lists(metadata, p) && ItemOf(hex, p) == x
  {
    hide ItemOf;
    if metadata != [] {
      var first, rest := metadata[0], metadata[1..];
      ScanHasTheListed(hex, rest, x);
      assert x in Scan(hex, metadata) <==> x in ScanFile(hex, first) || x in Scan(hex, rest);
      if x in ScanFile(hex, first) {
        var i :| 0 <= i < |first| && ScanFile(hex, first)[i] == x;
        assert first in metadata && first[i] in first && Lists(metadata, first[i]);
      } else if x in Scan(hex, rest) {
        var p :| Lists(rest, p) && ItemOf(hex, p) == x;
        var ps :| ps in rest && p in ps;
        assert ps in metadata && Lists(metadata, p);
      }
    }
  }

  /** Neither the order of the metadata files nor the order inside them, nor how packages are spread over the
      files, shows in the document. */
  lemma MetadataInAnyOrder(hex: HexDigest, metadata: seq<seq<Package>>, other: seq<seq<Package>>)
    requires LicencesAgree(Scan(hex, metadata)) && forall p :: Lists(metadata, p) <==> Lists(other, p)
    ensures PackageList(Scan(hex, metadata)) == PackageList(Scan(hex, other))
  {
    hide ItemOf, Scan, LicencesAgree, PackageList;
    ScanIsScanned(hex, metadata);
    forall x ensures x in Scan(hex, metadata) <==> x in Scan(hex, other) {
      ScanHasTheListed(hex, metadata, x);
      ScanHasTheListed(hex, other, x);
    }
    OrderDoesNotMatter(Scan(hex, metadata), Scan(hex, other));
  }

  // ---- the document over the packages themselves ----------------------------------------------------

  /** All packages, file after file. */
  ghost function All(metadata: seq<seq<Package>>): seq<Package> {
    if metadata == [] then [] else metadata[0] + All(metadata[1..])
  }

  /** Where a package comes from: its source, or else its manifest. */
  ghost function Origin(p: Package): string {
    if p.source != None && p.source != Some("") then p.source.value
    else if p.manifestPath == None then "path:unknown"
    else "path:" + p.manifestPath.value
  }

  ghost predicate SamePackage(p: Package, q: Package) {
    p.name == q.name && p.version == q.version && Origin(p) == Origin(q)
  }

  ghost predicate IsFirst(ps: seq<Package>, i: nat) {
    i < |ps| && forall j :: 0 <= j < i ==> !SamePackage(ps[j], ps[i])
  }

  /** What the document says about a package. */
  ghost predicate Shows(hex: HexDigest, p: Package, e: Entry) {
    && e.name == p.name && e.version == p.version
    && e.license == (if p.license == None || p.license == Some("") then "NOASSERTION" else p.license.value)
    && IsIdOf(hex, p.name + "-" + p.version, p.name + "-" + p.version + "-" + Origin(p), e.id)
  }

  /** An id is made of the cleaned text and the first twelve digits of the digest of the raw text. */
  ghost predicate IsIdOf(hex: HexDigest, text: string, raw: string, id: string) {
    exists digits :: id == "SPDXRef-Package-" + Safe(text, false) + "-" + digits && StartOf(digits, hex(raw), 12)
  }

  ghost predicate StartOf(part: string, whole: string, n: nat) {
    part <= whole && |part| <= n && (|part| == n || part == whole)
  }

  lemma IdOf(hex: HexDigest, k: Key)
    ensures IsIdOf(hex, k.name + "-" + k.version, k.name + "-" + k.version + "-" + k.source, SpdxId(hex, k))
  {
    assert StartOf(Prefix12(hex(RawName(k))), hex(RawName(k)), 12);
  }

  /** By name, then version, then id. */
  ghost predicate InOrder(a: Entry, b: Entry) {
    || (a.name != b.name && TextLe(a.name, b.name))
    || (a.name == b.name && a.version != b.version && TextLe(a.version, b.version))
    || (a.name == b.name && a.version == b.version && TextLe(a.id, b.id))
  }

  /** The entries show exactly the packages that are the first of their name, version and origin, each once, in
      order; what the order cannot tell apart stays as scanned. */
  ghost predicate Describes(hex: HexDigest, ps: seq<Package>, entries: seq<Entry>, order: seq<nat>) {
    && |order| == |entries| && NoRepeats(order)
    && (forall i :: i in order <==> IsFirst(ps, i))
    && (forall k :: 0 <= k < |order| ==> order[k] < |ps| && Shows(hex, ps[order[k]], entries[k]))
    && (forall k, l :: 0 <= k < l < |entries| ==> InOrder(entries[k], entries[l]))
    && (forall k, l :: 0 <= k < l < |entries| && InOrder(entries[l], entries[k]) ==> order[k] < order[l])
  }

  lemma {:induction false} ScanIsOfAll(hex: HexDigest, metadata: seq<seq<Package>>)
    ensures |Scan(hex, metadata)| == |All(metadata)|
    ensures forall i :: 0 <= i < |All(metadata)| ==> Scan(hex, metadata)[i] == ItemOf(hex, All(metadata)[i])
  {
    hide ItemOf;
    if metadata != [] {
      ScanIsOfAll(hex, metadata[1..]);
      assert Scan(hex, metadata) == ScanFile(hex, metadata[0]) + Scan(hex, metadata[1..]);
    }
  }

  ghost predicate Leads(scan: seq<Item>, seen: set<Key>, i: nat) {
    i < |scan| && scan[i].key !in seen && forall j :: 0 <= j < i ==> scan[j].key != scan[i].key
  }

  /** `items` are taken from the scan at the positions `at`, in order. */
  ghost predicate TakenAt(scan: seq<Item>, items: seq<Item>, at: seq<nat>) {
    && |at| == |items|
    && (forall k :: 0 <= k < |at| ==> at[k] < |scan| && items[k] == scan[at[k]])
    && (forall k, l :: 0 <= k < l < |at| ==> at[k] < at[l])
  }

  ghost predicate LeadersAt(scan: seq<Item>, seen: set<Key>, at: seq<nat>) {
    forall i :: i in at <==> Leads(scan, seen, i)
  }

  /** The positions of the kept items: those that lead their key, in order. */
  lemma {:induction false} FirstsAre(scan: seq<Item>, seen: set<Key>) returns (at: seq<nat>)
    ensures TakenAt(scan, Firsts(scan, seen), at) && LeadersAt(scan, seen, at)
    decreases |scan|
  {
    if scan == [] {
      at := [];
    } else {
      var x, rest := scan[0], scan[1..];
      assert x.key in seen ==> seen + {x.key} == seen;
      var tail := FirstsAre(rest, seen + {x.key});
      TakenLater(scan, Firsts(rest, seen + {x.key}), tail);
      if x.key !in seen { TakenWithFirst(scan, Firsts(rest, seen + {x.key}), Up(tail)); }
      hide TakenAt, LeadersAt;
      at := if x.key in seen then Up(tail) else [0] + Up(tail);
      LeadersLater(scan, seen, tail, at);
    }
  }

  lemma LeadsLater(scan: seq<Item>, seen: set<Key>, i: nat)
    requires scan != []
    ensures Leads(scan, seen, i + 1) <==> Leads(scan[1..], seen + {scan[0].key}, i)
  {
  }

  ghost function Up(tail: seq<nat>): (up: seq<nat>)
    ensures |up| == |tail| && forall k :: 0 <= k < |tail| ==> up[k] == tail[k] + 1
  {
    seq(|tail|, k requires 0 <= k < |tail| => tail[k] + 1)
  }

  lemma InUp(tail: seq<nat>, i: nat)
    ensures i in Up(tail) <==> i > 0 && i - 1 in tail
  {
    if i > 0 && i - 1 in tail {
      var k :| 0 <= k < |tail| && tail[k] == i - 1;
      assert Up(tail)[k] == i;
    }
  }

  lemma TakenLater(scan: seq<Item>, kept: seq<Item>, tail: seq<nat>)
    requires scan != [] && TakenAt(scan[1..], kept, tail)
    ensures TakenAt(scan, kept, Up(tail))
  {
    forall k | 0 <= k < |tail| ensures Up(tail)[k] < |scan| && kept[k] == scan[Up(tail)[k]] {
      assert kept[k] == scan[1..][tail[k]];
    }
  }

  lemma TakenWithFirst(scan: seq<Item>, kept: seq<Item>, tail: seq<nat>)
    requires scan != [] && TakenAt(scan, kept, tail) && forall k :: 0 <= k < |tail| ==> tail[k] > 0
    ensures TakenAt(scan, [scan[0]] + kept, [0] + tail)
  {
    var at, items := [0] + tail, [scan[0]] + kept;
    forall k | 0 <= k < |at| ensures at[k] < |scan| && items[k] == scan[at[k]] {
      if k > 0 { assert at[k] == tail[k - 1] && items[k] == kept[k - 1]; }
    }
    forall k, l | 0 <= k < l < |at| ensures at[k] < at[l] {
      assert at[l] == tail[l - 1];
      if k > 0 { assert at[k] == tail[k - 1]; }
    }
  }

  lemma LeadersLater(scan: seq<Item>, seen: set<Key>, tail: seq<nat>, at: seq<nat>)
    requires scan != []
    requires LeadersAt(scan[1..], seen + {scan[0].key}, tail)
    requires at == if scan[0].key in seen then Up(tail) else [0] + Up(tail)
    ensures LeadersAt(scan, seen, at)
  {
    forall i: nat ensures i in at <==> Leads(scan, seen, i) {
      InUp(tail, i);
      if i > 0 { LeadsLater(scan, seen, i - 1); }
    }
  }

  lemma ItemShows(hex: HexDigest, p: Package, q: Package)
    ensures Shows(hex, p, ItemOf(hex, p).entry)
    ensures ItemOf(hex, p).key == ItemOf(hex, q).key <==> SamePackage(p, q)
  {
    assert "path:" + "unknown" == "path:unknown";
    IdOf(hex, KeyOf(p));
    hide SpdxId, IsIdOf;
  }

  lemma OrderIs(a: Entry, b: Entry)
    ensures EntryLe(a, b) <==> InOrder(a, b)
  {
  }

  lemma LeadsIsFirst(hex: HexDigest, ps: seq<Package>, scan: seq<Item>, i: nat)
    requires |scan| == |ps| && forall j :: 0 <= j < |ps| ==> scan[j] == ItemOf(hex, ps[j])
    ensures Leads(scan, {}, i) <==> IsFirst(ps, i)
  {
    hide ItemOf, SamePackage;
    if i < |ps| {
      forall j | 0 <= j < i ensures scan[j].key == scan[i].key <==> SamePackage(ps[j], ps[i]) { ItemShows(hex, ps[j], ps[i]); }
    }
  }

  /** `order` names the positions `at`, rearranged by `perm`. */
  ghost predicate Rearranged(at: seq<nat>, perm: seq<nat>, order: seq<nat>) {
    && |order| == |perm| == |at| && NoRepeats(perm) && Covers(perm, |at|)
    && (forall k :: 0 <= k < |perm| ==> perm[k] < |at| && order[k] == at[perm[k]])
    && (forall k, l :: 0 <= k < l < |at| ==> at[k] < at[l])
  }

  lemma RearrangedMembers(at: seq<nat>, perm: seq<nat>, order: seq<nat>)
    requires Rearranged(at, perm, order)
    ensures NoRepeats(order) && forall i :: i in order <==> i in at
  {
    forall i | i in at ensures i in order {
      var k :| 0 <= k < |at| && at[k] == i;
      assert k in perm;
      var l :| 0 <= l < |perm| && perm[l] == k;
      assert order[l] == i;
    }
    forall k, l | 0 <= k < l < |order| ensures order[k] != order[l] { assert perm[k] != perm[l]; }
  }

  lemma ListIsInOrder(entries: seq<Entry>)
    ensures forall k, l :: 0 <= k < l < |entries| ==> InOrder(Sort(EntryLe, entries)[k], Sort(EntryLe, entries)[l])
  {
    EntryLeIsOrder();
    SortSorts(EntryLe, entries);
    var r := Sort(EntryLe, entries);
    hide EntryLe, InOrder, Sort, TotalPreorder;
    forall k, l | 0 <= k < l < |entries| ensures InOrder(r[k], r[l]) { OrderIs(r[k], r[l]); }
  }

  /** The sorted list of the kept entries describes the packages. */
  lemma ListDescribes(hex: HexDigest, metadata: seq<seq<Package>>) returns (order: seq<nat>)
    ensures Describes(hex, All(metadata), PackageList(Scan(hex, metadata)), order)
  {
    hide Firsts, Sort, EntryLe, InOrder, ItemOf, Shows, Leads, IsFirst, Scan, All, Entries;
    var ps, scan := All(metadata), Scan(hex, metadata);
    ScanIsOfAll(hex, metadata);
    var at := FirstsAre(scan, {});
    var items, entries := Firsts(scan, {}), PackageList(scan);
    var perm := SortIsStable(EntryLe, Entries(items));
    order := seq(|perm|, k requires 0 <= k < |perm| => at[perm[k]]);
    RearrangedMembers(at, perm, order);
    ListIsInOrder(Entries(items));
    forall i: nat ensures i in order <==> IsFirst(ps, i) { LeadsIsFirst(hex, ps, scan, i); }
    forall k | 0 <= k < |order| ensures order[k] < |ps| && Shows(hex, ps[order[k]], entries[k]) {
      assert entries[k] == items[perm[k]].entry && items[perm[k]] == scan[order[k]];
      ItemShows(hex, ps[order[k]], ps[order[k]]);
    }
    forall k, l | 0 <= k < l < |entries| && InOrder(entries[l], entries[k]) ensures order[k] < order[l] {
      OrderIs(entries[l], entries[k]);
      assert perm[k] < perm[l];
    }
  }

  method ScanPackages(hex: HexDigest, packages: seq<Package>, items: seq<Item>, known: set<Key>, ghost later: seq<Item>)
    returns (items': seq<Item>, known': set<Key>)
    ensures items' + Firsts(later, known') == items + Firsts(ScanFile(hex, packages) + later, known)
  {
    hide ItemOf, Firsts;
    items', known' := items, known;
    assert packages[0..] == packages;
    for j := 0 to |packages|
      invariant items' + Firsts(ScanFile(hex, packages[j..]) + later, known')
             == items + Firsts(ScanFile(hex, packages) + later, known)
    {
      var item := ItemOf(hex, packages[j]);
      ghost var rest := ScanFile(hex, packages[j..]) + later;
      assert rest[1..] == ScanFile(hex, packages[j + 1..]) + later by { assert packages[j..][1..] == packages[j + 1..]; }
      FirstsStep(items', rest, known', item);
      if item.key !in known' {
        items' := items' + [item];
        known' := known' + {item.key};
      }
    }
    assert ScanFile(hex, packages[|packages|..]) + later == later;
  }

  method GenerateSbom(hex: HexDigest, metadata: seq<seq<Package>>, seed: string) returns (document: Document)
    ensures document == Document(hex(seed), PackageList(Scan(hex, metadata)))
    ensures exists order :: Describes(hex, All(metadata), document.packages, order)
  {
    hide ScanFile, Firsts;
    var items: seq<Item> := [];
    var known: set<Key> := {};
    assert metadata[0..] == metadata;
    for i := 0 to |metadata|
      invariant items + Firsts(Scan(hex, metadata[i..]), known) == Firsts(Scan(hex, metadata), {})
    {
      assert metadata[i..][1..] == metadata[i + 1..];
      items, known := ScanPackages(hex, metadata[i], items, known, Scan(hex, metadata[i + 1..]));
    }
    NothingLeft(hex, metadata, items, known);
    document := Document(hex(seed), Sort(EntryLe, Entries(items)));
    ghost var order := ListDescribes(hex, metadata);
  }

  lemma NothingLeft(hex: HexDigest, metadata: seq<seq<Package>>, items: seq<Item>, known: set<Key>)
    ensures items + Firsts(Scan(hex, metadata[|metadata|..]), known) == items
  {
  }
}
