/** The release manifest of `tools/supply_chain.py`: creation, verification, and runs of verifications.
    Files are their bytes, the SHA-256 text of a file is a parameter, and a manifest is what reading its JSON
    back gives. */
module Manifest {
  import opened Base
  import opened Ordering
  import opened Characters

  type Sha = Bytes -> string
  type Directory = map<string, Bytes>

  datatype Json =
    | Null | Bool(b: bool) | Int(n: int) | Float(r: real) | Text(t: string)
    | List(items: seq<Json>) | Object(fields: map<string, Json>)

  /** How Python turns text into an integer and other values into text. */
  datatype Python = Python(parseInt: string -> Option<int>, show: Json -> string)

  /** The fields that verification looks up; `None` where the key is absent. */
  datatype Record = Record(path: Option<Json>, size: Option<Json>, sha256: Option<Json>) | NotARecord
  datatype Records = Records(byName: map<string, Record>) | NotRecords
  datatype Document =
    | Document(schemaVersion: Option<Json>, sourceCommit: Option<Json>, releaseSequence: Option<Json>,
               requiredArtifacts: Option<Json>, artifacts: Option<Records>)
    | NotAnObject

  const SCHEMA_VERSION := 1

  // ---- text -----------------------------------------------------------------------------------------

  predicate FullSha(s: string) { |s| == 40 && forall i :: 0 <= i < |s| ==> HexDigit(s[i]) }

  /** The last component of a path text, as `Path(text).name` gives it for a text without separators. */
  function BaseName(text: string): string
    requires '/' !in text
  {
    if text == "." then "" else text
  }

  predicate SafeName(name: string) {
    name != "" && '/' !in name && BaseName(name) == name && '\\' !in name
  }

  /** A commit is forty hexadecimal digits in either case. */
  lemma FullShaIs(s: string)
    ensures FullSha(s) <==> |s| == 40 && forall c :: c in s ==> c in "0123456789abcdef" || c in "ABCDEF"
  {
    forall c ensures HexDigit(c) <==> c in HEX || c in "ABCDEF" { HexDigitsAre(c); }
    hide HexDigit;
    assert forall i :: 0 <= i < |s| ==> s[i] in s;
  }

  /** A safe name is one path component and not the current directory. */
  lemma SafeNameIs(name: string)
    ensures SafeName(name) <==> name != "" && name != "." && forall c :: c in name ==> c != '/' && c != '\\'
  {
  }

  // ---- creation -------------------------------------------------------------------------------------

  datatype Artifact = Artifact(name: string, contents: Bytes)

  datatype CreateError =
    | BadCommit | NegativeSequence | DuplicateRequired | UnsafeName | DuplicateBasename | Partial | Unexpected

  function RecordOf(sha: Sha, a: Artifact): Record {
    Record(Some(Text(a.name)), Some(Int(|a.contents|)), Some(Text(sha(a.contents))))
  }

  ghost predicate HasFile(artifacts: seq<Artifact>, name: string) {
    exists i :: 0 <= i < |artifacts| && artifacts[i].name == name
  }

  /** The records of exactly these files. */
  ghost predicate Describes(sha: Sha, artifacts: seq<Artifact>, records: map<string, Record>) {
    && (forall name :: name in records ==> HasFile(artifacts, name))
    && (forall i :: 0 <= i < |artifacts| ==>
          artifacts[i].name in records && records[artifacts[i].name] == RecordOf(sha, artifacts[i]))
  }

  function Texts(names: seq<string>): (r: seq<Json>)
    ensures |r| == |names| && forall i :: 0 <= i < |r| ==> r[i] == Text(names[i])
  {
    if names == [] then [] else [Text(names[0])] + Texts(names[1..])
  }

  function ManifestWith(commit: string, sequence: int, required: seq<string>, records: map<string, Record>): Document {
    Document(Some(Int(SCHEMA_VERSION)), Some(Text(Lower(commit))), Some(Int(sequence)),
             Some(List(Texts(Sort(TextLe, required)))), Some(Records(records)))
  }

  ghost predicate NamesApart(artifacts: seq<Artifact>) {
    forall i, j :: 0 <= i < j < |artifacts| ==> artifacts[i].name != artifacts[j].name
  }

  /** When a manifest can be made at all: distinct safe required names, and exactly one file for each. */
  ghost predicate Creatable(commit: string, sequence: int, artifacts: seq<Artifact>, required: seq<string>) {
    && FullSha(commit) && sequence >= 0
    && NoRepeats(required) && (forall name :: name in required ==> SafeName(name))
    && NamesApart(artifacts)
    && (forall i :: 0 <= i < |artifacts| ==> artifacts[i].name in required)
    && (forall name :: name in required ==> HasFile(artifacts, name))
  }

  /** What creation writes. */
  ghost predicate Created(sha: Sha, commit: string, sequence: int, artifacts: seq<Artifact>, required: seq<string>,
                          m: Document)
  {
    && Creatable(commit, sequence, artifacts, required)
    && m.Document? && m.artifacts.Some? && m.artifacts.value.Records?
    && m == ManifestWith(commit, sequence, required, m.artifacts.value.byName)
    && Describes(sha, artifacts, m.artifacts.value.byName)
  }

  /** The manifest item by item: version, commit and sequence, the required names in order, and for every file its own
      name, size and digest. */
  ghost predicate Lists(sha: Sha, commit: string, sequence: int, artifacts: seq<Artifact>, required: seq<string>, m: Document) {
    && m.Document? && m.schemaVersion == Some(Int(1)) && m.sourceCommit == Some(Text(Lower(commit)))
    && m.releaseSequence == Some(Int(sequence))
    && m.requiredArtifacts.Some? && m.requiredArtifacts.value.List? && NamesInOrder(required, m.requiredArtifacts.value.items)
    && m.artifacts.Some? && m.artifacts.value.Records? && Recorded(sha, artifacts, m.artifacts.value.byName)
  }

  ghost predicate NamesInOrder(required: seq<string>, items: seq<Json>) {
    && (forall i, j :: 0 <= i < j < |items| ==> items[i].Text? && items[j].Text? && TextLe(items[i].t, items[j].t))
    && (forall j :: j in items <==> j.Text? && j.t in required)
  }

  ghost predicate Recorded(sha: Sha, artifacts: seq<Artifact>, records: map<string, Record>) {
    && (forall name :: name in records <==> HasFile(artifacts, name))
    && (forall a :: a in artifacts ==> a.name in records)
    && (forall a :: a in artifacts ==>
          records[a.name] == Record(Some(Text(a.name)), Some(Int(|a.contents|)), Some(Text(sha(a.contents)))))
  }

  lemma CreatedLists(sha: Sha, commit: string, sequence: int, artifacts: seq<Artifact>, required: seq<string>, m: Document)
    requires Created(sha, commit, sequence, artifacts, required, m)
    ensures Lists(sha, commit, sequence, artifacts, required, m)
  {
    hide Sort, TextLe, Texts, Creatable, Lower, NamesInOrder, Recorded, Describes;
    RequiredInOrder(required);
    DescribedIsRecorded(sha, artifacts, m.artifacts.value.byName);
  }

  lemma DescribedIsRecorded(sha: Sha, artifacts: seq<Artifact>, records: map<string, Record>)
    requires Describes(sha, artifacts, records)
    ensures Recorded(sha, artifacts, records)
  {
    forall name ensures name in records <==> HasFile(artifacts, name) { RecordedIsThere(sha, artifacts, records, name); }
  }

  lemma RequiredInOrder(required: seq<string>)
    ensures NamesInOrder(required, Texts(Sort(TextLe, required)))
  {
    var names := Sort(TextLe, required);
    TextsInOrder(required);
    SortKeepsMembers(TextLe, required);
    hide Sort, TextLe, Texts;
    forall j ensures j in Texts(names) <==> j.Text? && j.t in required {
      if j.Text? { TextsMembers(names, j.t); }
    }
  }

  lemma TextsInOrder(required: seq<string>)
    ensures var items := Texts(Sort(TextLe, required));
      forall i, j :: 0 <= i < j < |items| ==> items[i].Text? && items[j].Text? && TextLe(items[i].t, items[j].t)
  {
    TextLeIsOrder();
    SortSorts(TextLe, required);
    hide TextLe, Sort;
  }

  lemma TextLeIsOrder()
    ensures TotalPreorder(TextLe)
  {
    forall a, b ensures TextLe(a, b) || TextLe(b, a) { TextLeTotal(a, b); }
    forall a, b, c | TextLe(a, b) && TextLe(b, c) ensures TextLe(a, c) { TextLeTransitive(a, b, c); }
  }

  /** `create_release_manifest`; `artifacts` are the files in path order. */
  method CreateManifest(sha: Sha, commit: string, sequence: int, artifacts: seq<Artifact>, required: seq<string>)
    returns (r: Result<Document, CreateError>)
    ensures r.Ok? <==> Creatable(commit, sequence, artifacts, required)
    ensures r.Ok? ==> Created(sha, commit, sequence, artifacts, required, r.value)
    ensures !FullSha(commit) ==> r == Err(BadCommit)
    ensures FullSha(commit) && sequence < 0 ==> r == Err(NegativeSequence)
    ensures FullSha(commit) && sequence >= 0 && !NoRepeats(required) ==> r == Err(DuplicateRequired)
    ensures r == Err(Partial) ==> exists name :: name in required && !HasFile(artifacts, name)
    ensures r == Err(Unexpected) ==>
      && (exists i :: 0 <= i < |artifacts| && artifacts[i].name !in required)
      && (forall name :: name in required ==> HasFile(artifacts, name))
    ensures r == Err(DuplicateBasename) ==> !NamesApart(artifacts)
    ensures r == Err(UnsafeName) ==>
      (exists name :: name in required && !SafeName(name)) || exists i :: 0 <= i < |artifacts| && !SafeName(artifacts[i].name)
    ensures r.Ok? ==> Lists(sha, commit, sequence, artifacts, required, r.value)
  {
    hide FullSha, SafeName, RecordOf;
    if !FullSha(commit) { return Err(BadCommit); }
    if sequence < 0 { return Err(NegativeSequence); }
    var distinct := AllDifferent(required);
    if !distinct { return Err(DuplicateRequired); }
    var safe := AllSafe(required);
    if !safe { return Err(UnsafeName); }
    var records :- CollectRecords(sha, artifacts);
    forall name ensures name in records <==> HasFile(artifacts, name) { RecordedIsThere(sha, artifacts, records, name); }
    if exists name :: name in required && name !in records { return Err(Partial); }
    if exists name :: name in records && name !in required { return Err(Unexpected); }
    ghost var m := ManifestWith(commit, sequence, required, records);
    hide Lists, Sort, TextLe, Lower, Texts;
    CreatedLists(sha, commit, sequence, artifacts, required, m);
    return Ok(ManifestWith(commit, sequence, required, records));
  }

  lemma RecordedIsThere(sha: Sha, artifacts: seq<Artifact>, records: map<string, Record>, name: string)
    requires Describes(sha, artifacts, records)
    ensures name in records <==> HasFile(artifacts, name)
  {
    if HasFile(artifacts, name) { var i :| 0 <= i < |artifacts| && artifacts[i].name == name; }
  }

  method AllDifferent(names: seq<string>) returns (r: bool)
    ensures r <==> NoRepeats(names)
  {
    var seen: set<string> := {};
    for i := 0 to |names|
      invariant forall n :: n in seen <==> n in names[..i]
      invariant NoRepeats(names[..i])
    {
      if names[i] in seen {
        var j :| 0 <= j < i && names[j] == names[i];
        return false;
      }
      seen := seen + {names[i]};
    }
    assert names[..|names|] == names;
    return true;
  }

  method AllSafe(names: seq<string>) returns (r: bool)
    ensures r <==> forall name :: name in names ==> SafeName(name)
  {
    for i := 0 to |names|
      invariant forall j :: 0 <= j < i ==> SafeName(names[j])
    {
      if !SafeName(names[i]) { return false; }
    }
    return true;
  }

  method CollectRecords(sha: Sha, artifacts: seq<Artifact>) returns (r: Result<map<string, Record>, CreateError>)
    ensures r.Ok? <==> NamesApart(artifacts) && forall i :: 0 <= i < |artifacts| ==> SafeName(artifacts[i].name)
    ensures r.Ok? ==> Describes(sha, artifacts, r.value)
    ensures r.Err? ==> r.error.UnsafeName? || r.error.DuplicateBasename?
    ensures r == Err(UnsafeName) ==> exists i :: 0 <= i < |artifacts| && !SafeName(artifacts[i].name)
    ensures r == Err(DuplicateBasename) ==> !NamesApart(artifacts)
  {
    hide SafeName, RecordOf;
    var records: map<string, Record> := map[];
    for i := 0 to |artifacts|
      invariant Describes(sha, artifacts[..i], records) && NamesApart(artifacts[..i])
      invariant forall j :: 0 <= j < i ==> SafeName(artifacts[j].name)
    {
      var a := artifacts[i];
      if !SafeName(a.name) { return Err(UnsafeName); }
      if a.name in records {
        var j :| 0 <= j < i && artifacts[..i][j].name == a.name;
        return Err(DuplicateBasename);
      }
      OneMoreRecord(sha, artifacts, i, records);
      records := records[a.name := RecordOf(sha, a)];
    }
    assert artifacts[..|artifacts|] == artifacts;
    return Ok(records);
  }

  lemma OneMoreRecord(sha: Sha, artifacts: seq<Artifact>, i: nat, records: map<string, Record>)
    requires i < |artifacts| && Describes(sha, artifacts[..i], records) && NamesApart(artifacts[..i])
    requires artifacts[i].name !in records
    ensures NamesApart(artifacts[..i + 1])
    ensures Describes(sha, artifacts[..i + 1], records[artifacts[i].name := RecordOf(sha, artifacts[i])])
  {
    hide RecordOf;
    var a, now := artifacts[i], artifacts[..i + 1];
    assert forall j :: 0 <= j < i ==> artifacts[..i][j] == now[j];
    forall name | name in records ensures HasFile(now, name) {
      var j :| 0 <= j < i && artifacts[..i][j].name == name;
      assert now[j].name == name;
    }
    assert now[i].name == a.name;
  }

  // ---- verification ---------------------------------------------------------------------------------

  datatype VerifyError =
    | WrongCommitArgument | Crashed | UnsupportedSchema | WrongSource | Rollback | Malformed | DuplicateNames
    | Inconsistent | UnsafeArtifact | MissingArtifact | MalformedRecord | WrongPath | WrongSize | WrongHash

  function Truncate(r: real): int { if r >= 0.0 then r.Floor else -((-r).Floor) }

  /** `int(value)`; `None` where Python raises. */
  function IntOf(py: Python, j: Json): Option<int> {
    match j
    case Int(n) => Some(n)
    case Bool(b) => Some(if b then 1 else 0)
    case Float(r) => Some(Truncate(r))
    case Text(t) => py.parseInt(t)
    case _ => None
  }

  /** Integers stand for themselves, `true` for 1, and a fraction is dropped toward zero. */
  lemma IntOfIs(py: Python, j: Json, n: int)
    ensures IntOf(py, j) == Some(n) <==>
      || j == Int(n) || (j == Bool(true) && n == 1) || (j == Bool(false) && n == 0)
      || (j.Text? && py.parseInt(j.t) == Some(n))
      || (j.Float? && (if j.r < 0.0 then n as real >= j.r > n as real - 1.0 && n <= 0 else n as real <= j.r < n as real + 1.0))
  {
  }

  /** `str(value)`. */
  function TextOf(py: Python, j: Json): string { if j.Text? then j.t else py.show(j) }

  function Field<T>(value: Option<T>, default: T): T { if value.Some? then value.value else default }

  predicate Hashable(j: Json) { !j.List? && !j.Object? }

  function NumberOf(j: Json): Option<real> {
    match j
    case Int(n) => Some(n as real)
    case Bool(b) => Some(if b then 1.0 else 0.0)
    case Float(r) => Some(r)
    case _ => None
  }

  /** Python's equality of hashable values: numbers compare across their types. */
  predicate SameValue(a: Json, b: Json) { a == b || (NumberOf(a).Some? && NumberOf(a) == NumberOf(b)) }

  /** Numbers are equal across their types, everything else only to itself. */
  lemma SameValueIs(a: Json, b: Json, n: int)
    ensures SameValue(Int(n), Float(n as real)) && SameValue(Bool(true), Int(1)) && SameValue(Bool(false), Float(0.0))
    ensures SameValue(Int(n), b) && b.Int? ==> b == Int(n)
    ensures a.Text? || a.Null? ==> (SameValue(a, b) <==> a == b)
    ensures SameValue(a, b) <==> SameValue(b, a)
  {
  }

  ghost predicate RepeatsValue(items: seq<Json>) {
    exists i, j :: 0 <= i < j < |items| && SameValue(items[i], items[j])
  }

  /** The set of items is the set of record names. */
  ghost predicate SameNames(items: seq<Json>, records: map<string, Record>) {
    && (forall i :: 0 <= i < |items| ==> items[i].Text? && items[i].t in records)
    && (forall name :: name in records ==> Text(name) in items)
  }

  /** Everything before the files are looked at. */
  ghost function Header(py: Python, m: Document, minimum: int, expected: string)
    : Result<(seq<Json>, map<string, Record>), VerifyError>
  {
    if m.NotAnObject? then Err(Crashed)
    else
      var schema := IntOf(py, Field(m.schemaVersion, Int(0)));
      if schema.None? then Err(Crashed)
      else if schema.value != SCHEMA_VERSION then Err(UnsupportedSchema)
      else if Lower(TextOf(py, Field(m.sourceCommit, Text("")))) != expected then Err(WrongSource)
      else
        var sequence := IntOf(py, Field(m.releaseSequence, Int(-1)));
        if sequence.None? then Err(Crashed)
        else if sequence.value < minimum then Err(Rollback)
        else if m.requiredArtifacts.None? || !m.requiredArtifacts.value.List?
                || m.artifacts.None? || m.artifacts.value.NotRecords? then Err(Malformed)
        else
          var required, records := m.requiredArtifacts.value.items, m.artifacts.value.byName;
          if exists i :: 0 <= i < |required| && !Hashable(required[i]) then Err(Crashed)
          else if RepeatsValue(required) then Err(DuplicateNames)
          else if !SameNames(required, records) then Err(Inconsistent)
          else Ok((required, records))
  }

  /** The checks on one required name. */
  function CheckOne(py: Python, sha: Sha, name: Json, records: map<string, Record>, dir: Directory)
    : Result<(), VerifyError>
    requires name.Text? ==> name.t in records
  {
    if !name.Text? || !SafeName(name.t) then Err(UnsafeArtifact)
    else if name.t !in dir then Err(MissingArtifact)
    else
      var record := records[name.t];
      if record.NotARecord? then Err(MalformedRecord)
      else if record.path != Some(name) then Err(WrongPath)
      else if record.size.None? || IntOf(py, record.size.value).None? || record.sha256.None? then Err(MalformedRecord)
      else if |dir[name.t]| != IntOf(py, record.size.value).value then Err(WrongSize)
      else if sha(dir[name.t]) != TextOf(py, record.sha256.value) then Err(WrongHash)
      else Ok(())
  }

  /** The file of a required name is there with the recorded size and digest, under a record of its own name. */
  ghost predicate Intact(py: Python, sha: Sha, name: string, records: map<string, Record>, dir: Directory) {
    && SafeName(name) && name in dir && name in records && records[name].Record?
    && records[name].path == Some(Text(name))
    && records[name].size.Some? && IntOf(py, records[name].size.value) == Some(|dir[name]|)
    && records[name].sha256.Some? && TextOf(py, records[name].sha256.value) == sha(dir[name])
  }

  /** The first required name whose file is not intact. */
  ghost predicate FirstDamaged(py: Python, sha: Sha, required: seq<Json>, records: map<string, Record>, dir: Directory, i: int) {
    && 0 <= i < |required| && required[i].Text? && !Intact(py, sha, required[i].t, records, dir)
    && forall j :: 0 <= j < i ==> required[j].Text? && Intact(py, sha, required[j].t, records, dir)
  }

  /** What is reported about a name whose file is not intact. */
  ghost function Damage(py: Python, sha: Sha, name: string, records: map<string, Record>, dir: Directory): VerifyError {
    if !SafeName(name) then UnsafeArtifact
    else if name !in dir then MissingArtifact
    else if name !in records || records[name].NotARecord? then MalformedRecord
    else if records[name].path != Some(Text(name)) then WrongPath
    else if records[name].size.None? || IntOf(py, records[name].size.value).None? || records[name].sha256.None?
    then MalformedRecord
    else if IntOf(py, records[name].size.value) != Some(|dir[name]|) then WrongSize
    else WrongHash
  }

  /** The error is what is wrong with the first damaged file. */
  ghost predicate ReportsFirst(py: Python, sha: Sha, required: seq<Json>, records: map<string, Record>, dir: Directory,
                               e: VerifyError)
  {
    exists i :: FirstDamaged(py, sha, required, records, dir, i) && e == Damage(py, sha, required[i].t, records, dir)
  }

  /** What acceptance means. */
  ghost predicate Accepts(py: Python, sha: Sha, m: Document, dir: Directory, minimum: int, commit: string) {
    && FullSha(commit)
    && Header(py, m, minimum, Lower(commit)).Ok?
    && var (required, records) := Header(py, m, minimum, Lower(commit)).value;
       forall i :: 0 <= i < |required| ==> Intact(py, sha, required[i].t, records, dir)
  }

  /** `verify_release_manifest`. */
  method VerifyManifest(py: Python, sha: Sha, m: Document, dir: Directory, minimum: int, commit: string)
    returns (r: Result<(), VerifyError>)
    ensures r.Ok? <==> Accepts(py, sha, m, dir, minimum, commit)
    ensures r.Err? && FullSha(commit) && Header(py, m, minimum, Lower(commit)).Err? ==>
      r == Err(Header(py, m, minimum, Lower(commit)).error)
    ensures !FullSha(commit) ==> r == Err(WrongCommitArgument)
    ensures r.Err? && FullSha(commit) && Header(py, m, minimum, Lower(commit)).Ok? ==>
      var header := Header(py, m, minimum, Lower(commit)).value;
      ReportsFirst(py, sha, header.0, header.1, dir, r.error)
  {
    if !FullSha(commit) { return Err(WrongCommitArgument); }
    hide FullSha, Lower, SafeName, Intact, ReportsFirst;
    var header := CheckHeader(py, m, minimum, Lower(commit));
    if header.Err? { return Err(header.error); }
    hide Header;
    r := CheckFiles(py, sha, header.value.0, header.value.1, dir);
  }

  lemma CheckOneSays(py: Python, sha: Sha, name: Json, records: map<string, Record>, dir: Directory)
    requires name.Text? && name.t in records
    ensures CheckOne(py, sha, name, records, dir).Ok? <==> Intact(py, sha, name.t, records, dir)
    ensures CheckOne(py, sha, name, records, dir).Err? ==>
      CheckOne(py, sha, name, records, dir).error == Damage(py, sha, name.t, records, dir)
  {
    hide SafeName, IntOf, TextOf;
  }

  /** The loop over the required names. */
  method CheckFiles(py: Python, sha: Sha, required: seq<Json>, records: map<string, Record>, dir: Directory)
    returns (r: Result<(), VerifyError>)
    requires forall i :: 0 <= i < |required| ==> required[i].Text? && required[i].t in records
    ensures r.Ok? <==> forall i :: 0 <= i < |required| ==> Intact(py, sha, required[i].t, records, dir)
    ensures r.Err? ==> ReportsFirst(py, sha, required, records, dir, r.error)
  {
    hide Intact, CheckOne, Damage;
    for i := 0 to |required|
      invariant forall j :: 0 <= j < i ==> Intact(py, sha, required[j].t, records, dir)
    {
      var one := CheckOne(py, sha, required[i], records, dir);
      CheckOneSays(py, sha, required[i], records, dir);
      if one.Err? {
        assert FirstDamaged(py, sha, required, records, dir, i);
        return one;
      }
    }
    return Ok(());
  }

  method CheckHeader(py: Python, m: Document, minimum: int, expected: string)
    returns (r: Result<(seq<Json>, map<string, Record>), VerifyError>)
    ensures r == Header(py, m, minimum, expected)
    ensures r.Ok? ==> forall i :: 0 <= i < |r.value.0| ==> r.value.0[i].Text? && r.value.0[i].t in r.value.1
  {
    hide Lower, SameValue;
    if m.NotAnObject? { return Err(Crashed); }
    var schema := IntOf(py, Field(m.schemaVersion, Int(0)));
    if schema.None? { return Err(Crashed); }
    if schema.value != SCHEMA_VERSION { return Err(UnsupportedSchema); }
    if Lower(TextOf(py, Field(m.sourceCommit, Text("")))) != expected { return Err(WrongSource); }
    var sequence := IntOf(py, Field(m.releaseSequence, Int(-1)));
    if sequence.None? { return Err(Crashed); }
    if sequence.value < minimum { return Err(Rollback); }
    if m.requiredArtifacts.None? || !m.requiredArtifacts.value.List? { return Err(Malformed); }
    if m.artifacts.None? || m.artifacts.value.NotRecords? { return Err(Malformed); }
    var required, records := m.requiredArtifacts.value.items, m.artifacts.value.byName;
    if exists i :: 0 <= i < |required| && !Hashable(required[i]) { return Err(Crashed); }
    if exists i, j :: 0 <= i < j < |required| && SameValue(required[i], required[j]) { return Err(DuplicateNames); }
    if exists i :: 0 <= i < |required| && !(required[i].Text? && required[i].t in records) { return Err(Inconsistent); }
    if exists name :: name in records && Text(name) !in required { return Err(Inconsistent); }
    return Ok((required, records));
  }

  ghost predicate DistinctTexts(items: seq<Json>) {
    && (forall i :: 0 <= i < |items| ==> items[i].Text?)
    && (forall i, j :: 0 <= i < j < |items| ==> items[i] != items[j])
  }

  /** Of all JSON documents exactly these pass: schema 1, the expected commit in any letter case, a sequence not
      below the minimum, and a list of distinct texts that are exactly the names of the records. */
  lemma HeaderAcceptsExactly(py: Python, m: Document, minimum: int, expected: string)
    ensures Header(py, m, minimum, expected).Ok? <==>
      && m.Document?
      && IntOf(py, Field(m.schemaVersion, Int(0))) == Some(1)
      && Lower(TextOf(py, Field(m.sourceCommit, Text("")))) == expected
      && IntOf(py, Field(m.releaseSequence, Int(-1))).Some? && SequenceOf(py, m) >= minimum
      && m.requiredArtifacts.Some? && m.requiredArtifacts.value.List? && DistinctTexts(m.requiredArtifacts.value.items)
      && m.artifacts.Some? && m.artifacts.value.Records?
      && SameNames(m.requiredArtifacts.value.items, m.artifacts.value.byName)
  {
    hide Lower, IntOf, TextOf;
    if m.Document? && m.requiredArtifacts.Some? && m.requiredArtifacts.value.List? {
      RepeatsOfTexts(m.requiredArtifacts.value.items);
    }
    hide RepeatsValue;
  }

  /** Which refusal means what, in the order of the checks. */
  lemma HeaderRefusal(py: Python, m: Document, minimum: int, expected: string)
    requires m.Document?
    ensures var schema, source, sequence, r :=
        IntOf(py, Field(m.schemaVersion, Int(0))), Lower(TextOf(py, Field(m.sourceCommit, Text("")))),
        IntOf(py, Field(m.releaseSequence, Int(-1))), Header(py, m, minimum, expected);
      && (schema == None ==> r == Err(Crashed))
      && (r == Err(UnsupportedSchema) <==> schema.Some? && schema != Some(1))
      && (r == Err(WrongSource) <==> schema == Some(1) && source != expected)
      && (schema == Some(1) && source == expected && sequence == None ==> r == Err(Crashed))
      && (r == Err(Rollback) <==> schema == Some(1) && source == expected && sequence.Some? && sequence.value < minimum)
      && (schema == Some(1) && source == expected && sequence.Some? && sequence.value >= minimum ==>
            (r == Err(Malformed) <==>
               !(m.requiredArtifacts.Some? && m.requiredArtifacts.value.List?
                 && m.artifacts.Some? && m.artifacts.value.Records?)))
      && (r == Err(DuplicateNames) ==>
            && m.requiredArtifacts.Some? && m.requiredArtifacts.value.List?
            && RepeatsValue(m.requiredArtifacts.value.items))
      && (r == Err(Inconsistent) ==>
            && m.requiredArtifacts.Some? && m.requiredArtifacts.value.List? && !RepeatsValue(m.requiredArtifacts.value.items)
            && m.artifacts.Some? && m.artifacts.value.Records?
            && !SameNames(m.requiredArtifacts.value.items, m.artifacts.value.byName))
  {
    hide Lower, IntOf, TextOf, RepeatsValue, SameNames, Hashable;
  }

  lemma RepeatsOfTexts(items: seq<Json>)
    ensures (forall i :: 0 <= i < |items| ==> items[i].Text?) ==> (RepeatsValue(items) <==> !DistinctTexts(items))
  {
    if forall i :: 0 <= i < |items| ==> items[i].Text? {
      if !DistinctTexts(items) {
        var i, j :| 0 <= i < j < |items| && items[i] == items[j];
        assert SameValue(items[i], items[j]);
      }
    }
  }

  // ---- what the two together promise ------------------------------------------------------------------

  /** The directory the artifacts were taken from. */
  ghost predicate TakenFrom(artifacts: seq<Artifact>, dir: Directory) {
    forall i :: 0 <= i < |artifacts| ==> artifacts[i].name in dir && dir[artifacts[i].name] == artifacts[i].contents
  }

  lemma SortedNamesApart(required: seq<string>)
    requires NoRepeats(required)
    ensures NoRepeats(Sort(TextLe, required))
    ensures forall name :: name in Sort(TextLe, required) <==> name in required
  {
    SortKeepsMembers(TextLe, required);
    var sorted := Sort(TextLe, required);
    hide TextLe, Sort;
    forall i, j | 0 <= i < j < |sorted| ensures sorted[i] != sorted[j] {
      if sorted[i] == sorted[j] {
        NoRepeatsCountOne(required, sorted[i]);
        TwiceCounts(sorted, i, j);
      }
    }
  }

  lemma TextsApart(names: seq<string>)
    requires NoRepeats(names)
    ensures !RepeatsValue(Texts(names))
  {
    var texts := Texts(names);
    hide Texts;
    assert forall i, j :: 0 <= i < j < |texts| ==> texts[i] != texts[j];
  }

  lemma TextsMembers(names: seq<string>, name: string)
    ensures Text(name) in Texts(names) <==> name in names
  {
    if name in names {
      var i :| 0 <= i < |names| && names[i] == name;
      assert Texts(names)[i] == Text(name);
    }
  }

  lemma SortedTexts(required: seq<string>)
    requires NoRepeats(required)
    ensures !RepeatsValue(Texts(Sort(TextLe, required)))
    ensures forall name :: Text(name) in Texts(Sort(TextLe, required)) <==> name in required
  {
    hide TextLe, Sort, RepeatsValue, Texts;
    SortedNamesApart(required);
    TextsApart(Sort(TextLe, required));
    forall name ensures Text(name) in Texts(Sort(TextLe, required)) <==> name in required {
      TextsMembers(Sort(TextLe, required), name);
    }
  }

  lemma TwiceCounts<T>(s: seq<T>, i: nat, j: nat)
    requires i < j < |s| && s[i] == s[j]
    ensures multiset(s)[s[i]] >= 2
  {
    assert s == s[..j] + s[j..];
    assert s[..j][i] in s[..j] && s[j..][0] in s[j..];
    assert multiset(s) == multiset(s[..j]) + multiset(s[j..]);
  }

  lemma CreatedNames(sha: Sha, artifacts: seq<Artifact>, required: seq<string>, records: map<string, Record>)
    requires NoRepeats(required) && Describes(sha, artifacts, records)
    requires forall i :: 0 <= i < |artifacts| ==> artifacts[i].name in required
    requires forall name :: name in required ==> HasFile(artifacts, name)
    ensures SameNames(Texts(Sort(TextLe, required)), records)
  {
    SortedTexts(required);
    hide Sort, TextLe, RecordOf, RepeatsValue;
    var names := Texts(Sort(TextLe, required));
    forall i | 0 <= i < |names| ensures names[i].t in records {
      assert names[i] in names && names[i].t in required;
      var k :| 0 <= k < |artifacts| && artifacts[k].name == names[i].t;
    }
  }

  lemma CreatedHeader(py: Python, sha: Sha, commit: string, sequence: int, artifacts: seq<Artifact>,
                      required: seq<string>, m: Document, minimum: int, other: string)
    requires Created(sha, commit, sequence, artifacts, required, m)
    requires Lower(other) == Lower(commit) && minimum <= sequence
    ensures Header(py, m, minimum, Lower(other)) == Ok((Texts(Sort(TextLe, required)), m.artifacts.value.byName))
  {
    LowerTwice(commit);
    hide Lower, Sort, TextLe, SafeName, FullSha, RepeatsValue, Describes, SameNames, HasFile;
    SortedTexts(required);
    CreatedNames(sha, artifacts, required, m.artifacts.value.byName);
  }

  lemma CreatedNameStays(py: Python, sha: Sha, commit: string, sequence: int, artifacts: seq<Artifact>,
                         required: seq<string>, m: Document, dir: Directory, k: nat)
    requires Created(sha, commit, sequence, artifacts, required, m) && k < |artifacts|
    ensures Intact(py, sha, artifacts[k].name, m.artifacts.value.byName, dir) <==> StillThere(sha, artifacts[k], dir)
  {
    hide SafeName, FullSha, ManifestWith;
    assert artifacts[k].name in required;
  }

  /** The file is still there with its size and digest. */
  ghost predicate StillThere(sha: Sha, a: Artifact, dir: Directory) {
    a.name in dir && |dir[a.name]| == |a.contents| && sha(dir[a.name]) == sha(a.contents)
  }

  ghost predicate AllIntact(py: Python, sha: Sha, names: seq<Json>, records: map<string, Record>, dir: Directory)
    requires forall i :: 0 <= i < |names| ==> names[i].Text?
  {
    forall i :: 0 <= i < |names| ==> Intact(py, sha, names[i].t, records, dir)
  }

  lemma IntactExactly(py: Python, sha: Sha, commit: string, sequence: int, artifacts: seq<Artifact>,
                      required: seq<string>, m: Document, dir: Directory)
    requires Created(sha, commit, sequence, artifacts, required, m)
    ensures AllIntact(py, sha, Texts(Sort(TextLe, required)), m.artifacts.value.byName, dir) <==>
      forall k :: 0 <= k < |artifacts| ==> StillThere(sha, artifacts[k], dir)
  {
    SortedTexts(required);
    hide Sort, TextLe, SafeName, FullSha, Intact, ManifestWith, RepeatsValue, StillThere, Describes;
    var names, records := Texts(Sort(TextLe, required)), m.artifacts.value.byName;
    forall k | 0 <= k < |artifacts|
      ensures Intact(py, sha, artifacts[k].name, records, dir) <==> StillThere(sha, artifacts[k], dir)
    {
      CreatedNameStays(py, sha, commit, sequence, artifacts, required, m, dir, k);
    }
    if AllIntact(py, sha, names, records, dir) {
      forall k | 0 <= k < |artifacts| ensures StillThere(sha, artifacts[k], dir) {
        assert Text(artifacts[k].name) in names;
        var i :| 0 <= i < |names| && names[i] == Text(artifacts[k].name);
      }
    }
    if forall k :: 0 <= k < |artifacts| ==> StillThere(sha, artifacts[k], dir) {
      forall i | 0 <= i < |names| ensures Intact(py, sha, names[i].t, records, dir) {
        assert names[i] in names && HasFile(artifacts, names[i].t);
        var k :| 0 <= k < |artifacts| && artifacts[k].name == names[i].t;
      }
    }
  }

  /** Verification of a created manifest decides exactly whether every listed file still has its size and
      digest: for the same commit in any letter case, for any minimum up to its sequence, for any directory. */
  lemma CreatedAcceptsExactly(py: Python, sha: Sha, commit: string, sequence: int, artifacts: seq<Artifact>,
                              required: seq<string>, m: Document, dir: Directory, minimum: int, other: string)
    requires Created(sha, commit, sequence, artifacts, required, m)
    requires FullSha(other) && Lower(other) == Lower(commit) && minimum <= sequence
    ensures Accepts(py, sha, m, dir, minimum, other) <==>
      forall k :: 0 <= k < |artifacts| ==> StillThere(sha, artifacts[k], dir)
  {
    hide Lower, Sort, TextLe, FullSha, Header, Intact, ManifestWith, StillThere, Describes, Creatable;
    CreatedHeader(py, sha, commit, sequence, artifacts, required, m, minimum, other);
    IntactExactly(py, sha, commit, sequence, artifacts, required, m, dir);
  }

  ghost predicate NoCollision(sha: Sha, a: Artifact, dir: Directory) {
    a.name in dir && sha(dir[a.name]) == sha(a.contents) ==> dir[a.name] == a.contents
  }

  /** Round trip: what creation accepts verifies against the unchanged directory. */
  lemma CreatedVerifies(py: Python, sha: Sha, commit: string, sequence: int, artifacts: seq<Artifact>,
                        required: seq<string>, m: Document, dir: Directory, minimum: int, other: string)
    requires Created(sha, commit, sequence, artifacts, required, m) && TakenFrom(artifacts, dir)
    requires FullSha(other) && Lower(other) == Lower(commit) && minimum <= sequence
    ensures Accepts(py, sha, m, dir, minimum, other)
  {
    hide Created, FullSha, Lower, Accepts;
    CreatedAcceptsExactly(py, sha, commit, sequence, artifacts, required, m, dir, minimum, other);
  }

  /** If no file in the directory collides with the original of its name, a created manifest accepts the directory
      exactly when every listed file is byte for byte the original. */
  lemma OnlyTheOriginalsVerify(py: Python, sha: Sha, commit: string, sequence: int, artifacts: seq<Artifact>,
                               required: seq<string>, m: Document, dir: Directory, minimum: int, other: string)
    requires forall k :: 0 <= k < |artifacts| ==> NoCollision(sha, artifacts[k], dir)
    requires Created(sha, commit, sequence, artifacts, required, m)
    requires FullSha(other) && Lower(other) == Lower(commit) && minimum <= sequence
    ensures Accepts(py, sha, m, dir, minimum, other) <==> TakenFrom(artifacts, dir)
  {
    hide Created, FullSha, Lower, Accepts;
    CreatedAcceptsExactly(py, sha, commit, sequence, artifacts, required, m, dir, minimum, other);
  }

  /** A created manifest is refused for any other commit and for any minimum above its sequence. */
  lemma CreatedRefused(py: Python, sha: Sha, commit: string, sequence: int, artifacts: seq<Artifact>,
                       required: seq<string>, m: Document, dir: Directory, minimum: int, other: string)
    requires Created(sha, commit, sequence, artifacts, required, m)
    requires Lower(other) != Lower(commit) || minimum > sequence
    ensures !Accepts(py, sha, m, dir, minimum, other)
  {
    LowerTwice(commit);
    hide Lower, Sort, TextLe, Creatable, FullSha, Describes, Intact;
  }

  // ---- runs of verifications --------------------------------------------------------------------------

  /** One update attempt: a manifest, the files that came with it, and the commit asked for. */
  datatype Attempt = Attempt(m: Document, dir: Directory, commit: string)

  function SequenceOf(py: Python, m: Document): int {
    if m.NotAnObject? then -1
    else
      var sequence := IntOf(py, Field(m.releaseSequence, Int(-1)));
      if sequence.Some? then sequence.value else -1
  }

  /** The minimum in force before attempt `i`, when each acceptance raises it to the accepted sequence. */
  ghost function MinimumAt(py: Python, sha: Sha, start: int, attempts: seq<Attempt>, i: nat): int
    requires i <= |attempts|
    decreases i
  {
    if i == 0 then start
    else
      var minimum, a := MinimumAt(py, sha, start, attempts, i - 1), attempts[i - 1];
      if Accepts(py, sha, a.m, a.dir, minimum, a.commit) then SequenceOf(py, a.m) else minimum
  }

  ghost predicate AcceptedAt(py: Python, sha: Sha, start: int, attempts: seq<Attempt>, i: nat)
    requires i < |attempts|
  {
    Accepts(py, sha, attempts[i].m, attempts[i].dir, MinimumAt(py, sha, start, attempts, i), attempts[i].commit)
  }

  lemma AcceptedIsNoRollback(py: Python, sha: Sha, m: Document, dir: Directory, minimum: int, commit: string)
    requires Accepts(py, sha, m, dir, minimum, commit)
    ensures minimum <= SequenceOf(py, m)
  {
    hide Lower, FullSha, SameNames, RepeatsValue, Intact, Hashable;
  }

  lemma {:induction false} MinimumNeverFalls(py: Python, sha: Sha, start: int, attempts: seq<Attempt>, i: nat, j: nat)
    requires i <= j <= |attempts|
    ensures MinimumAt(py, sha, start, attempts, i) <= MinimumAt(py, sha, start, attempts, j)
    decreases j
  {
    hide Accepts, SequenceOf;
    if i < j {
      MinimumNeverFalls(py, sha, start, attempts, i, j - 1);
      var minimum, a := MinimumAt(py, sha, start, attempts, j - 1), attempts[j - 1];
      if Accepts(py, sha, a.m, a.dir, minimum, a.commit) {
        AcceptedIsNoRollback(py, sha, a.m, a.dir, minimum, a.commit);
      }
    }
  }

  /** Over any run of attempts, accepted sequences never go down. */
  lemma NoRollbackOverRuns(py: Python, sha: Sha, start: int, attempts: seq<Attempt>, i: nat, j: nat)
    requires i < j < |attempts|
    requires AcceptedAt(py, sha, start, attempts, i) && AcceptedAt(py, sha, start, attempts, j)
    ensures start <= SequenceOf(py, attempts[i].m) <= SequenceOf(py, attempts[j].m)
  {
    hide Accepts, SequenceOf;
    MinimumNeverFalls(py, sha, start, attempts, 0, i);
    AcceptedIsNoRollback(py, sha, attempts[i].m, attempts[i].dir, MinimumAt(py, sha, start, attempts, i), attempts[i].commit);
    MinimumNeverFalls(py, sha, start, attempts, i + 1, j);
    AcceptedIsNoRollback(py, sha, attempts[j].m, attempts[j].dir, MinimumAt(py, sha, start, attempts, j), attempts[j].commit);
  }
}
