/** The production-readiness document: its producer `tools/production_release.py`, its validator
    `tools/production_readiness.py`, and the signing receipt of `tools/platform_signing.py`.
    JSON text that is only ever compared with fixed words is classified by those words. */
module Readiness {
  import opened Base
  import opened Characters

  datatype Workflow = CI | Conformance | BrowserCompatibility | AiActor | ChaosLab | SupplyChain | ProductionHardening

  /** The required workflows in the program's order. */
  const REQUIRED: seq<Workflow> :=
    [CI, Conformance, BrowserCompatibility, AiActor, ChaosLab, SupplyChain, ProductionHardening]

  function WorkflowName(w: Workflow): string {
    match w
    case CI => "CI"
    case Conformance => "Conformance"
    case BrowserCompatibility => "Browser Compatibility"
    case AiActor => "Phase 42 AI Actor"
    case ChaosLab => "Phase 43 Chaos Lab"
    case SupplyChain => "Phase 44 Supply Chain"
    case ProductionHardening => "Phase 45 Production Hardening"
  }

  const GITHUB := "https://github.com/"

  predicate LowerSha(s: string) { |s| == 40 && forall i :: 0 <= i < |s| ==> LowerHexDigit(s[i]) }

  predicate GithubUrl(url: Option<string>) { url.Some? && GITHUB <= url.value }

  // ---- main-branch proof ----------------------------------------------------------------------------

  /** One entry of the workflow list; `None` stands for a missing or different value. */
  datatype ProofItem =
    | NotAnObject
    | RunItem(workflow: Option<Workflow>, push: bool, headSha: Option<string>, success: bool, url: Option<string>)

  datatype ReleaseError =
    | BadCommit | NotAList | LacksUrl(workflow: Workflow) | NotProven(missing: seq<Workflow>) | BadReleaseUrl

  /** A successful push run of a required workflow on exactly this commit. */
  predicate Qualifies(item: ProofItem, commit: string) {
    item.RunItem? && item.workflow.Some? && item.push && item.headSha == Some(commit) && item.success
  }

  predicate QualifiesFor(item: ProofItem, commit: string, w: Workflow) {
    Qualifies(item, commit) && item.workflow == Some(w)
  }

  ghost predicate HasProof(proof: seq<ProofItem>, commit: string, w: Workflow) {
    exists i :: 0 <= i < |proof| && QualifiesFor(proof[i], commit, w)
  }

  ghost predicate Proven(proof: seq<ProofItem>, commit: string) {
    && (forall i :: 0 <= i < |proof| && Qualifies(proof[i], commit) ==> GithubUrl(proof[i].url))
    && (forall w: Workflow :: HasProof(proof, commit, w))
  }

  /** The position of the last qualifying entry for a workflow. */
  ghost predicate LastFor(proof: seq<ProofItem>, commit: string, w: Workflow, k: int) {
    && 0 <= k < |proof| && QualifiesFor(proof[k], commit, w)
    && forall j :: k < j < |proof| ==> !QualifiesFor(proof[j], commit, w)
  }

  ghost predicate SelectsLast(proof: seq<ProofItem>, commit: string, selected: map<Workflow, string>) {
    forall w :: w in selected ==> exists k :: LastFor(proof, commit, w, k) && proof[k].url == Some(selected[w])
  }

  /** The first qualifying entry that lacks a GitHub URL. */
  ghost predicate FirstWithoutUrl(proof: seq<ProofItem>, commit: string, k: int) {
    && 0 <= k < |proof| && Qualifies(proof[k], commit) && !GithubUrl(proof[k].url)
    && forall j :: 0 <= j < k && Qualifies(proof[j], commit) ==> GithubUrl(proof[j].url)
  }

  /** The list holds a push run of the workflow on this commit that succeeded, with this GitHub URL. */
  ghost predicate SucceededOn(proof: seq<ProofItem>, commit: string, w: Workflow, url: string) {
    RunItem(Some(w), true, Some(commit), true, Some(url)) in proof && "https://github.com/" <= url
  }

  /** A required workflow is proven exactly when some push run of it on this commit succeeded. */
  lemma ProofIs(proof: seq<ProofItem>, commit: string, w: Workflow)
    ensures HasProof(proof, commit, w) <==> exists url :: RunItem(Some(w), true, Some(commit), true, url) in proof
  {
    if HasProof(proof, commit, w) {
      var i :| 0 <= i < |proof| && QualifiesFor(proof[i], commit, w);
      assert proof[i] == RunItem(Some(w), true, Some(commit), true, proof[i].url);
      assert proof[i] in proof;
    }
    if url :| RunItem(Some(w), true, Some(commit), true, url) in proof {
      var i :| 0 <= i < |proof| && proof[i] == RunItem(Some(w), true, Some(commit), true, url);
      assert QualifiesFor(proof[i], commit, w);
    }
  }

  lemma SelectedSucceeded(proof: seq<ProofItem>, commit: string, selected: map<Workflow, string>)
    requires SelectsLast(proof, commit, selected) && Proven(proof, commit)
    ensures forall w :: w in selected ==> SucceededOn(proof, commit, w, selected[w])
  {
    forall w | w in selected ensures SucceededOn(proof, commit, w, selected[w]) {
      var k :| LastFor(proof, commit, w, k) && proof[k].url == Some(selected[w]);
      assert proof[k] == RunItem(Some(w), true, Some(commit), true, Some(selected[w]));
      assert proof[k] in proof && GithubUrl(proof[k].url);
    }
  }

  lemma ShaIs(s: string)
    ensures LowerSha(s) <==> |s| == 40 && forall c :: c in s ==> c in "0123456789abcdef"
  {
    forall c ensures LowerHexDigit(c) <==> c in HEX { HexDigitsAre(c); }
    hide LowerHexDigit;
    assert forall i :: 0 <= i < |s| ==> s[i] in s;
  }

  method ValidateMainProof(proof: Option<seq<ProofItem>>, commit: string)
    returns (r: Result<map<Workflow, string>, ReleaseError>)
    ensures r.Ok? <==> LowerSha(commit) && proof.Some? && Proven(proof.value, commit)
    ensures r.Ok? ==> (forall w: Workflow :: w in r.value) && SelectsLast(proof.value, commit, r.value)
    ensures r.Ok? ==> forall w: Workflow :: SucceededOn(proof.value, commit, w, r.value[w])
    ensures r == Err(NotAList) <==> LowerSha(commit) && proof.None?
    ensures r != Err(BadReleaseUrl)
    ensures r.Err? && r.error.NotProven? ==>
      proof.Some? && forall w :: w in r.error.missing <==> !HasProof(proof.value, commit, w)
    ensures r.Err? && r.error.LacksUrl? ==>
      proof.Some? && exists k :: FirstWithoutUrl(proof.value, commit, k) && proof.value[k].workflow == Some(r.error.workflow)
    ensures r == Err(BadCommit) <==> !LowerSha(commit)
  {
    if !LowerSha(commit) { return Err(BadCommit); }
    if proof.None? { return Err(NotAList); }
    hide LowerSha;
    var items := proof.value;
    var selected: map<Workflow, string> := map[];
    for i := 0 to |items|
      invariant forall j :: 0 <= j < i && Qualifies(items[j], commit) ==> GithubUrl(items[j].url)
      invariant forall w :: w in selected <==> HasProof(items[..i], commit, w)
      invariant SelectsLast(items[..i], commit, selected)
    {
      var item := items[i];
      ProofGrows(items, i, commit);
      if Qualifies(item, commit) {
        if !GithubUrl(item.url) {
          assert FirstWithoutUrl(items, commit, i);
          return Err(LacksUrl(item.workflow.value));
        }
        SelectOne(items, i, commit, selected);
        selected := selected[item.workflow.value := item.url.value];
      } else {
        SkipOne(items, i, commit, selected);
      }
    }
    assert items[..|items|] == items;
    var missing := MissingOf(selected);
    if missing != [] {
      assert missing[0] in missing && !HasProof(items, commit, missing[0]);
      return Err(NotProven(missing));
    }
    SelectedSucceeded(items, commit, selected);
    return Ok(selected);
  }

  lemma ProofGrows(items: seq<ProofItem>, i: nat, commit: string)
    requires i < |items|
    ensures forall w :: HasProof(items[..i + 1], commit, w) <==>
      HasProof(items[..i], commit, w) || QualifiesFor(items[i], commit, w)
  {
    var before, now := items[..i], items[..i + 1];
    assert forall j :: 0 <= j < i ==> before[j] == now[j];
    assert now[i] == items[i];
    forall w | HasProof(now, commit, w) ensures HasProof(before, commit, w) || QualifiesFor(items[i], commit, w) {
      var j :| 0 <= j < |now| && QualifiesFor(now[j], commit, w);
      if j < i { assert QualifiesFor(before[j], commit, w); }
    }
    forall w | HasProof(before, commit, w) ensures HasProof(now, commit, w) {
      var j :| 0 <= j < |before| && QualifiesFor(before[j], commit, w);
      assert QualifiesFor(now[j], commit, w);
    }
  }

  lemma AllRequired(w: Workflow)
    ensures w in REQUIRED
  {
    assert REQUIRED[0] == CI && REQUIRED[1] == Conformance && REQUIRED[2] == BrowserCompatibility;
    assert REQUIRED[3] == AiActor && REQUIRED[4] == ChaosLab && REQUIRED[5] == SupplyChain;
    assert REQUIRED[6] == ProductionHardening;
  }

  method MissingOf(selected: map<Workflow, string>) returns (missing: seq<Workflow>)
    ensures forall w :: w in missing <==> w !in selected
  {
    missing := [];
    for i := 0 to |REQUIRED|
      invariant forall w :: w in missing <==> w in REQUIRED[..i] && w !in selected
    {
      if REQUIRED[i] !in selected { missing := missing + [REQUIRED[i]]; }
    }
    forall w: Workflow ensures w in REQUIRED[..|REQUIRED|] { AllRequired(w); assert REQUIRED[..|REQUIRED|] == REQUIRED; }
  }

  lemma SkipOne(items: seq<ProofItem>, i: nat, commit: string, selected: map<Workflow, string>)
    requires i < |items| && !Qualifies(items[i], commit) && SelectsLast(items[..i], commit, selected)
    ensures SelectsLast(items[..i + 1], commit, selected)
  {
    var before, now := items[..i], items[..i + 1];
    forall w | w in selected ensures exists k :: LastFor(now, commit, w, k) && now[k].url == Some(selected[w]) {
      var k :| LastFor(before, commit, w, k) && before[k].url == Some(selected[w]);
      assert now[k] == before[k];
      assert LastFor(now, commit, w, k) by {
        assert forall j :: k < j < i ==> now[j] == before[j];
      }
    }
  }

  lemma SelectOne(items: seq<ProofItem>, i: nat, commit: string, selected: map<Workflow, string>)
    requires i < |items| && Qualifies(items[i], commit) && GithubUrl(items[i].url)
    requires SelectsLast(items[..i], commit, selected)
    ensures SelectsLast(items[..i + 1], commit, selected[items[i].workflow.value := items[i].url.value])
  {
    var before, now, mine := items[..i], items[..i + 1], items[i].workflow.value;
    var selected' := selected[mine := items[i].url.value];
    forall w | w in selected' ensures exists k :: LastFor(now, commit, w, k) && now[k].url == Some(selected'[w]) {
      if w == mine {
        assert LastFor(now, commit, w, i);
      } else {
        var k :| LastFor(before, commit, w, k) && before[k].url == Some(selected[w]);
        assert now[k] == before[k];
        assert LastFor(now, commit, w, k) by {
          assert forall j :: k < j < i ==> now[j] == before[j];
        }
      }
    }
  }

  /** The verdict depends only on which qualifying entries occur: not on their order or repetition, nor on any
      other entry. */
  lemma VerdictSeesOnlyQualifying(p: seq<ProofItem>, q: seq<ProofItem>, commit: string)
    requires forall item :: Qualifies(item, commit) ==> (item in p <==> item in q)
    ensures Proven(p, commit) <==> Proven(q, commit)
  {
    if Proven(p, commit) { StillProven(p, q, commit); }
    if Proven(q, commit) { StillProven(q, p, commit); }
  }

  lemma StillProven(p: seq<ProofItem>, q: seq<ProofItem>, commit: string)
    requires forall item :: Qualifies(item, commit) ==> (item in p <==> item in q)
    requires Proven(p, commit)
    ensures Proven(q, commit)
  {
    forall w: Workflow ensures HasProof(q, commit, w) {
      assert HasProof(p, commit, w);
      var i :| 0 <= i < |p| && QualifiesFor(p[i], commit, w);
      assert p[i] in q;
      var j :| 0 <= j < |q| && q[j] == p[i];
    }
    forall j | 0 <= j < |q| && Qualifies(q[j], commit) ensures GithubUrl(q[j].url) {
      assert q[j] in p;
      var i :| 0 <= i < |p| && p[i] == q[j];
    }
  }

  // ---- the document ---------------------------------------------------------------------------------

  datatype Gate =
    | Security | DataSafety | Compatibility | ConformanceGate | CriticalChaos | PublicContract
    | Performance | Metrics | Diagnostics | TelemetryPrivacy | ProductionRuntime | PlatformSigning

  const CANDIDATE_REQUIRED: seq<Gate> :=
    [Security, DataSafety, Compatibility, ConformanceGate, CriticalChaos, PublicContract]
  const ALL_GATES: seq<Gate> :=
    CANDIDATE_REQUIRED + [Performance, Metrics, Diagnostics, TelemetryPrivacy, ProductionRuntime, PlatformSigning]

  datatype GateStatus = Pass | Fail | NotRun | OtherStatus
  datatype GateRecord = Record(status: GateStatus, evidence: Option<string>) | NotARecord
  datatype Profile = Development | Test | Staging | Production | OtherProfile
  datatype Claim = Candidate | ProductionClaim | OtherClaim
  datatype Gates = Gates(records: map<Gate, GateRecord>, unknownNames: bool) | NotGates

  /** `None` and the `Other` values stand for a missing or different JSON value. */
  datatype Document = Document(schemaIsCurrent: bool, commit: Option<string>, profile: Profile, claim: Claim, gates: Gates)

  lemma AllGates(g: Gate)
    ensures g in ALL_GATES
  {
    assert ALL_GATES[0] == Security && ALL_GATES[1] == DataSafety && ALL_GATES[2] == Compatibility;
    assert ALL_GATES[3] == ConformanceGate && ALL_GATES[4] == CriticalChaos && ALL_GATES[5] == PublicContract;
    assert ALL_GATES[6] == Performance && ALL_GATES[7] == Metrics && ALL_GATES[8] == Diagnostics;
    assert ALL_GATES[9] == TelemetryPrivacy && ALL_GATES[10] == ProductionRuntime && ALL_GATES[11] == PlatformSigning;
  }

  // ---- the producer ---------------------------------------------------------------------------------

  /** The fixed wording of the platform-signing evidence, up to the URL. */
  const LIVE := LIVE_NATIVE + VERIFICATION + RELEASE
  const LIVE_NATIVE := "live-native-platform-"
  const VERIFICATION := "verification-required; "
  const RELEASE := "release_workflow="

  function Refs(selected: map<Workflow, string>, ws: seq<Workflow>): string
    requires forall w: Workflow :: w in selected
  {
    if ws == [] then ""
    else
      WorkflowName(ws[0]) + "=" + selected[ws[0]] + if |ws| == 1 then "" else "; " + Refs(selected, ws[1..])
  }

  function Evidence(selected: map<Workflow, string>, ws: seq<Workflow>): string
    requires forall w: Workflow :: w in selected
  {
    "exact-main-success; " + Refs(selected, ws)
  }

  /** Which workflows prove which gate. */
  function Provers(g: Gate): seq<Workflow> {
    match g
    case Security => [CI, ProductionHardening]
    case Compatibility => [BrowserCompatibility, Conformance, CI]
    case ConformanceGate => [Conformance]
    case CriticalChaos => [ChaosLab]
    case PublicContract => [CI, Conformance]
    case ProductionRuntime => [SupplyChain, ProductionHardening]
    case PlatformSigning => []
    case _ => [ProductionHardening]
  }

  function GateEvidence(selected: map<Workflow, string>, releaseUrl: string, g: Gate): string
    requires forall w: Workflow :: w in selected
  {
    if g.PlatformSigning? then LIVE + releaseUrl else Evidence(selected, Provers(g))
  }

  /** Which gates a workflow stands for. The AI actor workflow is required but stands for none. */
  lemma ProversAre(g: Gate)
    ensures CI in Provers(g) <==> g in {Security, Compatibility, PublicContract}
    ensures Conformance in Provers(g) <==> g in {Compatibility, ConformanceGate, PublicContract}
    ensures BrowserCompatibility in Provers(g) <==> g == Compatibility
    ensures AiActor !in Provers(g)
    ensures ChaosLab in Provers(g) <==> g == CriticalChaos
    ensures SupplyChain in Provers(g) <==> g == ProductionRuntime
    ensures ProductionHardening in Provers(g) <==>
      g in {Security, DataSafety, Performance, Metrics, Diagnostics, TelemetryPrivacy, ProductionRuntime}
  {
  }

  ghost function Ref(name: string, url: string): string { name + "=" + url }

  /** The evidence as it reads. */
  lemma EvidenceReads(selected: map<Workflow, string>, releaseUrl: string)
    requires forall w: Workflow :: w in selected
    ensures GateEvidence(selected, releaseUrl, Security) == "exact-main-success; "
      + (Ref("CI", selected[CI]) + ("; " + Ref("Phase 45 Production Hardening", selected[ProductionHardening])))
    ensures GateEvidence(selected, releaseUrl, Compatibility) == "exact-main-success; "
      + (Ref("Browser Compatibility", selected[BrowserCompatibility]) + ("; "
      + (Ref("Conformance", selected[Conformance]) + ("; " + Ref("CI", selected[CI])))))
    ensures GateEvidence(selected, releaseUrl, ConformanceGate) == "exact-main-success; "
      + Ref("Conformance", selected[Conformance])
    ensures GateEvidence(selected, releaseUrl, CriticalChaos) == "exact-main-success; "
      + Ref("Phase 43 Chaos Lab", selected[ChaosLab])
    ensures GateEvidence(selected, releaseUrl, PublicContract) == "exact-main-success; "
      + (Ref("CI", selected[CI]) + ("; " + Ref("Conformance", selected[Conformance])))
    ensures GateEvidence(selected, releaseUrl, ProductionRuntime) == "exact-main-success; "
      + (Ref("Phase 44 Supply Chain", selected[SupplyChain]) + ("; "
      + Ref("Phase 45 Production Hardening", selected[ProductionHardening])))
    ensures forall g :: g in {DataSafety, Performance, Metrics, Diagnostics, TelemetryPrivacy} ==>
      GateEvidence(selected, releaseUrl, g) ==
      "exact-main-success; " + Ref("Phase 45 Production Hardening", selected[ProductionHardening])
  {
    OneRef(selected, ProductionHardening);
    OneRef(selected, Conformance);
    OneRef(selected, ChaosLab);
    OneRef(selected, CI);
    MoreRefs(selected, CI, [ProductionHardening]);
    MoreRefs(selected, CI, [Conformance]);
    MoreRefs(selected, SupplyChain, [ProductionHardening]);
    MoreRefs(selected, Conformance, [CI]);
    MoreRefs(selected, BrowserCompatibility, [Conformance, CI]);
    hide Refs, Ref;
    assert [CI] + [ProductionHardening] == [CI, ProductionHardening] && [CI] + [Conformance] == [CI, Conformance];
    assert [SupplyChain] + [ProductionHardening] == [SupplyChain, ProductionHardening];
    assert [Conformance] + [CI] == [Conformance, CI];
    assert [BrowserCompatibility] + [Conformance, CI] == [BrowserCompatibility, Conformance, CI];
  }

  lemma OneRef(selected: map<Workflow, string>, w: Workflow)
    requires forall w: Workflow :: w in selected
    ensures Refs(selected, [w]) == Ref(WorkflowName(w), selected[w])
  {
    assert Refs(selected, [w]) == Ref(WorkflowName(w), selected[w]) + "";
  }

  lemma MoreRefs(selected: map<Workflow, string>, w: Workflow, ws: seq<Workflow>)
    requires ws != [] && forall w: Workflow :: w in selected
    ensures Refs(selected, [w] + ws) == Ref(WorkflowName(w), selected[w]) + ("; " + Refs(selected, ws))
  {
    assert ([w] + ws)[1..] == ws;
  }

  method BuildReadiness(proof: Option<seq<ProofItem>>, commit: string, releaseUrl: string)
    returns (r: Result<Document, ReleaseError>)
    ensures r.Ok? <==> LowerSha(commit) && proof.Some? && Proven(proof.value, commit) && GITHUB <= releaseUrl
    ensures r.Ok? ==> Built(r.value, proof.value, commit, releaseUrl)
    ensures r == Err(BadReleaseUrl) <==>
      LowerSha(commit) && proof.Some? && Proven(proof.value, commit) && !("https://github.com/" <= releaseUrl)
  {
    var selected :- ValidateMainProof(proof, commit);
    if !(GITHUB <= releaseUrl) { return Err(BadReleaseUrl); }
    var records := map g | g in ALL_GATES :: Record(Pass, Some(GateEvidence(selected, releaseUrl, g)));
    forall g: Gate ensures g in records { AllGates(g); }
    hide GateEvidence;
    return Ok(Document(true, Some(commit), Production, ProductionClaim, Gates(records, false)));
  }

  /** A document as the producer makes it. */
  ghost predicate Built(d: Document, proof: seq<ProofItem>, commit: string, releaseUrl: string) {
    && LowerSha(commit)
    && d.schemaIsCurrent && d.commit == Some(commit) && d.profile.Production? && d.claim.ProductionClaim?
    && d.gates.Gates? && !d.gates.unknownNames
    && exists selected: map<Workflow, string> ::
         && (forall w: Workflow :: w in selected)
         && SelectsLast(proof, commit, selected)
         && forall g: Gate :: g in d.gates.records
              && d.gates.records[g] == Record(Pass, Some(GateEvidence(selected, releaseUrl, g)))
  }

  // ---- the signing receipt --------------------------------------------------------------------------


  datatype Platform = WindowsAuthenticode | MacosCodesign | LinuxOpenpgp

  /** What the validator reads of a receipt. */
  datatype Receipt = Receipt(
    schemaIsCurrent: bool, verified: bool, commit: Option<string>, digest: Option<string>,
    identity: Option<string>, verifier: Option<string>, platform: Option<Platform>)

  /** What the platform's own verifier printed, or `None` where it failed or was not there. */
  datatype Native =
    | OpenPgp(validSigs: Option<seq<string>>)
    | Codesign(team: Option<string>)
    | Authenticode(thumbprint: Option<string>)
    | UnsupportedMode

  datatype SigningError =
    | UnsupportedPlatform | BadSourceCommit | NoArtifact | VerifierFailed | EmptyFingerprint | NotHex
    | NotExactlyOneSignature | SignerMismatch

  predicate Separator(c: char) { c == ':' || c == '-' || Whitespace(c) }

  function Squeeze(s: string): string {
    if s == "" then ""
    else (if Separator(s[0]) then "" else [s[0]]) + Squeeze(s[1..])
  }

  function NormalizeFingerprint(s: string): Result<string, SigningError> {
    var kept := Squeeze(s);
    if kept == "" then Err(EmptyFingerprint)
    else if exists i :: 0 <= i < |kept| && !HexDigit(kept[i]) then Err(NotHex)
    else Ok(Upper(kept))
  }

  lemma {:induction false} SqueezeSplits(a: string, b: string)
    ensures Squeeze(a + b) == Squeeze(a) + Squeeze(b)
  {
    if a == "" {
      assert a + b == b;
    } else {
      assert (a + b)[1..] == a[1..] + b;
      SqueezeSplits(a[1..], b);
    }
  }

  lemma {:induction false} SqueezeKeeps(s: string, c: char)
    ensures c in Squeeze(s) <==> c in s && c != ':' && c != '-' && c as int !in SPACES
  {
    SpacesAre(c);
    hide Whitespace, SPACES;
    if s != "" {
      SqueezeKeeps(s[1..], c);
      assert c in s <==> c == s[0] || c in s[1..];
    }
  }

  /** A separator anywhere in a fingerprint makes no difference. */
  lemma SeparatorsAreIgnored(a: string, c: char, b: string)
    requires c == ':' || c == '-' || c as int in SPACES
    ensures NormalizeFingerprint(a + [c] + b) == NormalizeFingerprint(a + b)
  {
    SpacesAre(c);
    SqueezeSplits(a + [c], b);
    SqueezeSplits(a, [c]);
    SqueezeSplits(a, b);
    assert Squeeze([c]) == "" && Squeeze(a) + "" == Squeeze(a);
  }

  lemma {:induction false} SqueezeUpper(s: string)
    ensures Squeeze(Upper(s)) == Upper(Squeeze(s))
  {
    if s != "" {
      SqueezeUpper(s[1..]);
      assert Upper(s) == [UpperChar(s[0])] + Upper(s[1..]);
      assert Separator(UpperChar(s[0])) <==> Separator(s[0]) by { CasesAre(s[0]); SpacesAre(s[0]); SpacesAre(UpperChar(s[0])); }
      hide Whitespace;
      UpperConcat([s[0]], Squeeze(s[1..]));
    }
  }

  lemma UpperConcat(a: string, b: string)
    ensures Upper(a + b) == Upper(a) + Upper(b)
  {
  }

  ghost predicate Separates(c: char) { c == ':' || c == '-' || c as int in SPACES }

  /** A fingerprint is accepted exactly when something is left without its separators and all of it is hexadecimal. */
  lemma FingerprintIs(s: string)
    ensures NormalizeFingerprint(s) == Err(EmptyFingerprint) <==> forall c :: c in s ==> Separates(c)
    ensures NormalizeFingerprint(s).Ok? <==>
      && (exists c :: c in s && !Separates(c))
      && (forall c :: c in s ==> Separates(c) || c in "0123456789abcdef" || c in "ABCDEF")
    ensures NormalizeFingerprint(s).Err? ==> NormalizeFingerprint(s).error in {EmptyFingerprint, NotHex}
  {
    var kept := Squeeze(s);
    forall c ensures c in kept <==> c in s && !Separates(c) { SqueezeKeeps(s, c); }
    forall c ensures HexDigit(c) <==> c in HEX || c in "ABCDEF" { HexDigitsAre(c); }
    hide HexDigit, UpperChar, Squeeze, Separates, Upper;
    if kept != "" { assert kept[0] in kept; }
    assert forall i :: 0 <= i < |kept| ==> kept[i] in kept;
  }

  /** Letter case makes no difference, and what is accepted comes back in capitals. */
  lemma CaseIsIgnored(s: string)
    ensures NormalizeFingerprint(Upper(s)) == NormalizeFingerprint(s)
    ensures NormalizeFingerprint(s).Ok? ==> Upper(NormalizeFingerprint(s).value) == NormalizeFingerprint(s).value
  {
    var kept := Squeeze(s);
    SqueezeUpper(s);
    UpperTwice(kept);
    forall i | 0 <= i < |kept| ensures HexDigit(Upper(kept)[i]) <==> HexDigit(kept[i]) {}
    hide HexDigit, UpperChar, Squeeze;
  }

  lemma UpperTwice(s: string)
    ensures Upper(Upper(s)) == Upper(s)
  {
    assert forall i :: 0 <= i < |s| ==> Upper(Upper(s))[i] == Upper(s)[i];
  }

  lemma FingerprintIsNotBlank(s: string)
    requires NormalizeFingerprint(s).Ok?
    ensures !Blank(NormalizeFingerprint(s).value)
  {
    var kept := Squeeze(s);
    assert HexDigit(kept[0]);
    assert Upper(kept)[0] == UpperChar(kept[0]);
    assert !Whitespace(Upper(kept)[0]);
  }

  /** The identity the native verifier vouches for, where it vouches for exactly one. */
  function NativeIdentity(native: Native): Result<string, SigningError> {
    match native
    case OpenPgp(Some(sigs)) =>
      if |sigs| != 1 then Err(NotExactlyOneSignature) else NormalizeFingerprint(sigs[0])
    case Codesign(Some(team)) => Ok(Strip(team))
    case Authenticode(Some(thumbprint)) => NormalizeFingerprint(Strip(thumbprint))
    case UnsupportedMode => Err(UnsupportedPlatform)
    case _ => Err(VerifierFailed)
  }

  function ExpectedIdentity(native: Native, expected: string): Result<string, SigningError> {
    if native.Codesign? then Ok(Strip(expected)) else NormalizeFingerprint(expected)
  }

  function PlatformOf(native: Native): Option<Platform> {
    match native
    case OpenPgp(_) => Some(LinuxOpenpgp)
    case Codesign(_) => Some(MacosCodesign)
    case Authenticode(_) => Some(WindowsAuthenticode)
    case UnsupportedMode => None
  }

  function VerifierName(native: Native): string {
    match native
    case OpenPgp(_) => "gpg --status-fd=1 --verify"
    case Codesign(_) => "codesign --verify --deep --strict"
    case _ => "signtool verify " + "/pa /all /v + " + "Get-AuthenticodeSignature"
  }

  /** The verified identity is the expected one and is not empty. */
  ghost predicate Vouched(native: Native, expected: string) {
    && NativeIdentity(native).Ok? && ExpectedIdentity(native, expected).Ok?
    && NativeIdentity(native).value == ExpectedIdentity(native, expected).value
    && NativeIdentity(native).value != ""
  }

  method VerifyOpenPgp(sigs: seq<string>, expected: string) returns (r: Result<string, SigningError>)
    ensures r.Ok? <==> Vouched(OpenPgp(Some(sigs)), expected)
    ensures r.Ok? ==> r.value == NativeIdentity(OpenPgp(Some(sigs))).value
    ensures r.Ok? ==> |sigs| == 1 && NormalizeFingerprint(sigs[0]) == NormalizeFingerprint(expected) == Ok(r.value)
    ensures r.Err? ==> r.error in {NotExactlyOneSignature, SignerMismatch, EmptyFingerprint, NotHex}
  {
    var fingerprints: seq<string> := [];
    for i := 0 to |sigs|
      invariant |fingerprints| == i
      invariant forall j :: 0 <= j < i ==> NormalizeFingerprint(sigs[j]) == Ok(fingerprints[j])
    {
      var one := NormalizeFingerprint(sigs[i]);
      FingerprintIs(sigs[i]);
      if one.Err? { return one; }
      fingerprints := fingerprints + [one.value];
    }
    if |fingerprints| != 1 { return Err(NotExactlyOneSignature); }
    FingerprintIs(expected);
    var wanted :- NormalizeFingerprint(expected);
    if fingerprints[0] != wanted { return Err(SignerMismatch); }
    FingerprintIsNotBlank(sigs[0]);
    return Ok(fingerprints[0]);
  }

  /** The receipt names its platform and tool, and the identity that both the tool and the caller name: the only valid
      signature's, the team's, or the certificate's. */
  ghost predicate Attests(v: Receipt, native: Native, expected: string) {
    match native
    case OpenPgp(sigs) =>
      && v.platform == Some(LinuxOpenpgp) && v.verifier == Some("gpg --status-fd=1 --verify")
      && sigs.Some? && |sigs.value| == 1
      && v.identity.Some? && NormalizeFingerprint(sigs.value[0]) == NormalizeFingerprint(expected) == Ok(v.identity.value)
    case Codesign(team) =>
      && v.platform == Some(MacosCodesign) && v.verifier == Some("codesign --verify --deep --strict")
      && team.Some? && v.identity == Some(Strip(team.value)) && Strip(team.value) == Strip(expected) && Strip(expected) != ""
    case Authenticode(thumbprint) =>
      && v.platform == Some(WindowsAuthenticode)
      && v.verifier == Some("signtool verify " + "/pa /all /v + " + "Get-AuthenticodeSignature")
      && thumbprint.Some? && v.identity.Some?
      && NormalizeFingerprint(Strip(thumbprint.value)) == NormalizeFingerprint(expected) == Ok(v.identity.value)
    case UnsupportedMode => false
  }

  /** `verify_platform_signature`; `sha` gives the lower-case hexadecimal SHA-256 of the artifact. */
  method VerifyPlatformSignature(native: Native, expected: string, commit: string, artifact: Option<seq<byte>>,
                                 sha: seq<byte> -> string)
    returns (r: Result<Receipt, SigningError>)
    ensures r.Ok? <==> PlatformOf(native).Some? && LowerSha(commit) && artifact.Some? && Vouched(native, expected)
    ensures r.Ok? ==> Emitted(r.value, native, expected, commit, sha(artifact.value))
    ensures r.Ok? ==> Attests(r.value, native, expected)
    ensures r == Err(UnsupportedPlatform) <==> native == UnsupportedMode
    ensures r == Err(BadSourceCommit) <==> native != UnsupportedMode && !LowerSha(commit)
    ensures r == Err(NoArtifact) <==> native != UnsupportedMode && LowerSha(commit) && artifact.None?
  {
    if native.UnsupportedMode? { return Err(UnsupportedPlatform); }
    if !LowerSha(commit) { return Err(BadSourceCommit); }
    if artifact.None? { return Err(NoArtifact); }
    hide LowerSha, Strip, NormalizeFingerprint;
    FingerprintIs(expected);
    var identity;
    match native {
      case OpenPgp(sigs) =>
        if sigs.None? { return Err(VerifierFailed); }
        identity :- VerifyOpenPgp(sigs.value, expected);
      case Codesign(team) =>
        if team.None? { return Err(VerifierFailed); }
        identity := Strip(team.value);
        if Strip(expected) == "" || identity != Strip(expected) { return Err(SignerMismatch); }
      case Authenticode(thumbprint) =>
        if thumbprint.None? { return Err(VerifierFailed); }
        FingerprintIs(Strip(thumbprint.value));
        identity :- NormalizeFingerprint(Strip(thumbprint.value));
        var wanted :- NormalizeFingerprint(expected);
        if identity != wanted { return Err(SignerMismatch); }
        FingerprintIsNotBlank(Strip(thumbprint.value));
    }
    return Ok(Receipt(true, true, Some(commit), Some(sha(artifact.value)), Some(identity),
                      Some(VerifierName(native)), PlatformOf(native)));
  }

  /** A receipt as the platform verification makes it. */
  ghost predicate Emitted(v: Receipt, native: Native, expected: string, commit: string, digest: string) {
    && PlatformOf(native).Some? && Vouched(native, expected)
    && v == Receipt(true, true, Some(commit), Some(digest), Some(NativeIdentity(native).value),
                    Some(VerifierName(native)), PlatformOf(native))
  }

  // ---- the validator --------------------------------------------------------------------------------

  datatype EvidenceError =
    | BadSchema | BadDocumentCommit | BadProfile | BadClaim | GatesMalformed | UnknownGates
    | MissingGate(gate: Gate) | BadStatus(gate: Gate) | BadEvidence(gate: Gate) | LacksEvidence(gate: Gate)
    | WrongClaim | WrongProfile | UnsupportedValidation | GatesNotProven(failed: seq<Gate>) | NotPlatformSigning
    | BadSigning

  ghost predicate RecordShape(r: GateRecord) {
    r.Record? && !r.status.OtherStatus? && r.evidence.Some? && (r.status.Pass? ==> !Blank(r.evidence.value))
  }

  ghost predicate Shape(d: Document) {
    && d.schemaIsCurrent && d.commit.Some? && LowerSha(d.commit.value)
    && !d.profile.OtherProfile? && !d.claim.OtherClaim?
    && d.gates.Gates? && !d.gates.unknownNames
    && forall g: Gate :: g in d.gates.records && RecordShape(d.gates.records[g])
  }

  method ValidateShape(d: Document) returns (r: Result<(), EvidenceError>)
    ensures r.Ok? <==> Shape(d)
    ensures r.Err? ==> !r.error.GatesNotProven?
    ensures r == Err(BadSchema) <==> !d.schemaIsCurrent
    ensures r == Err(BadDocumentCommit) <==> d.schemaIsCurrent && (d.commit.None? || !LowerSha(d.commit.value))
  {
    if !d.schemaIsCurrent { return Err(BadSchema); }
    if d.commit.None? || !LowerSha(d.commit.value) { return Err(BadDocumentCommit); }
    if d.profile.OtherProfile? { return Err(BadProfile); }
    if d.claim.OtherClaim? { return Err(BadClaim); }
    if d.gates.NotGates? { return Err(GatesMalformed); }
    if d.gates.unknownNames { return Err(UnknownGates); }
    hide LowerSha, Blank;
    for i := 0 to |ALL_GATES|
      invariant forall j :: 0 <= j < i ==> ALL_GATES[j] in d.gates.records && RecordShape(d.gates.records[ALL_GATES[j]])
    {
      var g := ALL_GATES[i];
      if g !in d.gates.records || d.gates.records[g].NotARecord? { return Err(MissingGate(g)); }
      var record := d.gates.records[g];
      if record.status.OtherStatus? { return Err(BadStatus(g)); }
      if record.evidence.None? { return Err(BadEvidence(g)); }
      if record.status.Pass? && Blank(record.evidence.value) { return Err(LacksEvidence(g)); }
    }
    forall g: Gate ensures g in d.gates.records && RecordShape(d.gates.records[g]) { AllGates(g); }
    return Ok(());
  }

  predicate DigestText(s: string) { |s| == 64 && forall i :: 0 <= i < |s| ==> LowerHexDigit(s[i]) }

  /** The receipt is bound to this document's commit and names artifact, signer, verifier and platform. */
  predicate Bound(d: Document, v: Option<Receipt>) {
    && v.Some? && v.value.schemaIsCurrent && v.value.verified && v.value.commit == d.commit
    && v.value.digest.Some? && DigestText(v.value.digest.value)
    && v.value.identity.Some? && !Blank(v.value.identity.value)
    && v.value.verifier.Some? && !Blank(v.value.verifier.value)
    && v.value.platform.Some?
  }

  datatype Mode = CandidateMode | ProductionMode | OtherMode

  function RequiredGates(mode: Mode): seq<Gate> { if mode.ProductionMode? then ALL_GATES else CANDIDATE_REQUIRED }

  const SIGSTORE := "sigstore-only"
  const NOT_CLAIMED := "not-claimed-phase44"

  ghost predicate Disclaims(text: string) {
    Contains(Lower(text), SIGSTORE) || Contains(Lower(text), NOT_CLAIMED)
  }

  ghost predicate Valid(d: Document, mode: Mode, v: Option<Receipt>) {
    && Shape(d) && !mode.OtherMode?
    && (forall g :: g in RequiredGates(mode) ==> d.gates.records[g].status.Pass?)
    && (mode.CandidateMode? ==> d.claim.Candidate? && (d.profile.Staging? || d.profile.Production?))
    && (mode.ProductionMode? ==>
          && d.claim.ProductionClaim? && d.profile.Production?
          && !Disclaims(d.gates.records[PlatformSigning].evidence.value)
          && Bound(d, v))
  }

  ghost predicate Passes(d: Document, g: Gate) {
    d.gates.Gates? && g in d.gates.records && d.gates.records[g].Record? && d.gates.records[g].status == Pass
  }

  /** The gates a mode asks for: six of a candidate, all of a production release. */
  ghost predicate Needed(g: Gate, mode: Mode) {
    mode == ProductionMode || g in {Security, DataSafety, Compatibility, ConformanceGate, CriticalChaos, PublicContract}
  }

  lemma NeededAre(g: Gate, mode: Mode)
    ensures g in RequiredGates(mode) <==> Needed(g, mode)
  {
    AllGates(g);
    assert CANDIDATE_REQUIRED[0] == Security && CANDIDATE_REQUIRED[1] == DataSafety && CANDIDATE_REQUIRED[2] == Compatibility;
    assert CANDIDATE_REQUIRED[3] == ConformanceGate && CANDIDATE_REQUIRED[4] == CriticalChaos;
    assert CANDIDATE_REQUIRED[5] == PublicContract;
  }

  /** The document names a commit, and every gate says why it passes. */
  ghost predicate Answerable(d: Document)
    requires d.gates.Gates?
  {
    && d.schemaIsCurrent && d.commit.Some? && LowerSha(d.commit.value)
    && forall g: Gate :: Passes(d, g) ==>
         exists c :: d.gates.records[g].evidence.Some? && c in d.gates.records[g].evidence.value && !Whitespace(c)
  }

  /** A verified receipt for the document's own commit, with a full artifact digest and a signer and tool by name. */
  ghost predicate Attested(d: Document, v: Receipt) {
    && v.schemaIsCurrent && v.verified && v.commit.Some? && v.commit == d.commit
    && v.digest.Some? && |v.digest.value| == 64 && (forall c :: c in v.digest.value ==> c in "0123456789abcdef")
    && v.identity.Some? && (exists c :: c in v.identity.value && !Whitespace(c))
    && v.verifier.Some? && (exists c :: c in v.verifier.value && !Whitespace(c))
    && v.platform.Some?
  }

  lemma NotBlank(s: string)
    ensures !Blank(s) <==> exists c :: c in s && !Whitespace(c)
  {
    if c :| c in s && !Whitespace(c) {
      var i :| 0 <= i < |s| && s[i] == c;
    }
  }

  lemma BoundIsAttested(d: Document, v: Receipt)
    ensures Bound(d, Some(v)) && d.commit.Some? <==> Attested(d, v)
  {
    if v.identity.Some? { NotBlank(v.identity.value); }
    if v.verifier.Some? { NotBlank(v.verifier.value); }
    forall c ensures LowerHexDigit(c) <==> c in HEX { HexDigitsAre(c); }
    hide LowerHexDigit, Blank, Whitespace;
  }

  lemma ShapeIsAnswerable(d: Document)
    requires Shape(d)
    ensures Answerable(d)
  {
    hide LowerSha, Blank;
    forall g: Gate | Passes(d, g)
      ensures exists c :: d.gates.records[g].evidence.Some? && c in d.gates.records[g].evidence.value && !Whitespace(c)
    {
      assert RecordShape(d.gates.records[g]);
      NotBlank(d.gates.records[g].evidence.value);
    }
  }

  method Find(text: string, part: string) returns (r: bool)
    ensures r <==> Contains(text, part)
  {
    var i := 0;
    while i + |part| <= |text|
      invariant forall j :: 0 <= j < i ==> !OccursAt(text, part, j)
    {
      if text[i..i + |part|] == part {
        assert OccursAt(text, part, i);
        return true;
      }
      i := i + 1;
    }
    return false;
  }

  method FailedGates(d: Document, required: seq<Gate>) returns (failed: seq<Gate>)
    requires Shape(d)
    ensures forall g :: g in failed <==> g in required && !d.gates.records[g].status.Pass?
  {
    hide LowerSha, Blank;
    failed := [];
    for i := 0 to |required|
      invariant forall g :: g in failed <==> g in required[..i] && !d.gates.records[g].status.Pass?
    {
      if d.gates.records[required[i]].status != Pass { failed := failed + [required[i]]; }
    }
    assert required[..|required|] == required;
  }

  /** `validate`. */
  method Validate(d: Document, mode: Mode, v: Option<Receipt>) returns (r: Result<(), EvidenceError>)
    ensures r.Ok? <==> Valid(d, mode, v)
    ensures r.Ok? ==> d.gates.Gates? && Answerable(d)
    ensures r.Ok? && mode == ProductionMode ==>
      && d.claim == ProductionClaim && d.profile == Production && v.Some? && Attested(d, v.value)
      && forall g: Gate :: Passes(d, g)
    ensures r.Ok? && mode == CandidateMode ==>
      && d.claim == Candidate && (d.profile == Staging || d.profile == Production)
      && Passes(d, Security) && Passes(d, DataSafety) && Passes(d, Compatibility) && Passes(d, ConformanceGate)
      && Passes(d, CriticalChaos) && Passes(d, PublicContract)
    ensures r.Err? && r.error.GatesNotProven? ==>
      d.gates.Gates? && forall g :: g in r.error.failed <==> Needed(g, mode) && !Passes(d, g)
  {
    var _ :- ValidateShape(d);
    ShapeIsAnswerable(d);
    forall g: Gate ensures d.gates.records[g].status.Pass? <==> Passes(d, g) { assert RecordShape(d.gates.records[g]); }
    forall g: Gate ensures g in RequiredGates(mode) <==> Needed(g, mode) { NeededAre(g, mode); }
    if v.Some? { BoundIsAttested(d, v.value); }
    hide Bound, Attested, Answerable, Disclaims, Lower, RequiredGates;
    match mode {
      case CandidateMode =>
        if !d.claim.Candidate? { return Err(WrongClaim); }
        if !d.profile.Staging? && !d.profile.Production? { return Err(WrongProfile); }
      case ProductionMode =>
        if !d.claim.ProductionClaim? { return Err(WrongClaim); }
        if !d.profile.Production? { return Err(WrongProfile); }
      case OtherMode => return Err(UnsupportedValidation);
    }
    var failed := FailedGates(d, RequiredGates(mode));
    if failed != [] {
      assert failed[0] in failed;
      return Err(GatesNotProven(failed));
    }
    if mode.ProductionMode? {
      var text := Lower(d.gates.records[PlatformSigning].evidence.value);
      var sigstore := Find(text, SIGSTORE);
      var notClaimed := Find(text, NOT_CLAIMED);
      if sigstore || notClaimed { return Err(NotPlatformSigning); }
      if !Bound(d, v) { return Err(BadSigning); }
    }
    return Ok(());
  }

  // ---- producer, receipt and validator together -------------------------------------------------------

  lemma LowerConcat(a: string, b: string)
    ensures Lower(a + b) == Lower(a) + Lower(b)
  {
  }

  /** Lower case, and without the characters by which each marker is told. */
  predicate Plain(s: string) { forall c :: c in s ==> !('A' <= c <= 'Z') && c != 'g' && c != '4' }

  lemma PlainPieces()
    ensures Plain(LIVE_NATIVE)
    ensures Plain(VERIFICATION)
    ensures Plain(RELEASE) && RELEASE[|RELEASE| - 1] == '='
  {
  }

  lemma PlainText(a: string, b: string, c: string)
    requires Plain(a) && Plain(b) && Plain(c) && c != ""
    ensures var s := a + b + c;
      Lower(s) == s && 'g' !in s && '4' !in s && s[|s| - 1] == c[|c| - 1]
  {
    var s := a + b + c;
    assert forall x :: x in s ==> x in a || x in b || x in c;
    forall i | 0 <= i < |s| ensures Lower(s)[i] == s[i] {
      assert s[i] in s;
      assert Lower(s)[i] == LowerChar(s[i]);
    }
    assert Lower(s) == s;
  }

  lemma LiveIsLower()
    ensures Lower(LIVE) == LIVE
    ensures 'g' !in LIVE && '4' !in LIVE && LIVE[|LIVE| - 1] == '='
  {
    hide Plain;
    PlainPieces();
    PlainText(LIVE_NATIVE, VERIFICATION, RELEASE);
  }

  lemma MarkersFit()
    ensures 'g' in SIGSTORE && '=' !in SIGSTORE
    ensures '4' in NOT_CLAIMED && '=' !in NOT_CLAIMED
  {
    assert SIGSTORE[2] == 'g' && NOT_CLAIMED[17] == '4';
  }

  /** The fixed wording in front of the URL can neither contain a marker nor lend it a beginning. */
  lemma SigningEvidenceDisclaims(releaseUrl: string)
    ensures Disclaims(LIVE + releaseUrl) <==> Disclaims(releaseUrl)
  {
    LiveIsLower();
    MarkersFit();
    LowerConcat(LIVE, releaseUrl);
    PrefixHidesNothing(LIVE, Lower(releaseUrl), SIGSTORE, 'g');
    PrefixHidesNothing(LIVE, Lower(releaseUrl), NOT_CLAIMED, '4');
  }

  lemma EvidenceIsNotBlank(selected: map<Workflow, string>, releaseUrl: string, g: Gate)
    requires forall w: Workflow :: w in selected
    ensures !Blank(GateEvidence(selected, releaseUrl, g))
  {
    hide Refs;
    var text := GateEvidence(selected, releaseUrl, g);
    var main := "exact-main-success; ";
    assert LIVE_NATIVE[0] == 'l' && main[0] == 'e';
    assert text[0] == LIVE_NATIVE[0] || text[0] == main[0];
  }

  /** Every document the producer makes passes the validator's shape check with all gates passing. */
  lemma BuiltHasShape(d: Document, proof: seq<ProofItem>, commit: string, releaseUrl: string)
    requires Built(d, proof, commit, releaseUrl)
    ensures Shape(d) && forall g: Gate :: d.gates.records[g].status.Pass?
    ensures d.gates.records[PlatformSigning].evidence == Some(LIVE + releaseUrl)
  {
    var selected: map<Workflow, string> :|
      && (forall w: Workflow :: w in selected)
      && SelectsLast(proof, commit, selected)
      && forall g: Gate :: g in d.gates.records
           && d.gates.records[g] == Record(Pass, Some(GateEvidence(selected, releaseUrl, g)));
    hide LowerSha, Blank, SelectsLast;
    forall g: Gate ensures RecordShape(d.gates.records[g]) { EvidenceIsNotBlank(selected, releaseUrl, g); }
  }

  /** Every receipt the platform verification makes satisfies the validator for a document of its commit. */
  lemma EmittedIsBound(d: Document, v: Receipt, native: Native, expected: string, commit: string, digest: string)
    requires Emitted(v, native, expected, commit, digest) && DigestText(digest) && d.commit == Some(commit)
    ensures Bound(d, Some(v))
  {
    hide DigestText;
    var identity := NativeIdentity(native).value;
    assert !Blank(identity) by { VouchedIsNotBlank(native, expected); }
    assert !Blank(VerifierName(native)) by { VerifierIsNamed(native); }
    hide Blank, NativeIdentity;
  }

  lemma VerifierIsNamed(native: Native)
    ensures !Blank(VerifierName(native))
  {
    var gpg, codesign, signtool :=
      VerifierName(OpenPgp(None)), VerifierName(Codesign(None)), VerifierName(Authenticode(None));
    var tool := "signtool verify ";
    assert gpg[0] == 'g' && codesign[0] == 'c' && tool[0] == 's' && signtool[0] == tool[0];
    assert VerifierName(native) == gpg || VerifierName(native) == codesign || VerifierName(native) == signtool;
  }

  lemma VouchedIsNotBlank(native: Native, expected: string)
    requires Vouched(native, expected)
    ensures !Blank(NativeIdentity(native).value)
  {
    hide NormalizeFingerprint, Strip, Blank;
    match native
    case OpenPgp(Some(sigs)) => FingerprintIsNotBlank(sigs[0]);
    case Codesign(Some(team)) => StrippedIsNotBlank(team);
    case Authenticode(Some(thumbprint)) => FingerprintIsNotBlank(Strip(thumbprint));
  }

  /** The producer's documents, with a receipt for the same commit, are accepted in production mode exactly when
      the release URL contains neither marker in any letter case; candidate mode always refuses them. */
  lemma BuiltValidatesExactlyWhen(d: Document, proof: seq<ProofItem>, commit: string, releaseUrl: string,
                                  v: Receipt, native: Native, expected: string, digest: string)
    requires Built(d, proof, commit, releaseUrl)
    requires Emitted(v, native, expected, commit, digest) && DigestText(digest)
    ensures Valid(d, ProductionMode, Some(v)) <==> !Disclaims(releaseUrl)
    ensures forall w :: !Valid(d, CandidateMode, w)
    ensures !Valid(d, ProductionMode, None)
  {
    BuiltHasShape(d, proof, commit, releaseUrl);
    SigningEvidenceDisclaims(releaseUrl);
    assert d.commit == Some(commit) && d.claim.ProductionClaim? && d.profile.Production?;
    hide Shape, Disclaims, Emitted, Built;
    assert Bound(d, Some(v)) by { EmittedIsBound(d, v, native, expected, commit, digest); }
  }
}
