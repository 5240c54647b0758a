/** The evidence bundle: its verification, and the writer that stages, verifies and only then publishes it. */
module Bundle {
  import opened Wrappers
  import opened Evidence
  import opened Json
  import opened Junit
  import opened Reading
  import opened Sorting

  // -- Files ---------------------------------------------------------------------------------

  /** A directory's files by name, each as its bytes. */
  type Contents = map<string, string>

  /** The library functions in between: printing with sorted keys, strict parsing, and the SHA-256 in hexadecimal. */
  datatype Codec = Codec(write: Json -> string, parse: string -> Option<Json>, digest: string -> string)

  /** A parser that refuses duplicate keys, and a digest of 64 lower-case hexadecimal digits. */
  ghost predicate Strict(c: Codec) {
    && (forall s {:trigger c.parse(s)} :: c.parse(s).Some? ==> WellFormed(c.parse(s).value))
    && (forall s {:trigger c.digest(s)} :: LowerHex(c.digest(s), 64))
  }

  /** Parsing what was printed gives the same value with sorted keys. It is assumed of single values only: no printer
      does so for an infinite float, for an integer beyond the library's digit limit, or for two fractions of one
      float. */
  ghost predicate RoundTrips(c: Codec, j: Json) {
    c.parse(c.write(j)) == Some(Canonical(j)) && |c.write(j)| > 0
  }

  const EVIDENCE := "evidence.json"
  const JUNIT := "junit.xml"
  const MANIFEST := "manifest.json"
  const MANIFEST_LIMIT := 128 * 1024
  const EVIDENCE_LIMIT := 512 * 1024

  function LoadJson(bytes: string, limit: nat, codec: Codec): Result<Json> {
    if |bytes| == 0 || |bytes| > limit || codec.parse(bytes).None? then Raised else Ok(codec.parse(bytes).value)
  }

  // -- The manifest --------------------------------------------------------------------------

  const MANIFEST_SCHEMA := "cache-invariant-manifest-v1"

  /** A record that names one of the two files and states its true size and digest. */
  predicate RecordGood(item: Json, contents: Contents, codec: Codec) {
    && item.Obj? && item.fields.Keys == {"bytes", "path", "sha256"}
    && item.fields["path"].Str? && item.fields["path"].s in {EVIDENCE, JUNIT} && item.fields["path"].s in contents
    && var file := contents[item.fields["path"].s];
       && item.fields["bytes"] == Int(|file|) && |file| > 0
       && item.fields["sha256"] == Str(codec.digest(file)) && LowerHex(codec.digest(file), 64)
  }

  predicate ManifestGood(value: Json, contents: Contents, codec: Codec) {
    && value.Obj? && value.fields.Keys == {"files", "schema"} && value.fields["schema"] == Str(MANIFEST_SCHEMA)
    && value.fields["files"].Arr? && |value.fields["files"].items| == 2
    && var items := value.fields["files"].items;
       && RecordGood(items[0], contents, codec) && RecordGood(items[1], contents, codec)
       && items[0].fields["path"] != items[1].fields["path"]
  }

  method ValidateManifest(value: Json, contents: Contents, codec: Codec) returns (ok: bool)
    requires EVIDENCE in contents && JUNIT in contents
    ensures ok == ManifestGood(value, contents, codec)
  {
    if !(value.Obj? && value.fields.Keys == {"files", "schema"}) || value.fields["schema"] != Str(MANIFEST_SCHEMA) {
      return false;
    }
    var files := value.fields["files"];
    if !files.Arr? || |files.items| != 2 {
      return false;
    }
    var seen: set<string> := {};
    for n := 0 to 2
      invariant forall i :: 0 <= i < n ==> RecordGood(files.items[i], contents, codec)
      invariant seen == set i | 0 <= i < n :: files.items[i].fields["path"].s
      invariant n == 2 ==> files.items[0].fields["path"] != files.items[1].fields["path"]
    {
      var item := files.items[n];
      if !(item.Obj? && item.fields.Keys == {"bytes", "path", "sha256"}) {
        return false;
      }
      var path := item.fields["path"];
      if !path.Str? || path.s !in {EVIDENCE, JUNIT} || path.s in seen {
        return false;
      }
      seen := seen + {path.s};
      var size, sha := item.fields["bytes"], item.fields["sha256"];
      if !(size.Int? && size.i > 0 && sha.Str? && LowerHex(sha.s, 64)) {
        return false;
      }
      if |contents[path.s]| != size.i || codec.digest(contents[path.s]) != sha.s {
        return false;
      }
    }
    if seen != {EVIDENCE, JUNIT} {
      return false;
    }
    return true;
  }

  // -- Verification --------------------------------------------------------------------------

  /** Validation of an evidence value. */
  type Validator = Json -> Outcome

  datatype Summary = Summary(invariantCount: nat, platform: string, schema: string)

  /** The lookups with which the summary is made; each may fail. */
  function Report(j: Json): Result<Summary> {
    var stored :- At(j, "invariants");
    var runtime :- At(j, "runtime");
    var platform :- StrAt(runtime, "asset_platform");
    var schema :- StrAt(j, "schema");
    if stored.Obj? then Ok(Summary(|stored.fields|, platform, schema)) else Raised
  }

  /** The keys of the stored verdicts, in the order in which the object lists them. */
  function StoredNames(j: Json): seq<string> {
    if Has(j, "invariants") && Get(j, "invariants").Obj? then Get(j, "invariants").order else []
  }

  function VerifyBundle(contents: Contents, check: Validator, codec: Codec): Result<Summary> {
    if contents.Keys != {EVIDENCE, JUNIT, MANIFEST} then Raised
    else
      var manifest :- LoadJson(contents[MANIFEST], MANIFEST_LIMIT, codec);
      if !ManifestGood(manifest, contents, codec) then Raised
      else
        var evidence :- LoadJson(contents[EVIDENCE], EVIDENCE_LIMIT, codec);
        if !check(evidence).Accepted? then Raised
        else if contents[JUNIT] != Projection(JunitLayout(), StoredNames(evidence)) then Raised
        else Report(evidence)
  }

  ghost predicate Judges(check: Validator, j: Json) {
    && check(Canonical(j)) == check(j)
    && (check(j).Accepted? ==>
          Finite(j) && Report(j).Ok? && Report(j).value.invariantCount == VerdictTotal(check(j).version))
  }

  /** What the bundle relies on: validation ignores key order, and accepted evidence can be printed and summarised. */
  ghost predicate Sound(check: Validator) {
    forall j {:trigger Judges(check, j)} :: WellFormed(j) ==> Judges(check, j)
  }

  // -- What the writer stages ----------------------------------------------------------------

  function Record(path: string, file: string, codec: Codec): Json {
    Obj(map["bytes" := Int(|file|), "path" := Str(path), "sha256" := Str(codec.digest(file))],
        ["bytes", "path", "sha256"])
  }

  function Manifest(evidence: string, junit: string, codec: Codec): Json {
    var files := Arr([Record(EVIDENCE, evidence, codec), Record(JUNIT, junit, codec)]);
    Obj(map["files" := files, "schema" := Str(MANIFEST_SCHEMA)], ["files", "schema"])
  }

  function EvidenceText(j: Json, codec: Codec): string {
    codec.write(j)
  }

  function JunitOf(j: Json): string {
    Projection(JunitLayout(), StoredNames(j))
  }

  function ManifestText(j: Json, codec: Codec): string {
    codec.write(Manifest(EvidenceText(j, codec), JunitOf(j), codec))
  }

  function Staged(j: Json, codec: Codec): Contents {
    map[EVIDENCE := EvidenceText(j, codec), JUNIT := JunitOf(j), MANIFEST := ManifestText(j, codec)]
  }

  /** The library carries this evidence and its manifest. */
  ghost predicate Carries(c: Codec, j: Json) {
    RoundTrips(c, j) && RoundTrips(c, Manifest(EvidenceText(j, c), JunitOf(j), c))
  }

  predicate WithinLimits(j: Json, codec: Codec) {
    |EvidenceText(j, codec)| <= EVIDENCE_LIMIT && |ManifestText(j, codec)| <= MANIFEST_LIMIT
  }

  // -- Sorting keys changes nothing that is reported -----------------------------------------

  lemma SortedTwice(s: seq<string>)
    ensures Sorted(Sorted(s)) == Sorted(s)
  {
    SortedSorts(s);
    SortedSorts(Sorted(s));
    SortedUnique(Sorted(Sorted(s)), Sorted(s));
  }

  lemma CanonicalAt(j: Json, key: string)
    ensures Has(Canonical(j), key) <==> Has(j, key)
    ensures Has(j, key) ==> Get(Canonical(j), key) == Canonical(Get(j, key))
    ensures StrAt(Canonical(j), key) == StrAt(j, key)
  {
  }

  lemma CanonicalReports(j: Json)
    ensures Report(Canonical(j)) == Report(j)
  {
    CanonicalAt(j, "invariants");
    CanonicalAt(j, "runtime");
    CanonicalAt(j, "schema");
    if Has(j, "runtime") {
      CanonicalAt(Get(j, "runtime"), "asset_platform");
    }
    if Has(j, "invariants") && Get(j, "invariants").Obj? {
      var v := Get(j, "invariants");
      assert Canonical(v).fields.Keys == v.fields.Keys;
      assert |Canonical(v).fields.Keys| == |v.fields.Keys|;
    }
  }

  lemma CanonicalProjects(j: Json)
    ensures JunitOf(Canonical(j)) == JunitOf(j)
  {
    CanonicalAt(j, "invariants");
    if Has(j, "invariants") && Get(j, "invariants").Obj? {
      assert StoredNames(Canonical(j)) == Sorted(StoredNames(j));
      SortedTwice(StoredNames(j));
    } else {
      assert StoredNames(Canonical(j)) == StoredNames(j);
    }
  }

  // -- What is staged verifies ---------------------------------------------------------------

  lemma CanonicalFields(j: Json)
    requires j.Obj?
    ensures Canonical(j).Obj? && Canonical(j).fields.Keys == j.fields.Keys
    ensures forall k :: k in j.fields ==> Canonical(j).fields[k] == Canonical(j.fields[k])
  {
  }

  predicate IsRecord(r: Json, path: string, file: string, codec: Codec) {
    && r.Obj? && r.fields.Keys == {"bytes", "path", "sha256"}
    && r.fields["bytes"] == Int(|file|) && r.fields["path"] == Str(path)
    && r.fields["sha256"] == Str(codec.digest(file))
  }

  predicate IsManifest(m: Json, evidence: string, junit: string, codec: Codec) {
    && m.Obj? && m.fields.Keys == {"files", "schema"} && m.fields["schema"] == Str(MANIFEST_SCHEMA)
    && m.fields["files"].Arr? && |m.fields["files"].items| == 2
    && IsRecord(m.fields["files"].items[0], EVIDENCE, evidence, codec)
    && IsRecord(m.fields["files"].items[1], JUNIT, junit, codec)
  }

  lemma RecordSorted(r: Json, path: string, file: string, codec: Codec)
    requires IsRecord(r, path, file, codec)
    ensures IsRecord(Canonical(r), path, file, codec)
  {
    CanonicalFields(r);
  }

  lemma ManifestSorted(m: Json, evidence: string, junit: string, codec: Codec)
    requires IsManifest(m, evidence, junit, codec)
    ensures IsManifest(Canonical(m), evidence, junit, codec)
  {
    CanonicalFields(m);
    var items := m.fields["files"].items;
    RecordSorted(items[0], EVIDENCE, evidence, codec);
    RecordSorted(items[1], JUNIT, junit, codec);
  }

  lemma RecordOf(path: string, file: string, codec: Codec)
    ensures WellFormed(Record(path, file, codec)) && Finite(Record(path, file, codec))
    ensures IsRecord(Record(path, file, codec), path, file, codec)
  {
    assert |"bytes"| == 5 && |"path"| == 4 && |"sha256"| == 6;
  }

  lemma ManifestFrom(a: Json, b: Json)
    requires WellFormed(a) && WellFormed(b) && Finite(a) && Finite(b)
    ensures var m := Obj(map["files" := Arr([a, b]), "schema" := Str(MANIFEST_SCHEMA)], ["files", "schema"]);
            WellFormed(m) && Finite(m)
  {
    assert |"files"| == 5 && |"schema"| == 6;
    assert WellFormed(Arr([a, b])) && Finite(Arr([a, b]));
  }

  lemma ManifestOf(evidence: string, junit: string, codec: Codec)
    ensures WellFormed(Manifest(evidence, junit, codec)) && Finite(Manifest(evidence, junit, codec))
    ensures IsManifest(Manifest(evidence, junit, codec), evidence, junit, codec)
  {
    RecordOf(EVIDENCE, evidence, codec);
    RecordOf(JUNIT, junit, codec);
    hide Record, IsRecord;
    ManifestFrom(Record(EVIDENCE, evidence, codec), Record(JUNIT, junit, codec));
  }

  lemma ManifestMatches(m: Json, contents: Contents, codec: Codec)
    requires EVIDENCE in contents && |contents[EVIDENCE]| > 0 && LowerHex(codec.digest(contents[EVIDENCE]), 64)
    requires JUNIT in contents && |contents[JUNIT]| > 0 && LowerHex(codec.digest(contents[JUNIT]), 64)
    requires IsManifest(m, contents[EVIDENCE], contents[JUNIT], codec)
    ensures ManifestGood(m, contents, codec)
  {
    assert |EVIDENCE| == 13 && |JUNIT| == 9;
  }

  lemma JunitNotEmpty(j: Json)
    ensures |JunitOf(j)| > 0
  {
  }

  lemma ThreeFiles(j: Json, codec: Codec)
    ensures Staged(j, codec).Keys == {EVIDENCE, JUNIT, MANIFEST}
    ensures Staged(j, codec)[EVIDENCE] == EvidenceText(j, codec)
    ensures Staged(j, codec)[JUNIT] == JunitOf(j)
    ensures Staged(j, codec)[MANIFEST] == ManifestText(j, codec)
  {
    assert |EVIDENCE| == 13 && |JUNIT| == 9 && |MANIFEST| == 13 && EVIDENCE[0] == 'e' && MANIFEST[0] == 'm';
  }

  lemma StagedManifestGood(j: Json, codec: Codec)
    requires Strict(codec) && Carries(codec, j)
    ensures codec.parse(ManifestText(j, codec)).Some? && |ManifestText(j, codec)| > 0
    ensures ManifestGood(codec.parse(ManifestText(j, codec)).value, Staged(j, codec), codec)
  {
    var e, t, contents := EvidenceText(j, codec), JunitOf(j), Staged(j, codec);
    var m := Manifest(e, t, codec);
    ManifestOf(e, t, codec);
    ManifestSorted(m, e, t, codec);
    ThreeFiles(j, codec);
    JunitNotEmpty(j);
    ManifestMatches(Canonical(m), contents, codec);
  }

  lemma LoadsWithin(bytes: string, limit: nat, codec: Codec, j: Json)
    requires codec.parse(bytes) == Some(j) && |bytes| > 0
    ensures LoadJson(bytes, limit, codec) == if |bytes| <= limit then Ok(j) else Raised
  {
  }

  lemma VerifiesFrom(contents: Contents, check: Validator, codec: Codec, manifest: Json, evidence: Json)
    requires contents.Keys == {EVIDENCE, JUNIT, MANIFEST}
    requires codec.parse(contents[MANIFEST]) == Some(manifest) && |contents[MANIFEST]| > 0
    requires codec.parse(contents[EVIDENCE]) == Some(evidence) && |contents[EVIDENCE]| > 0
    requires ManifestGood(manifest, contents, codec) && check(evidence).Accepted?
    requires contents[JUNIT] == JunitOf(evidence)
    ensures VerifyBundle(contents, check, codec)
         == if |contents[EVIDENCE]| <= EVIDENCE_LIMIT && |contents[MANIFEST]| <= MANIFEST_LIMIT
            then Report(evidence) else Raised
  {
    LoadsWithin(contents[MANIFEST], MANIFEST_LIMIT, codec, manifest);
    LoadsWithin(contents[EVIDENCE], EVIDENCE_LIMIT, codec, evidence);
  }

  /** A sound validator, and a library that is strict and carries this evidence. */
  ghost predicate Dependable(check: Validator, codec: Codec, j: Json) {
    Sound(check) && Strict(codec) && WellFormed(j) && Carries(codec, j)
  }

  /** Accepted evidence that is staged verifies within the size limits, with the summary of the original value. */
  lemma StagedVerifies(j: Json, check: Validator, codec: Codec)
    requires Dependable(check, codec, j) && check(j).Accepted?
    ensures VerifyBundle(Staged(j, codec), check, codec) == if WithinLimits(j, codec) then Report(j) else Raised
    ensures Report(j).Ok?
  {
    assert Judges(check, j);
    ThreeFiles(j, codec);
    StagedManifestGood(j, codec);
    CanonicalReports(j);
    CanonicalProjects(j);
    VerifiesFrom(Staged(j, codec), check, codec, codec.parse(ManifestText(j, codec)).value, Canonical(j));
  }

  /** A directory that verifies holds exactly the three files, and every verdict of its version. */
  lemma VerifiedMeans(contents: Contents, check: Validator, codec: Codec)
    requires Strict(codec) && Sound(check) && VerifyBundle(contents, check, codec).Ok?
    ensures contents.Keys == {EVIDENCE, JUNIT, MANIFEST}
    ensures codec.parse(contents[EVIDENCE]).Some?
    ensures var j := codec.parse(contents[EVIDENCE]).value;
            && check(j).Accepted? && contents[JUNIT] == JunitOf(j)
            && VerifyBundle(contents, check, codec) == Report(j)
            && Report(j).value.invariantCount == VerdictTotal(check(j).version)
  {
    assert EVIDENCE in contents.Keys && JUNIT in contents.Keys && MANIFEST in contents.Keys;
    assert Judges(check, codec.parse(contents[EVIDENCE]).value);
  }

  // -- The validator of the evidence ---------------------------------------------------------

  function ValidatorFor(pins: Pins): Validator {
    j => ValidateEvidence(j, pins)
  }

  lemma StoredCount(stored: Json, verdicts: map<string, bool>)
    requires Stores(stored, verdicts)
    ensures stored.Obj? && |stored.fields| == |verdicts|
  {
    assert |stored.fields.Keys| == |verdicts.Keys|;
  }

  lemma ReportFrom(j: Json, verdicts: map<string, bool>)
    requires Has(j, "invariants") && Stores(Get(j, "invariants"), verdicts)
    requires Has(j, "runtime") && StrAt(Get(j, "runtime"), "asset_platform").Ok? && StrAt(j, "schema").Ok?
    ensures Report(j).Ok? && Report(j).value.invariantCount == |verdicts|
  {
    StoredCount(Get(j, "invariants"), verdicts);
  }

  lemma AcceptedReports(j: Json, pins: Pins)
    requires WellFormed(j) && AllPlatformsNamed(pins) && ValidateEvidence(j, pins).Accepted?
    ensures Report(j).Ok?
    ensures Report(j).value.invariantCount == VerdictTotal(ValidateEvidence(j, pins).version)
  {
    AcceptedMeans(j, pins);
    AcceptedCount(j, pins);
    var version := ValidateEvidence(j, pins).version;
    PlatformRead(j, version, pins.For(version));
    ReportFrom(j, ValidateEvidence(j, pins).verdicts);
  }

  /** Validation of evidence is what the bundle needs of its validator. */
  lemma ValidatorIsSound(pins: Pins)
    requires AllPlatformsNamed(pins) && AllPinsFinite(pins)
    ensures Sound(ValidatorFor(pins))
  {
    forall j | WellFormed(j)
      ensures Judges(ValidatorFor(pins), j)
    {
      CanonicalValidates(j, pins);
      if ValidateEvidence(j, pins).Accepted? {
        AcceptedReports(j, pins);
        AcceptedFinite(j, pins);
      }
    }
  }
}
