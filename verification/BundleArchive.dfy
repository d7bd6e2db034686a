/** The archive inside a protected bundle: which entry paths are allowed, when the
    archive agrees with its manifest, and when an installed tree is that archive. */
module BundleArchive {
  import opened Common
  import opened Envelope

  // ----- Paths -----

  const MANIFEST_PATH := ".umbraforge/manifest.json"

  /** strings.ReplaceAll(s, "\\", "/") */
  function Slashed(s: string): string {
    seq(|s|, i requires 0 <= i < |s| => if s[i] == '\\' then '/' else s[i])
  }

  /** strings.Split(s, "/") */
  function Components(s: string): (cs: seq<string>)
    ensures cs != []
  {
    if s == "" then [""]
    else
      var cs := Components(Init(s));
      if Last(s) == '/' then cs + [""] else Init(cs) + [Last(cs) + [Last(s)]]
  }

  function Upper(c: char): char {
    if 'a' <= c <= 'z' then c - 32 as char else c
  }

  function Base(component: string): string {
    if component == "" || component[0] == '.' then "" else [Upper(component[0])] + Base(component[1..])
  }

  /** isReservedWindowsComponent */
  predicate Reserved(component: string) {
    component == "" || Last(component) == '.' || Last(component) == ' ' ||
    var base := Base(component);
    base in {"CON", "PRN", "AUX", "NUL", "CLOCK$"} ||
    (|base| == 4 && base[..3] in {"COM", "LPT"} && '1' <= base[3] <= '9')
  }

  /** path.Clean(s) == s, for a path that does not start with a slash: it is "." or
      has neither empty nor "." components and ".." only in front. */
  predicate IsClean(s: string) {
    var cs := Components(s);
    s == "." ||
    ((forall i | 0 <= i < |cs| :: cs[i] != "" && cs[i] != ".") &&
     (forall i | 0 < i < |cs| && cs[i] == ".." :: cs[i - 1] == ".."))
  }

  /** cleanBundlePath */
  function CleanPath(raw: string): Option<string> {
    var s := Trimmed(Slashed(raw));
    if s == "" || '\0' in s || s[0] == '/' then None
    else if s == "." || s == ".." || !IsClean(s) || "../" <= s || ':' in s then None
    else if exists i | 0 <= i < |Components(s)| :: Reserved(Components(s)[i]) then None
    else Some(s)
  }

  /** A path that stays below the directory it is joined to: no component leads up,
      to the same directory, or to a drive. */
  predicate Safe(path: string) {
    && path != "" && path[0] != '/' && ':' !in path && '\\' !in path && '\0' !in path
    && forall i | 0 <= i < |Components(path)| ::
         Components(path)[i] != "" && Components(path)[i] != "." && Components(path)[i] != ".."
  }

  lemma {:induction false} TrimmedPart(s: string)
    ensures forall c | c in Trimmed(s) :: c in s
    ensures Trimmed(s) != "" ==> !IsSpace(Trimmed(s)[0]) && !IsSpace(Last(Trimmed(s)))
  {
    if s == "" {
    } else if IsSpace(s[0]) {
      TrimmedPart(s[1..]);
    } else {
      TrimmedRightPart(s);
    }
  }

  lemma {:induction false} TrimmedRightPart(s: string)
    requires s != "" && !IsSpace(s[0])
    ensures forall c | c in TrimmedRight(s) :: c in s
    ensures TrimmedRight(s)[0] == s[0] && !IsSpace(Last(TrimmedRight(s)))
  {
    if IsSpace(Last(s)) {
      assert Init(s) != "";
      TrimmedRightPart(Init(s));
    }
  }

  /** An accepted path is safe, and cleaning it again changes nothing. */
  lemma CleanPathSafe(raw: string)
    requires CleanPath(raw).Some?
    ensures Safe(CleanPath(raw).value) && CleanPath(CleanPath(raw).value) == CleanPath(raw)
  {
    var s := CleanPath(raw).value;
    TrimmedPart(Slashed(raw));
    assert '\\' !in Slashed(raw);
    assert '\\' !in s;
    forall i | 0 <= i < |Components(s)|
      ensures Components(s)[i] != "" && Components(s)[i] != "." && Components(s)[i] != ".."
    {
      assert !Reserved(Components(s)[i]);
    }
    assert Slashed(s) == s;
    assert Trimmed(s) == s;
  }

  function UpperAll(s: string): string {
    seq(|s|, i requires 0 <= i < |s| => Upper(s[i]))
  }

  /** What stands before the first dot names a device. */
  predicate Device(component: string) {
    exists n | 0 <= n <= |component| ::
      (n == |component| || component[n] == '.') && '.' !in component[..n] &&
      (UpperAll(component[..n]) in {"CON", "PRN", "AUX", "NUL", "CLOCK$"} ||
       (n == 4 && UpperAll(component[..3]) in {"COM", "LPT"} && '1' <= component[3] <= '9'))
  }

  lemma {:induction false} BaseTells(c: string, n: nat)
    requires n <= |c| && (n == |c| || c[n] == '.') && '.' !in c[..n]
    ensures Base(c) == UpperAll(c[..n])
  {
    if n > 0 {
      assert c[0] == c[..n][0];
      assert c[1..][..n - 1] == c[..n][1..];
      BaseTells(c[1..], n - 1);
      assert UpperAll(c[..n]) == [Upper(c[0])] + UpperAll(c[..n][1..]);
    } else {
      assert c[..0] == "";
    }
  }

  lemma {:induction false} FirstDot(c: string) returns (n: nat)
    ensures n <= |c| && (n == |c| || c[n] == '.') && '.' !in c[..n]
  {
    if c == "" || c[0] == '.' {
      n := 0;
    } else {
      var m := FirstDot(c[1..]);
      n := m + 1;
      assert c[..n] == [c[0]] + c[1..][..m];
    }
  }

  lemma ReservedMeans(c: string)
    ensures Reserved(c) <==> c == "" || Last(c) == '.' || Last(c) == ' ' || Device(c)
  {
    var n := FirstDot(c);
    BaseTells(c, n);
    var base := UpperAll(c[..n]);
    assert Base(c) == base && |base| == n;
    if n == 4 {
      assert base[..3] == UpperAll(c[..3]);
      assert '1' <= base[3] <= '9' <==> '1' <= c[3] <= '9';
    }
    if Device(c) {
      var m :| 0 <= m <= |c| && (m == |c| || c[m] == '.') && '.' !in c[..m] &&
               (UpperAll(c[..m]) in {"CON", "PRN", "AUX", "NUL", "CLOCK$"} ||
                (m == 4 && UpperAll(c[..3]) in {"COM", "LPT"} && '1' <= c[3] <= '9'));
      BaseTells(c, m);
    }
  }

  /** A component that ends in neither a dot nor a space and names no device. */
  predicate Ordinary(component: string) {
    component != "" && Last(component) != '.' && Last(component) != ' ' && !Device(component)
  }

  predicate AllOrdinary(path: string) {
    forall i | 0 <= i < |Components(path)| :: Ordinary(Components(path)[i])
  }

  predicate NoneReserved(path: string) {
    forall i | 0 <= i < |Components(path)| :: !Reserved(Components(path)[i])
  }

  lemma OrdinaryMeans(path: string)
    ensures AllOrdinary(path) <==> NoneReserved(path)
  {
    hide Device, Reserved, Components, Base;
    forall i | 0 <= i < |Components(path)| ensures Ordinary(Components(path)[i]) <==> !Reserved(Components(path)[i]) {
      ReservedMeans(Components(path)[i]);
    }
  }

  /** The paths that are accepted as they are: safe ones without space around them,
      with ordinary components. */
  lemma CleanPathExactly(p: string)
    ensures CleanPath(p) == Some(p) <==> Safe(p) && !IsSpace(p[0]) && !IsSpace(Last(p)) && AllOrdinary(p)
  {
    OrdinaryMeans(p);
    hide AllOrdinary;
    if CleanPath(p) == Some(p) {
      CleanPathSafe(p);
      TrimmedPart(Slashed(p));
      AcceptedReserved(p);
    }
    hide CleanPath;
    if Safe(p) && !IsSpace(p[0]) && !IsSpace(Last(p)) && NoneReserved(p) {
      SafeIsClean(p);
    }
  }

  lemma AcceptedReserved(p: string)
    requires CleanPath(p) == Some(p)
    ensures NoneReserved(p)
  {
    hide Reserved, Components, Safe;
  }

  lemma SafeIsClean(p: string)
    requires Safe(p) && !IsSpace(p[0]) && !IsSpace(Last(p))
    requires NoneReserved(p)
    ensures CleanPath(p) == Some(p)
  {
    hide Reserved, Components;
    assert Slashed(p) == p && Trimmed(p) == p;
    DotsAreComponents(p);
    var cs := Components(p);
    assert cs[0] != "." && cs[0] != "..";
    assert p != "." && p != ".." && !("../" <= p);
    assert IsClean(p);
  }

  /** Paths that lead up have a component that does. */
  lemma DotsAreComponents(p: string)
    ensures p == "." ==> Components(p) == ["."]
    ensures p == ".." ==> Components(p) == [".."]
    ensures "../" <= p ==> Components(p)[0] == ".."
  {
    OneComponent(".");
    OneComponent("..");
    assert ".." + "/" == "../" && '/' !in "..";
    if "../" <= p {
      FirstComponent(p, "..");
    }
  }

  lemma {:induction false} FirstComponent(p: string, first: string)
    requires first + "/" <= p && '/' !in first
    ensures Components(p)[0] == first && |Components(p)| > 1
  {
    if p == first + "/" {
      assert Init(p) == first;
      OneComponent(first);
    } else {
      assert first + "/" <= Init(p);
      FirstComponent(Init(p), first);
    }
  }

  lemma {:induction false} OneComponent(s: string)
    requires '/' !in s
    ensures Components(s) == [s]
  {
    if s != "" {
      OneComponent(Init(s));
      assert Last(s) in s && Init(s) + [Last(s)] == s;
    }
  }

  // ----- Archive and manifest -----

  const MAX_PLAINTEXT := 0x4000_0000

  /** A ZIP entry: whether it is a plain file, and its body unless reading fails. */
  datatype Entry = Entry(name: string, plain: bool, body: Option<Bytes>)

  datatype FileMeta = FileMeta(path: string, size: int, hash: string)

  datatype Manifest = Manifest(version: int, buildId: string, files: seq<FileMeta>)

  /** What lies outside this model: JSON, SHA-256 in hexadecimal, strings.ToLower. */
  datatype Tools = Tools(
    decodeManifest: Bytes -> Option<Manifest>,
    encodeManifest: Manifest -> Bytes,
    hexHash: Bytes -> string,
    lower: string -> string)

  function Contents(zip: seq<Entry>): map<string, Bytes> {
    if zip == [] then map[]
    else
      var m := Contents(Init(zip));
      var name := CleanPath(Last(zip).name);
      if name.Some? && Last(zip).body.Some? then m[name.value := Last(zip).body.value] else m
  }

  function Folds(t: Tools, zip: seq<Entry>): set<string> {
    if zip == [] then {}
    else Folds(t, Init(zip)) + (if CleanPath(Last(zip).name).Some? then {t.lower(CleanPath(Last(zip).name).value)} else {})
  }

  function Total(zip: seq<Entry>): nat {
    if zip == [] then 0 else Total(Init(zip)) + (if Last(zip).body.Some? then |Last(zip).body.value| else 0)
  }

  /** All entries are readable plain files under allowed paths, no two alike even
      when case is ignored, and within the size limits. */
  predicate Listed(t: Tools, zip: seq<Entry>) {
    zip == [] ||
    (Listed(t, Init(zip)) &&
     var e := Last(zip);
     && CleanPath(e.name).Some? && e.plain && e.body.Some?
     && CleanPath(e.name).value !in Contents(Init(zip))
     && t.lower(CleanPath(e.name).value) !in Folds(t, Init(zip))
     && |e.body.value| <= MAX_FILE && Total(zip) <= MAX_PLAINTEXT)
  }

  function PathsOf(files: seq<FileMeta>): set<string> {
    if files == [] then {} else PathsOf(Init(files)) + {Last(files).path}
  }

  function FoldsOf(t: Tools, files: seq<FileMeta>): set<string> {
    if files == [] then {} else FoldsOf(t, Init(files)) + {t.lower(Last(files).path)}
  }

  predicate BodyMatches(t: Tools, f: FileMeta, body: Bytes) {
    |body| == f.size && t.hexHash(body) == t.lower(f.hash)
  }

  /** Every file of the manifest has a clean path, no two alike even when case is
      ignored, and an entry of its size and hash. */
  predicate Matched(t: Tools, entries: map<string, Bytes>, files: seq<FileMeta>) {
    files == [] ||
    (Matched(t, entries, Init(files)) &&
     var f := Last(files);
     && CleanPath(f.path) == Some(f.path)
     && f.path !in PathsOf(Init(files)) && t.lower(f.path) !in FoldsOf(t, Init(files))
     && f.path in entries && BodyMatches(t, f, entries[f.path]))
  }

  /** The manifest an archive carries, if it has one that parses. */
  function ManifestIn(t: Tools, zip: seq<Entry>): Option<Manifest> {
    if MANIFEST_PATH in Contents(zip) then t.decodeManifest(Contents(zip)[MANIFEST_PATH]) else None
  }

  function Payload(zip: seq<Entry>): map<string, Bytes> {
    Contents(zip) - {MANIFEST_PATH}
  }

  /** An archive that agrees with its own manifest and with the envelope header. */
  predicate GoodArchive(t: Tools, zip: seq<Entry>, header: Header) {
    |zip| <= MAX_FILES + 1 && Listed(t, zip) && ManifestIn(t, zip).Some? &&
    var m := ManifestIn(t, zip).value;
    && m.version == 1 && m.buildId == header.buildId && |m.files| == header.fileCount
    && |Payload(zip)| == |m.files| && Matched(t, Payload(zip), m.files)
  }

  lemma {:induction false} ListedPrefix(t: Tools, zip: seq<Entry>, i: nat)
    requires i <= |zip| && Listed(t, zip)
    ensures Listed(t, zip[..i])
  {
    if i < |zip| {
      ListedPrefix(t, Init(zip), i);
      assert Init(zip)[..i] == zip[..i];
    } else {
      assert zip[..i] == zip;
    }
  }

  lemma {:induction false} MatchedPrefix(t: Tools, entries: map<string, Bytes>, files: seq<FileMeta>, i: nat)
    requires i <= |files| && Matched(t, entries, files)
    ensures Matched(t, entries, files[..i])
  {
    if i < |files| {
      MatchedPrefix(t, entries, Init(files), i);
      assert Init(files)[..i] == files[..i];
    } else {
      assert files[..i] == files;
    }
  }

  /** The loop over the archive's entries. */
  method ReadEntries(t: Tools, zip: seq<Entry>) returns (ok: bool, entries: map<string, Bytes>)
    ensures ok == Listed(t, zip) && (ok ==> entries == Contents(zip))
  {
    hide CleanPath;
    entries := map[];
    var folded: set<string> := {};
    var total := 0;
    for i := 0 to |zip|
      invariant Listed(t, zip[..i]) && entries == Contents(zip[..i]) && folded == Folds(t, zip[..i]) && total == Total(zip[..i])
    {
      var e := zip[i];
      assert Init(zip[..i + 1]) == zip[..i] && Last(zip[..i + 1]) == e;
      if Listed(t, zip) {
        ListedPrefix(t, zip, i + 1);
      }
      var rel := CleanPath(e.name);
      if rel.None? || !e.plain || rel.value in entries || t.lower(rel.value) in folded {
        return false, entries;
      }
      folded := folded + {t.lower(rel.value)};
      if e.body.None? || |e.body.value| > MAX_FILE {
        return false, entries;
      }
      total := total + |e.body.value|;
      if total > MAX_PLAINTEXT {
        return false, entries;
      }
      entries := entries[rel.value := e.body.value];
    }
    assert zip[..|zip|] == zip;
    ok := true;
  }

  /** The loop over the manifest's files. */
  method MatchFiles(t: Tools, entries: map<string, Bytes>, files: seq<FileMeta>) returns (ok: bool)
    ensures ok == Matched(t, entries, files)
  {
    hide CleanPath, BodyMatches;
    var seen: set<string>, folded: set<string> := {}, {};
    for i := 0 to |files|
      invariant Matched(t, entries, files[..i]) && seen == PathsOf(files[..i]) && folded == FoldsOf(t, files[..i])
    {
      var f := files[i];
      assert Init(files[..i + 1]) == files[..i] && Last(files[..i + 1]) == f;
      if Matched(t, entries, files) {
        MatchedPrefix(t, entries, files, i + 1);
      }
      if CleanPath(f.path) != Some(f.path) || f.path in seen || t.lower(f.path) in folded {
        return false;
      }
      seen := seen + {f.path};
      folded := folded + {t.lower(f.path)};
      if f.path !in entries || !BodyMatches(t, f, entries[f.path]) {
        return false;
      }
    }
    assert files[..|files|] == files;
    ok := true;
  }

  /** readAndVerifyArchive, on an archive that opens. */
  method ReadAndVerify(t: Tools, zip: seq<Entry>, header: Header) returns (r: Result<(Manifest, map<string, Bytes>)>)
    ensures r.Ok? <==> GoodArchive(t, zip, header)
    ensures r.Ok? ==> Some(r.value.0) == ManifestIn(t, zip) && r.value.1 == Payload(zip)
  {
    hide Listed, Contents, Matched;
    if |zip| > MAX_FILES + 1 {
      return Err;
    }
    var ok, entries := ReadEntries(t, zip);
    if !ok || MANIFEST_PATH !in entries {
      return Err;
    }
    var decoded := t.decodeManifest(entries[MANIFEST_PATH]);
    entries := entries - {MANIFEST_PATH};
    if decoded.None? {
      return Err;
    }
    var manifest := decoded.value;
    if manifest.version != 1 || manifest.buildId != header.buildId || |manifest.files| != header.fileCount {
      return Err;
    }
    if |entries| != |manifest.files| {
      return Err;
    }
    var matched := MatchFiles(t, entries, manifest.files);
    if !matched {
      return Err;
    }
    r := Ok((manifest, entries));
  }

  predicate FileAgrees(t: Tools, entries: map<string, Bytes>, f: FileMeta) {
    Safe(f.path) && f.path in entries && |entries[f.path]| == f.size && t.hexHash(entries[f.path]) == t.lower(f.hash)
  }

  lemma LastAgrees(t: Tools, entries: map<string, Bytes>, files: seq<FileMeta>)
    requires files != [] && Matched(t, entries, files)
    ensures Matched(t, entries, Init(files)) && FileAgrees(t, entries, Last(files))
    ensures Last(files).path !in PathsOf(Init(files))
  {
    hide CleanPath, Safe;
    CleanPathSafe(Last(files).path);
  }

  lemma {:induction false} MatchedPaths(t: Tools, entries: map<string, Bytes>, files: seq<FileMeta>)
    requires Matched(t, entries, files)
    ensures PathsOf(files) <= entries.Keys && |PathsOf(files)| == |files|
  {
    if files != [] {
      LastAgrees(t, entries, files);
      var before, p := PathsOf(Init(files)), Last(files).path;
      assert PathsOf(files) == before + {p} && p in entries;
      hide Matched, FileAgrees, PathsOf;
      MatchedPaths(t, entries, Init(files));
      OneMore(before, p, entries.Keys, |files| - 1);
    }
  }

  lemma {:induction false} MatchedAt(t: Tools, entries: map<string, Bytes>, files: seq<FileMeta>, i: nat)
    requires i < |files| && Matched(t, entries, files)
    ensures FileAgrees(t, entries, files[i])
  {
    LastAgrees(t, entries, files);
    hide Matched, FileAgrees;
    if i < |files| - 1 {
      MatchedAt(t, entries, Init(files), i);
    }
  }

  lemma OneMore(before: set<string>, p: string, all: set<string>, n: nat)
    requires before <= all && p in all && p !in before && |before| == n
    ensures before + {p} <= all && |before + {p}| == n + 1
  {
  }

  /** What acceptance means: the payload's paths are exactly the manifest's, each
      with the size and hash the manifest states, all of them safe to join to a
      directory, and nothing else is in the archive but the manifest. */
  lemma PathsAgree(t: Tools, zip: seq<Entry>, header: Header)
    requires GoodArchive(t, zip, header)
    ensures var m, entries := ManifestIn(t, zip).value, Payload(zip);
            && entries.Keys == PathsOf(m.files) && |zip| == |m.files| + 1 && |PathsOf(m.files)| == |m.files|
            && MANIFEST_PATH !in PathsOf(m.files)
            && m.version == 1 && m.buildId == header.buildId && |m.files| == header.fileCount
            && forall i | 0 <= i < |m.files| :: FileAgrees(t, entries, m.files[i])
  {
    hide Listed, Contents, Matched, FileAgrees;
    var m, entries := ManifestIn(t, zip).value, Payload(zip);
    MatchedPaths(t, entries, m.files);
    forall i | 0 <= i < |m.files| ensures FileAgrees(t, entries, m.files[i]) {
      MatchedAt(t, entries, m.files, i);
    }
    SameSize(PathsOf(m.files), entries.Keys);
    ListedSize(t, zip);
    assert Contents(zip).Keys == entries.Keys + {MANIFEST_PATH};
  }

  lemma SameSize(a: set<string>, b: set<string>)
    requires a <= b && |a| == |b|
    ensures a == b
  {
    assert |b - a| == |b| - |a|;
  }

  lemma {:induction false} ListedSize(t: Tools, zip: seq<Entry>)
    requires Listed(t, zip)
    ensures |Contents(zip)| == |zip|
  {
    hide CleanPath;
    if zip != [] {
      ListedSize(t, Init(zip));
    }
  }

  // ----- What exactly is accepted -----

  /** A readable plain file under an allowed path, of at most 512 MB. */
  predicate Admissible(e: Entry) {
    CleanPath(e.name).Some? && e.plain && e.body.Some? && |e.body.value| <= 0x2000_0000
  }

  predicate SameName(t: Tools, a: Entry, b: Entry) {
    CleanPath(a.name).Some? && CleanPath(b.name).Some? &&
    t.lower(CleanPath(a.name).value) == t.lower(CleanPath(b.name).value)
  }

  lemma {:induction false} FoldsAre(t: Tools, zip: seq<Entry>, f: string)
    ensures f in Folds(t, zip)
            <==> exists i :: 0 <= i < |zip| && CleanPath(zip[i].name).Some? && t.lower(CleanPath(zip[i].name).value) == f
    ensures forall p | p in Contents(zip) :: t.lower(p) in Folds(t, zip)
  {
    hide CleanPath;
    if zip != [] {
      FoldsAre(t, Init(zip), f);
      assert zip == Init(zip) + [Last(zip)];
      if CleanPath(Last(zip).name).Some? && t.lower(CleanPath(Last(zip).name).value) == f {
        assert CleanPath(zip[|zip| - 1].name).Some?;
      }
    }
  }

  /** Every entry is admissible, no two names alike even when case is ignored, and all
      together at most 1 GB. */
  predicate Admitted(t: Tools, zip: seq<Entry>) {
    AllAdmissible(zip) && NoneAlike(t, zip) && Total(zip) <= 0x4000_0000
  }

  predicate AllAdmissible(zip: seq<Entry>) {
    forall i | 0 <= i < |zip| :: Admissible(zip[i])
  }

  predicate NoneAlike(t: Tools, zip: seq<Entry>) {
    forall i, j | 0 <= i < j < |zip| :: !SameName(t, zip[i], zip[j])
  }

  predicate NoneLike(t: Tools, zip: seq<Entry>, e: Entry) {
    forall i | 0 <= i < |zip| :: !SameName(t, zip[i], e)
  }

  lemma AdmissibleSnoc(before: seq<Entry>, e: Entry)
    ensures AllAdmissible(before + [e]) <==> AllAdmissible(before) && Admissible(e)
  {
    hide Admissible;
    var zip := before + [e];
    assert zip[|before|] == e && forall i | 0 <= i < |before| :: zip[i] == before[i];
  }

  lemma AlikeSnoc(t: Tools, before: seq<Entry>, e: Entry)
    ensures NoneAlike(t, before + [e]) <==> NoneAlike(t, before) && NoneLike(t, before, e)
  {
    hide SameName;
    var zip := before + [e];
    assert zip[|before|] == e && forall i | 0 <= i < |before| :: zip[i] == before[i];
    if NoneAlike(t, zip) {
      forall i | 0 <= i < |before| ensures !SameName(t, before[i], e) {
        assert !SameName(t, zip[i], zip[|before|]);
      }
      forall i, j | 0 <= i < j < |before| ensures !SameName(t, before[i], before[j]) {
        assert !SameName(t, zip[i], zip[j]);
      }
    }
  }

  lemma AdmittedSnoc(t: Tools, zip: seq<Entry>)
    requires zip != []
    ensures Admitted(t, zip)
            <==> Admitted(t, Init(zip)) && Admissible(Last(zip)) && Total(zip) <= 0x4000_0000 && NoneLike(t, Init(zip), Last(zip))
  {
    hide Admissible, Total, AllAdmissible, NoneAlike, NoneLike;
    assert zip == Init(zip) + [Last(zip)];
    AdmissibleSnoc(Init(zip), Last(zip));
    AlikeSnoc(t, Init(zip), Last(zip));
    TotalGrows(zip);
  }

  lemma TotalGrows(zip: seq<Entry>)
    requires zip != []
    ensures Total(Init(zip)) <= Total(zip)
  {
  }

  lemma {:induction false} ListedMeans(t: Tools, zip: seq<Entry>)
    ensures Listed(t, zip) <==> Admitted(t, zip)
  {
    hide CleanPath, Admitted;
    if zip == [] {
      NothingAdmitted(t);
    } else {
      ListedMeans(t, Init(zip));
      AdmittedSnoc(t, zip);
      var e := Last(zip);
      if CleanPath(e.name).Some? {
        FoldsAre(t, Init(zip), t.lower(CleanPath(e.name).value));
        hide Folds;
      }
    }
  }

  lemma NothingAdmitted(t: Tools)
    ensures Admitted(t, [])
  {
  }

  /** The body an accepted archive has under a path is that of its entry. */
  lemma {:induction false} ContentsAre(t: Tools, zip: seq<Entry>, i: nat)
    requires Listed(t, zip) && i < |zip|
    ensures CleanPath(zip[i].name).Some? && CleanPath(zip[i].name).value in Contents(zip) &&
            zip[i].body == Some(Contents(zip)[CleanPath(zip[i].name).value])
  {
    hide CleanPath, Folds;
    if i < |zip| - 1 {
      ContentsAre(t, Init(zip), i);
      assert Init(zip)[i] == zip[i];
    }
  }

  /** A clean path with an entry of the size and hash stated. */
  predicate Agreed(t: Tools, entries: map<string, Bytes>, f: FileMeta) {
    CleanPath(f.path) == Some(f.path) && f.path in entries && |entries[f.path]| == f.size &&
    t.hexHash(entries[f.path]) == t.lower(f.hash)
  }

  predicate AllAgreed(t: Tools, entries: map<string, Bytes>, files: seq<FileMeta>) {
    (forall i | 0 <= i < |files| :: Agreed(t, entries, files[i])) &&
    (forall i, j | 0 <= i < j < |files| :: t.lower(files[i].path) != t.lower(files[j].path))
  }

  lemma AllAgreedSnoc(t: Tools, entries: map<string, Bytes>, files: seq<FileMeta>)
    requires files != []
    ensures AllAgreed(t, entries, files)
            <==> AllAgreed(t, entries, Init(files)) && Agreed(t, entries, Last(files)) &&
                 forall i | 0 <= i < |files| - 1 :: t.lower(files[i].path) != t.lower(Last(files).path)
  {
    hide Agreed;
    assert forall i | 0 <= i < |files| - 1 :: files[i] == Init(files)[i];
  }

  lemma {:induction false} FoldsOfAre(t: Tools, files: seq<FileMeta>, f: string)
    ensures f in FoldsOf(t, files) <==> exists i :: 0 <= i < |files| && t.lower(files[i].path) == f
    ensures forall p | p in PathsOf(files) :: t.lower(p) in FoldsOf(t, files)
  {
    if files != [] {
      FoldsOfAre(t, Init(files), f);
      assert forall i | 0 <= i < |files| - 1 :: files[i] == Init(files)[i];
      if t.lower(Last(files).path) == f {
        assert t.lower(files[|files| - 1].path) == f;
      }
    }
  }

  lemma {:induction false} MatchedMeans(t: Tools, entries: map<string, Bytes>, files: seq<FileMeta>)
    ensures Matched(t, entries, files) <==> AllAgreed(t, entries, files)
  {
    hide CleanPath, AllAgreed;
    if files == [] {
      NothingAgreed(t, entries);
    } else {
      MatchedMeans(t, entries, Init(files));
      AllAgreedSnoc(t, entries, files);
      FoldsOfAre(t, Init(files), t.lower(Last(files).path));
      hide FoldsOf, PathsOf;
      assert forall i | 0 <= i < |files| - 1 :: files[i] == Init(files)[i];
    }
  }

  lemma NothingAgreed(t: Tools, entries: map<string, Bytes>)
    ensures AllAgreed(t, entries, [])
  {
  }

  /** An archive is accepted exactly when its entries are admissible, one of them is a
      manifest that parses, the manifest is of version 1 and names the build and the
      number of files of the header, and the other entries are as many files as it
      lists, each of the size and hash it states. */
  lemma AcceptedExactly(t: Tools, zip: seq<Entry>, header: Header)
    ensures GoodArchive(t, zip, header)
            <==> |zip| <= 4097 && Admitted(t, zip) && ".umbraforge/manifest.json" in Contents(zip) &&
                 var m := t.decodeManifest(Contents(zip)[".umbraforge/manifest.json"]);
                 && m.Some? && m.value.version == 1 && m.value.buildId == header.buildId
                 && |m.value.files| == header.fileCount == |zip| - 1
                 && AllAgreed(t, Contents(zip) - {".umbraforge/manifest.json"}, m.value.files)
  {
    hide Listed, Contents, Matched, Admitted, AllAgreed;
    ListedMeans(t, zip);
    if Listed(t, zip) && MANIFEST_PATH in Contents(zip) {
      ListedSize(t, zip);
      var m := t.decodeManifest(Contents(zip)[MANIFEST_PATH]);
      if m.Some? {
        MatchedMeans(t, Payload(zip), m.value.files);
        assert Contents(zip).Keys == Payload(zip).Keys + {MANIFEST_PATH};
        assert |Contents(zip).Keys| == |Payload(zip).Keys| + 1;
      }
    }
  }

  // ----- Installed trees -----

  /** What a walk through a directory finds: files and other things, by path. */
  datatype Node = File(body: Bytes) | Odd

  type Tree = map<string, Node>

  /** A file system can hold these paths: no file stands where another needs a
      directory. */
  predicate Storable(tree: Tree) {
    forall p, q | p in tree && q in tree :: !(p + "/" <= q)
  }

  predicate HasFile(t: Tools, tree: Tree, f: FileMeta) {
    f.path in tree && tree[f.path].File? && |tree[f.path].body| == f.size &&
    t.hexHash(tree[f.path].body) == t.lower(f.hash)
  }

  /** What the walk accepts at one path. */
  predicate Allowed(t: Tools, tree: Tree, m: Manifest, path: string)
    requires path in tree
  {
    tree[path].File? &&
    (if path == MANIFEST_PATH then tree[path].body == t.encodeManifest(m) else path in PathsOf(m.files))
  }

  /** A tree that is exactly the manifest's files, unchanged; a marker, if there is
      one, must be this manifest. */
  predicate Verified(t: Tools, tree: Tree, m: Manifest) {
    && (forall i | 0 <= i < |m.files| :: HasFile(t, tree, m.files[i]))
    && AllAllowed(t, tree, m, tree.Keys)
    && |tree.Keys - {MANIFEST_PATH}| == |PathsOf(m.files)|
  }

  /** The loop over the manifest: every file is there, unchanged. */
  method CheckFiles(t: Tools, tree: Tree, files: seq<FileMeta>) returns (ok: bool, expected: set<string>)
    ensures ok == forall i | 0 <= i < |files| :: HasFile(t, tree, files[i])
    ensures ok ==> expected == PathsOf(files)
  {
    expected := {};
    for i := 0 to |files|
      invariant forall k | 0 <= k < i :: HasFile(t, tree, files[k])
      invariant expected == PathsOf(files[..i])
    {
      var f := files[i];
      assert Init(files[..i + 1]) == files[..i] && Last(files[..i + 1]) == f;
      expected := expected + {f.path};
      if f.path !in tree || !tree[f.path].File? || !BodyMatches(t, f, tree[f.path].body) {
        assert !HasFile(t, tree, files[i]);
        return false, expected;
      }
    }
    assert files[..|files|] == files;
    ok := true;
  }

  /** What the walk does at one path: it objects, or counts a payload file. */
  method Visit(t: Tools, tree: Tree, m: Manifest, path: string, expected: set<string>) returns (ok: bool, counted: nat)
    requires path in tree && expected == PathsOf(m.files)
    ensures ok == Allowed(t, tree, m, path) && counted == if path == MANIFEST_PATH then 0 else 1
  {
    counted := if path == MANIFEST_PATH then 0 else 1;
    if !tree[path].File? {
      return false, counted;
    }
    if path == MANIFEST_PATH {
      return tree[path].body == t.encodeManifest(m), counted;
    }
    ok := path in expected;
  }

  /** The walk through the destination: nothing unexpected is there. */
  method Walk(t: Tools, tree: Tree, m: Manifest, expected: set<string>) returns (ok: bool, seen: nat)
    requires expected == PathsOf(m.files)
    ensures ok == AllAllowed(t, tree, m, tree.Keys)
    ensures ok ==> seen == |tree.Keys - {MANIFEST_PATH}|
  {
    hide Allowed, PathsOf, AllAllowed;
    seen := 0;
    NoneAllowed(t, tree, m);
    var todo := tree.Keys;
    var walked: set<string> := {};
    while todo != {}
      invariant Halves(walked, todo, tree.Keys)
      invariant AllAllowed(t, tree, m, walked)
      invariant seen == |walked - {MANIFEST_PATH}|
      decreases todo
    {
      var path :| path in todo;
      assert path in tree;
      var good, counted := Visit(t, tree, m, path, expected);
      if !good {
        NotAllAllowed(t, tree, m, path);
        return false, seen;
      }
      WalkOne(walked, path);
      AlsoAllowed(t, tree, m, walked, path);
      Advanced(walked, todo, tree.Keys, path);
      todo, walked := todo - {path}, walked + {path};
      seen := seen + counted;
    }
    assert walked == tree.Keys;
    assert AllAllowed(t, tree, m, tree.Keys);
    ok := true;
  }

  predicate Halves(walked: set<string>, todo: set<string>, all: set<string>) {
    walked + todo == all && walked !! todo
  }

  lemma Advanced(walked: set<string>, todo: set<string>, all: set<string>, path: string)
    requires Halves(walked, todo, all) && path in todo
    ensures Halves(walked + {path}, todo - {path}, all)
  {
  }

  predicate AllAllowed(t: Tools, tree: Tree, m: Manifest, paths: set<string>) {
    forall p | p in paths :: p in tree && Allowed(t, tree, m, p)
  }

  lemma NotAllAllowed(t: Tools, tree: Tree, m: Manifest, path: string)
    requires path in tree && !Allowed(t, tree, m, path)
    ensures !AllAllowed(t, tree, m, tree.Keys)
  {
  }

  lemma NoneAllowed(t: Tools, tree: Tree, m: Manifest)
    ensures AllAllowed(t, tree, m, {})
  {
  }

  lemma AlsoAllowed(t: Tools, tree: Tree, m: Manifest, paths: set<string>, path: string)
    requires AllAllowed(t, tree, m, paths) && path in tree && Allowed(t, tree, m, path)
    ensures AllAllowed(t, tree, m, paths + {path})
  {
    hide Allowed;
  }

  /** verifyExtracted on a destination that exists. Its paths come from an accepted
      manifest, so joining them to the destination never leaves it. */
  method VerifyExtracted(t: Tools, tree: Tree, m: Manifest) returns (ok: bool)
    requires forall i | 0 <= i < |m.files| :: Safe(m.files[i].path)
    ensures ok == Verified(t, tree, m)
  {
    hide HasFile, AllAllowed, Safe, PathsOf;
    var there, expected := CheckFiles(t, tree, m.files);
    if !there {
      return false;
    }
    var allowed, seen := Walk(t, tree, m, expected);
    ok := allowed && seen == |expected|;
  }

  lemma WalkOne(walked: set<string>, path: string)
    requires path !in walked
    ensures |walked + {path} - {MANIFEST_PATH}| == |walked - {MANIFEST_PATH}| + (if path == MANIFEST_PATH then 0 else 1)
  {
    if path == MANIFEST_PATH {
      assert walked + {path} - {MANIFEST_PATH} == walked - {MANIFEST_PATH};
    } else {
      assert walked + {path} - {MANIFEST_PATH} == (walked - {MANIFEST_PATH}) + {path};
    }
  }

  function Written(entries: map<string, Bytes>, files: seq<FileMeta>): Tree {
    if files == [] then map[]
    else
      var tree := Written(entries, Init(files));
      if Last(files).path in entries then tree[Last(files).path := File(entries[Last(files).path])] else tree
  }

  /** The tree extract writes: every file of the manifest, then the marker. */
  function Installed(t: Tools, m: Manifest, entries: map<string, Bytes>): Tree {
    Written(entries, m.files)[MANIFEST_PATH := File(t.encodeManifest(m))]
  }

  method WriteTree(t: Tools, m: Manifest, entries: map<string, Bytes>) returns (tree: Tree)
    requires PathsOf(m.files) <= entries.Keys
    ensures tree == Installed(t, m, entries)
    ensures tree.Keys == PathsOf(m.files) + {".umbraforge/manifest.json"}
    ensures tree[".umbraforge/manifest.json"] == File(t.encodeManifest(m))
    ensures forall p | p in PathsOf(m.files) && p != ".umbraforge/manifest.json" :: tree[p] == File(entries[p])
  {
    WrittenFiles(entries, m.files);
    tree := map[];
    for i := 0 to |m.files|
      invariant tree == Written(entries, m.files[..i])
    {
      var path := m.files[i].path;
      assert Init(m.files[..i + 1]) == m.files[..i] && Last(m.files[..i + 1]) == m.files[i];
      PathIn(m.files, i);
      tree := tree[path := File(entries[path])];
    }
    assert m.files[..|m.files|] == m.files;
    tree := tree[MANIFEST_PATH := File(t.encodeManifest(m))];
  }

  lemma {:induction false} PathIn(files: seq<FileMeta>, i: nat)
    requires i < |files|
    ensures files[i].path in PathsOf(files)
  {
    if i < |files| - 1 {
      PathIn(Init(files), i);
    }
  }

  lemma {:induction false} WrittenFiles(entries: map<string, Bytes>, files: seq<FileMeta>)
    requires PathsOf(files) <= entries.Keys
    ensures Written(entries, files).Keys == PathsOf(files)
    ensures forall p | p in PathsOf(files) :: Written(entries, files)[p] == File(entries[p])
  {
    if files != [] {
      WrittenFiles(entries, Init(files));
    }
  }

  /** A tree with every file of the manifest, and the marker beside them. */
  lemma CompleteVerifies(t: Tools, tree: Tree, m: Manifest, entries: map<string, Bytes>)
    requires tree.Keys == PathsOf(m.files) + {MANIFEST_PATH} && MANIFEST_PATH !in PathsOf(m.files)
    requires tree[MANIFEST_PATH] == File(t.encodeManifest(m))
    requires PathsOf(m.files) <= entries.Keys && forall p | p in PathsOf(m.files) :: tree[p] == File(entries[p])
    requires forall i | 0 <= i < |m.files| :: FileAgrees(t, entries, m.files[i])
    ensures Verified(t, tree, m)
  {
    hide Safe, PathsOf;
    assert tree.Keys - {MANIFEST_PATH} == PathsOf(m.files);
    forall i | 0 <= i < |m.files| ensures HasFile(t, tree, m.files[i]) {
      PathIn(m.files, i);
      assert FileAgrees(t, entries, m.files[i]);
    }
  }

  /** The tree written from an accepted archive verifies: so a second extraction of
      the same bundle finds nothing to do. */
  lemma InstalledVerifies(t: Tools, zip: seq<Entry>, header: Header)
    requires GoodArchive(t, zip, header)
    ensures Verified(t, Installed(t, ManifestIn(t, zip).value, Payload(zip)), ManifestIn(t, zip).value)
  {
    var m, entries := ManifestIn(t, zip).value, Payload(zip);
    hide GoodArchive, ManifestIn, Payload, FileAgrees, Written, Verified, PathsOf;
    PathsAgree(t, zip, header);
    WrittenFiles(entries, m.files);
    CompleteVerifies(t, Installed(t, m, entries), m, entries);
  }

  /** A verified tree holds, apart from the marker, the manifest's files and nothing
      else. */
  lemma VerifiedIsExact(t: Tools, tree: Tree, m: Manifest)
    requires Verified(t, tree, m) && MANIFEST_PATH !in PathsOf(m.files)
    ensures tree.Keys - {MANIFEST_PATH} == PathsOf(m.files)
    ensures forall p | p in tree :: tree[p].File?
    ensures MANIFEST_PATH in tree ==> tree[MANIFEST_PATH].body == t.encodeManifest(m)
  {
    forall p | p in PathsOf(m.files) ensures p in tree {
      PathIndex(m.files, p);
    }
    forall p | p in tree ensures Allowed(t, tree, m, p) {
    }
  }

  lemma {:induction false} PathIndex(files: seq<FileMeta>, p: string)
    requires p in PathsOf(files)
    ensures exists i :: 0 <= i < |files| && files[i].path == p
  {
    if Last(files).path != p {
      PathIndex(Init(files), p);
      var i :| 0 <= i < |Init(files)| && Init(files)[i].path == p;
      assert files[i].path == p;
    } else {
      assert files[|files| - 1].path == p;
    }
  }

  /** The marker itself may be missing: the walk never meets it then. */
  lemma MarkerMayBeMissing(t: Tools, tree: Tree, m: Manifest)
    requires Verified(t, tree, m) && MANIFEST_PATH !in PathsOf(m.files)
    ensures Verified(t, tree - {MANIFEST_PATH}, m)
  {
    hide PathsOf;
    var less := tree - {MANIFEST_PATH};
    assert less.Keys - {MANIFEST_PATH} == tree.Keys - {MANIFEST_PATH};
    forall i | 0 <= i < |m.files| ensures HasFile(t, less, m.files[i]) {
      assert HasFile(t, tree, m.files[i]);
      PathIn(m.files, i);
    }
    forall p | p in less ensures Allowed(t, less, m, p) {
      assert Allowed(t, tree, m, p);
    }
  }
}
