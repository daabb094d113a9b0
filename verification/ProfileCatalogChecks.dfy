/**
 Which catalogs are accepted, said without the order of the checks, and what that means
 for everything on disk: each file of the active catalog has the hash that its signed
 profile declares.
 */
module ProfileCatalogChecks {
  import opened Outcomes
  import opened ProfileCatalog
  import opened ProfileCatalogLaws
  import opened ProfileCatalogs
  import opened ProfileCatalogRuns

  // --------------------------------------------------------------- acceptance

  /** A file is what its signed profile declares: the same path and hash, and content of just that hash. */
  predicate FileFits(f: Format, declared: Declared, supplied: Supplied) {
    && supplied.path == declared.path && supplied.sha256 == declared.sha256
    && f.sha256(supplied.content) == declared.sha256
    && 0 < |supplied.content| <= 262_144
  }

  function FilesSize(files: seq<Supplied>): nat {
    if files == [] then 0 else |files[0].content| + FilesSize(files[1..])
  }

  /** The size of everything a catalog brings. */
  function TotalSize(ps: seq<Delivered>): nat {
    if ps == [] then 0 else |ps[0].profileJson| + FilesSize(ps[0].files) + TotalSize(ps[1..])
  }

  /** A profile whose signature holds, that is delivered under its own name, version and digest, with just the files
      it declares. */
  ghost predicate ProfileFits(f: Format, p: Delivered) {
    && 0 < |p.profileJson| <= 262_144
    && f.verify(p.profileJson).Ok?
    && var profile := f.verify(p.profileJson).value;
       && p.profileId == profile.id && p.profileVersion == profile.version && p.contentDigest == profile.digest
       && f.rank(p.profileVersion).Some?
       && |p.files| == |profile.files|
       && (forall j :: 0 < j < |p.files| ==> Before(p.files[j - 1].path, p.files[j].path))
       && (forall j :: 0 <= j < |p.files| ==> FileFits(f, profile.files[j], p.files[j]))
  }

  predicate IsHex(s: string, length: nat) {
    |s| == length && forall i :: 0 <= i < |s| ==> s[i] in "0123456789abcdef"
  }

  ghost predicate WellFormed(c: Catalog) {
    && c.version > 0 && IsHex(c.digest, 64) && IsHex(c.commit, 40) && c.profiles != []
  }

  ghost predicate InOrder(ps: seq<Delivered>) {
    forall i :: 0 < i < |ps| ==> Before(ps[i - 1].profileId, ps[i].profileId)
  }

  /** A newer catalog, or the very same one. */
  ghost predicate NotOlder(c: Catalog, active: Option<ActiveCatalog>) {
    active.Some? ==> c.version > active.value.version
                     || (c.version == active.value.version && c.digest == active.value.digest)
  }

  /** The version of a profile does not go back, and its content does not change at one version. */
  ghost predicate GoesOn(f: Format, before: Profile, p: Delivered) {
    && f.rank(before.version).Some? && f.rank(p.profileVersion).Some?
    && f.rank(before.version).value <= f.rank(p.profileVersion).value
    && (f.rank(before.version) == f.rank(p.profileVersion) ==> p.contentDigest == before.digest)
  }

  ghost predicate AllGoOn(f: Format, active: ActiveCatalog, ps: seq<Delivered>) {
    forall i :: 0 <= i < |ps| && ps[i].profileId in active.profiles ==>
      GoesOn(f, active.profiles[ps[i].profileId], ps[i])
  }

  ghost predicate NoneIsLost(active: ActiveCatalog, ps: seq<Delivered>) {
    forall id :: id in active.profiles ==> exists i :: 0 <= i < |ps| && ps[i].profileId == id
  }

  /** Everything that is delivered is genuine, and not too much. */
  ghost predicate AllFit(f: Format, ps: seq<Delivered>) {
    (forall i :: 0 <= i < |ps| ==> ProfileFits(f, ps[i])) && TotalSize(ps) <= 2_097_152
  }

  /** The digest of the catalog names just these profiles, versions and contents. */
  ghost predicate NamesItsProfiles(f: Format, c: Catalog) {
    f.identity(seq(|c.profiles|, i requires 0 <= i < |c.profiles| =>
                     Entry(c.profiles[i].profileId, c.profiles[i].profileVersion, c.profiles[i].contentDigest)))
    == c.digest
  }

  /** What a catalog must be to be accepted over the active one. */
  ghost predicate Genuine(f: Format, c: Catalog, active: Option<ActiveCatalog>) {
    && WellFormed(c) && NotOlder(c, active) && InOrder(c.profiles) && AllFit(f, c.profiles)
    && NamesItsProfiles(f, c)
    && (active.Some? ==> NoneIsLost(active.value, c.profiles) && AllGoOn(f, active.value, c.profiles))
  }

  lemma {:induction false} FilesAreAcceptedExactly(
    f: Format, id: string, declared: seq<Declared>, supplied: seq<Supplied>, total: nat)
    requires |declared| == |supplied| && total <= 2_097_152
    ensures CheckFiles(f, id, declared, supplied, total).Ok?
            <==> && (forall j :: 0 <= j < |supplied| ==> FileFits(f, declared[j], supplied[j]))
                 && total + FilesSize(supplied) <= 2_097_152
    ensures CheckFiles(f, id, declared, supplied, total).Ok? ==>
              CheckFiles(f, id, declared, supplied, total).value.total == total + FilesSize(supplied)
    decreases |declared|
  {
    if declared != [] {
      var first := CheckFile(f, id, declared[0], supplied[0], total);
      if FileFits(f, declared[0], supplied[0]) && total + |supplied[0].content| <= 2_097_152 {
        FilesAreAcceptedExactly(f, id, declared[1..], supplied[1..], first.value.total);
        assert forall j :: 0 < j < |supplied| ==>
                 declared[j] == declared[1..][j - 1] && supplied[j] == supplied[1..][j - 1];
      }
    }
  }

  lemma ProfileIsAcceptedExactly(f: Format, p: Delivered, total: nat)
    requires total <= 2_097_152
    ensures CheckProfile(f, p, total).Ok?
            <==> ProfileFits(f, p) && total + |p.profileJson| + FilesSize(p.files) <= 2_097_152
    ensures CheckProfile(f, p, total).Ok? ==>
              CheckProfile(f, p, total).value.total == total + |p.profileJson| + FilesSize(p.files)
  {
    var grown := total + |p.profileJson|;
    if f.verify(p.profileJson).Ok? && |p.files| == |f.verify(p.profileJson).value.files| && grown <= 2_097_152 {
      FilesAreAcceptedExactly(f, p.profileId, f.verify(p.profileJson).value.files, p.files, grown);
    }
  }

  lemma {:induction false} ProfilesAreAcceptedExactly(f: Format, ps: seq<Delivered>, total: nat)
    requires total <= 2_097_152
    ensures CheckProfiles(f, ps, total).Ok?
            <==> (forall i :: 0 <= i < |ps| ==> ProfileFits(f, ps[i])) && total + TotalSize(ps) <= 2_097_152
    decreases |ps|
  {
    hide CheckProfile, ProfileFits;
    if ps != [] {
      ProfileIsAcceptedExactly(f, ps[0], total);
      if CheckProfile(f, ps[0], total).Ok? {
        ProfilesAreAcceptedExactly(f, ps[1..], CheckProfile(f, ps[0], total).value.total);
      }
      assert forall i :: 0 < i < |ps| ==> ps[i] == ps[1..][i - 1];
    }
  }

  lemma {:induction false} EntriesAreAcceptedExactly(f: Format, active: ActiveCatalog, ps: seq<Delivered>)
    ensures CheckEntries(f, active, Entries(ps)).Ok? <==> AllGoOn(f, active, ps)
    decreases |ps|
  {
    if ps != [] {
      EntriesAreAcceptedExactly(f, active, ps[1..]);
      assert Entries(ps)[1..] == Entries(ps[1..]) && Entries(ps)[0] == EntryOf(ps[0]);
      assert forall i :: 0 < i < |ps| ==> ps[i] == ps[1..][i - 1];
    }
  }

  lemma UpgradeIsAcceptedExactly(f: Format, active: Option<ActiveCatalog>, ps: seq<Delivered>)
    ensures CheckUpgrade(f, active, ps).Ok?
            <==> (active.Some? ==> NoneIsLost(active.value, ps) && AllGoOn(f, active.value, ps))
  {
    if active.Some? {
      EntriesAreAcceptedExactly(f, active.value, ps);
    }
  }

  lemma HexIsHex(s: string, length: nat)
    ensures IsLowerHex(s, length) <==> IsHex(s, length)
  {
    forall i | 0 <= i < |s|
      ensures ('0' <= s[i] <= '9' || 'a' <= s[i] <= 'f') <==> s[i] in "0123456789abcdef"
    {
      HexDigits(s[i]);
    }
  }

  lemma HexDigits(c: char)
    ensures ('0' <= c <= '9' || 'a' <= c <= 'f') <==> c in "0123456789abcdef"
  {
    var digits := "0123456789abcdef";
    if '0' <= c <= '9' {
      assert digits[c as int - '0' as int] == c;
    } else if 'a' <= c <= 'f' {
      assert digits[c as int - 'a' as int + 10] == c;
    }
  }

  lemma ChecksAreExact(f: Format, c: Catalog, active: Option<ActiveCatalog>)
    ensures CheckProfiles(f, c.profiles, 0).Ok? <==> AllFit(f, c.profiles)
    ensures CheckUpgrade(f, active, c.profiles).Ok?
            <==> (active.Some? ==> NoneIsLost(active.value, c.profiles) && AllGoOn(f, active.value, c.profiles))
    ensures (f.identity(Entries(c.profiles)) == c.digest) <==> NamesItsProfiles(f, c)
    ensures WellFormed(c) <==>
            c.version != 0 && IsLowerHex(c.digest, 64) && IsLowerHex(c.commit, 40) && c.profiles != []
  {
    hide CheckProfiles, CheckUpgrade, AllGoOn, NoneIsLost, ProfileFits, IsHex, IsLowerHex, TotalSize;
    ProfilesAreAcceptedExactly(f, c.profiles, 0);
    UpgradeIsAcceptedExactly(f, active, c.profiles);
    HexIsHex(c.digest, 64);
    HexIsHex(c.commit, 40);
    assert Entries(c.profiles)
        == seq(|c.profiles|, i requires 0 <= i < |c.profiles| =>
                 Entry(c.profiles[i].profileId, c.profiles[i].profileVersion, c.profiles[i].contentDigest));
  }

  /** A delivered catalog is accepted exactly when it is genuine, and then recorded as it is. */
  lemma CatalogIsAcceptedExactly(f: Format, c: Catalog, active: Option<ActiveCatalog>)
    ensures Validate(f, c, active).Ok? <==> Genuine(f, c, active)
    ensures Validate(f, c, active).Ok? ==>
              var m := Validate(f, c, active).value.manifest;
              && m.version == c.version && m.digest == c.digest && m.commit == c.commit
              && |m.entries| == |c.profiles|
              && forall i :: 0 <= i < |m.entries| ==>
                   m.entries[i] == Entry(c.profiles[i].profileId, c.profiles[i].profileVersion,
                                         c.profiles[i].contentDigest)
  {
    hide CheckProfiles, CheckUpgrade, AllFit, WellFormed, NamesItsProfiles, IsLowerHex, NoneIsLost, AllGoOn;
    ChecksAreExact(f, c, active);
  }

  /** A refusal says what is wrong with the catalog as a whole, in this order. */
  lemma RefusedCatalogIsToldWhy(f: Format, c: Catalog, active: Option<ActiveCatalog>)
    requires !Genuine(f, c, active)
    ensures var r := Validate(f, c, active);
            if !WellFormed(c) then r == Err(Invalid("schema_invalid"))
            else if !NotOlder(c, active) then r == Err(Invalid("version_stale"))
            else if !InOrder(c.profiles) then r == Err(Invalid("profile_order_invalid"))
            else if AllFit(f, c.profiles) && active.Some? && !NoneIsLost(active.value, c.profiles)
            then r == Err(Invalid("profile_removed"))
            else if AllFit(f, c.profiles) && (active.Some? ==> AllGoOn(f, active.value, c.profiles))
            then r == Err(Invalid("digest_mismatch"))
            else r.Err?
  {
    hide CheckProfiles, AllFit, WellFormed, NamesItsProfiles, IsLowerHex, AllGoOn, CheckEntries, Invalid;
    ChecksAreExact(f, c, active);
  }

  // ------------------------------------------------------------------ on disk

  /** What a generation holds is what its signed profiles declare, file by file. */
  ghost predicate Intact(f: Format, g: Generation, profiles: map<string, Profile>) {
    forall id :: id in profiles ==>
      && FileKey(id, ["profile.json"]) in g.files
      && f.verify(g.files[FileKey(id, ["profile.json"])]) == Ok(profiles[id])
      && profiles[id].id == id
      && forall j :: 0 <= j < |profiles[id].files| ==> HoldsDeclared(f, g, id, profiles[id].files[j])
  }

  predicate HoldsDeclared(f: Format, g: Generation, id: string, declared: Declared) {
    var key := FileKey(id, f.resolve(declared.path));
    key in g.files && f.sha256(g.files[key]) == declared.sha256
  }

  lemma {:induction false} FilesAreRead(f: Format, g: Generation, id: string, declared: seq<Declared>)
    requires ReadFiles(f, g, id, declared).Ok?
    ensures var files := ReadFiles(f, g, id, declared).value;
            && |files| == |declared|
            && forall j :: 0 <= j < |files| ==>
                 && FileKey(id, f.resolve(declared[j].path)) in g.files
                 && files[j].content == g.files[FileKey(id, f.resolve(declared[j].path))]
    decreases |declared|
  {
    if declared != [] {
      FilesAreRead(f, g, id, declared[1..]);
      var files := ReadFiles(f, g, id, declared).value;
      assert forall j :: 0 < j < |files| ==>
               declared[j] == declared[1..][j - 1] && files[j] == ReadFiles(f, g, id, declared[1..]).value[j - 1];
    }
  }

  /** The profile was read from this generation. */
  ghost predicate ComesFrom(f: Format, g: Generation, p: Delivered) {
    && FileKey(p.profileId, ["profile.json"]) in g.files
    && p.profileJson == g.files[FileKey(p.profileId, ["profile.json"])]
    && f.verify(p.profileJson).Ok?
    && var declared := f.verify(p.profileJson).value.files;
       && |p.files| == |declared|
       && forall j :: 0 <= j < |p.files| ==>
            && FileKey(p.profileId, f.resolve(declared[j].path)) in g.files
            && p.files[j].content == g.files[FileKey(p.profileId, f.resolve(declared[j].path))]
  }

  lemma {:induction false} ProfilesAreRead(f: Format, g: Generation, es: seq<Entry>)
    requires ReadProfiles(f, g, es).Ok?
    ensures forall i :: 0 <= i < |ReadProfiles(f, g, es).value| ==> ComesFrom(f, g, ReadProfiles(f, g, es).value[i])
    decreases |es|
  {
    if es != [] {
      ProfileIsRead(f, g, es[0]);
      ProfilesAreRead(f, g, es[1..]);
    }
  }

  lemma ProfileIsRead(f: Format, g: Generation, e: Entry)
    requires ReadProfile(f, g, e).Ok?
    ensures ComesFrom(f, g, ReadProfile(f, g, e).value)
  {
    FilesAreRead(f, g, e.profileId, f.verify(g.files[FileKey(e.profileId, ["profile.json"])]).value.files);
  }

  lemma ProfileIsIntact(f: Format, g: Generation, p: Delivered)
    requires ComesFrom(f, g, p) && ProfileFits(f, p)
    ensures Intact(f, g, map[p.profileId := f.verify(p.profileJson).value])
  {
    var profile := f.verify(p.profileJson).value;
    forall j | 0 <= j < |profile.files|
      ensures HoldsDeclared(f, g, p.profileId, profile.files[j])
    {
      assert FileFits(f, profile.files[j], p.files[j]);
    }
  }

  lemma GenerationIsIntact(f: Format, g: Generation)
    requires LoadGeneration(f, g).Ok?
    ensures Intact(f, g, LoadGeneration(f, g).value.profiles)
  {
    hide ProfileFits, ComesFrom;
    var m := g.manifest.value.manifest;
    var ps := ReadProfiles(f, g, m.entries).value;
    var c := Catalog(m.version, m.digest, m.commit, ps);
    var profiles := LoadGeneration(f, g).value.profiles;
    ProfilesAreRead(f, g, m.entries);
    CatalogIsAcceptedExactly(f, c, None);
    FittingProfilesVerify(f, ps);
    ProfilesAreDelivered(f, ps);
    forall id | id in profiles
      ensures Intact(f, g, map[id := profiles[id]])
    {
      var i :| 0 <= i < |ps| && ps[i].profileId == id && f.verify(ps[i].profileJson) == Ok(profiles[id]);
      ProfileIsIntact(f, g, ps[i]);
    }
    IntactEach(f, g, profiles);
  }

  lemma FittingProfilesVerify(f: Format, ps: seq<Delivered>)
    requires AllFit(f, ps)
    ensures forall i :: 0 <= i < |ps| ==> f.verify(ps[i].profileJson).Ok?
  {
    assert forall i :: 0 <= i < |ps| ==> ProfileFits(f, ps[i]);
  }

  lemma IntactEach(f: Format, g: Generation, profiles: map<string, Profile>)
    requires forall id :: id in profiles ==> Intact(f, g, map[id := profiles[id]])
    ensures Intact(f, g, profiles)
  {
    forall id | id in profiles
      ensures FileKey(id, ["profile.json"]) in g.files
      ensures f.verify(g.files[FileKey(id, ["profile.json"])]) == Ok(profiles[id]) && profiles[id].id == id
      ensures forall j :: 0 <= j < |profiles[id].files| ==> HoldsDeclared(f, g, id, profiles[id].files[j])
    {
      var one := map[id := profiles[id]];
      assert id in one && Intact(f, g, one);
    }
  }

  /** Whatever is loaded as the active catalog has, for every profile, the signed document and every file that it
      declares, with content of the declared hash. */
  lemma ActiveFilesAreGenuine(f: Format, d: Disk)
    requires LoadActive(f, d).Ok? && LoadActive(f, d).value.Some?
    ensures var a := LoadActive(f, d).value.value;
            && ActiveName(a) in d.generations
            && Intact(f, d.generations[ActiveName(a)], a.profiles)
  {
    CurrentNamesTheActive(f, d);
    GenerationIsIntact(f, d.generations[ActiveName(LoadActive(f, d).value.value)]);
  }

  /** So it is at every point of a run of stagings, activations and restarts. */
  lemma RunFilesAreGenuine(f: Format, run: seq<Snapshot>, i: nat)
    requires IsRun(f, run) && i < |run| && run[i].active.Some?
    ensures var a := run[i].active.value;
            && ActiveName(a) in run[i].disk.generations
            && Intact(f, run[i].disk.generations[ActiveName(a)], a.profiles)
  {
    RunIsGood(f, run, i);
    ActiveFilesAreGenuine(f, run[i].disk);
  }
}
