/**
 The catalog store over its directory. Every access to the directory may fail and
 may leave part of its work behind; the directory remembers each state it went
 through, so that what a crash can leave is the set of those states.
 */
module ProfileCatalogs {
  import opened Outcomes
  import opened ProfileCatalog
  import opened ProfileCatalogLaws

  /** What the next access does: it works, or it breaks off leaving something behind. */
  datatype Fault = Works | Breaks(leaves: bool, bytes: Bytes, rest: Generation)

  /** Which part of the directory an access may change. */
  datatype Scope = InGeneration(name: string) | InTemps

  ghost predicate Within(d: Disk, e: Disk, scope: Scope) {
    && e.current == d.current
    && match scope
       case InGeneration(name) => e.temps == d.temps && e.generations - {name} == d.generations - {name}
       case InTemps => e.generations == d.generations
  }

  class CatalogDirectory {
    var disk: Disk
    var faults: seq<Fault>
    ghost var trace: seq<Disk>

    constructor (disk: Disk, faults: seq<Fault>)
      ensures this.disk == disk && this.faults == faults && trace == []
    {
      this.disk, this.faults, trace := disk, faults, [];
    }

    method NextFault() returns (fault: Fault)
      modifies this`faults
      ensures fault == if old(faults) == [] then Works else old(faults)[0]
      ensures faults == if old(faults) == [] then [] else old(faults)[1..]
    {
      fault := Works;
      if faults != [] {
        fault := faults[0];
        faults := faults[1..];
      }
    }

    /** An access that only reads, or whose effect no reader sees. */
    method Access() returns (ok: bool)
      modifies this`faults
      ensures ok <==> old(faults) == [] || old(faults)[0].Works?
      ensures faults == if old(faults) == [] then [] else old(faults)[1..]
    {
      var fault := NextFault();
      ok := fault.Works?;
    }

    method Store(d: Disk)
      modifies this`disk, this`trace
      ensures disk == d && trace == old(trace) + [d]
    {
      disk := d;
      trace := trace + [d];
    }

    method MakeGeneration(name: string) returns (ok: bool)
      modifies this
      ensures Within(old(disk), disk, InGeneration(name)) && trace == old(trace) + [disk]
      ensures ok ==> disk == old(disk).(generations := old(disk).generations[name := Generation(map[], None)])
      ensures old(faults) == [] ==> faults == [] && ok == (name !in old(disk).generations)
    {
      var fault := NextFault();
      ok := fault.Works? && name !in disk.generations;
      Store(if ok then disk.(generations := disk.generations[name := Generation(map[], None)]) else disk);
    }

    /** Creates a file that must not exist yet; a write that breaks off may leave part of it. */
    method WriteFile(name: string, key: FileKey, bytes: Bytes) returns (ok: bool)
      modifies this
      ensures Within(old(disk), disk, InGeneration(name)) && trace == old(trace) + [disk]
      ensures ok ==>
                && name in old(disk).generations
                && var g := old(disk).generations[name];
                   && key !in g.files
                   && disk == old(disk).(generations :=
                                old(disk).generations[name := g.(files := g.files[key := bytes])])
      ensures old(faults) == [] ==>
                && faults == []
                && ok == (name in old(disk).generations && key !in old(disk).generations[name].files)
    {
      var fault := NextFault();
      var written := if fault.Works? then bytes else fault.bytes;
      ok := fault.Works? && name in disk.generations && key !in disk.generations[name].files;
      if name in disk.generations && key !in disk.generations[name].files && (ok || (fault.Breaks? && fault.leaves)) {
        var g := disk.generations[name];
        Store(disk.(generations := disk.generations[name := g.(files := g.files[key := written])]));
      } else {
        Store(disk);
      }
    }

    method WriteManifest(name: string, manifest: Manifest) returns (ok: bool)
      modifies this
      ensures Within(old(disk), disk, InGeneration(name)) && trace == old(trace) + [disk]
      ensures ok ==>
                && name in old(disk).generations
                && var g := old(disk).generations[name];
                   disk == old(disk).(generations :=
                             old(disk).generations[name := g.(manifest := Some(ManifestText(manifest)))])
      ensures old(faults) == [] ==>
                && faults == []
                && ok == (name in old(disk).generations && old(disk).generations[name].manifest.None?)
    {
      var fault := NextFault();
      var written := if fault.Works? then ManifestText(manifest) else Junk;
      ok := fault.Works? && name in disk.generations && disk.generations[name].manifest.None?;
      if name in disk.generations && disk.generations[name].manifest.None? && (ok || (fault.Breaks? && fault.leaves)) {
        var g := disk.generations[name];
        Store(disk.(generations := disk.generations[name := g.(manifest := Some(written))]));
      } else {
        Store(disk);
      }
    }

    /** Removes a generation with all its files; when that breaks off, anything of it may be left. */
    method RemoveGeneration(name: string) returns (ok: bool)
      modifies this
      ensures Within(old(disk), disk, InGeneration(name)) && trace == old(trace) + [disk]
      ensures ok ==> disk == old(disk).(generations := old(disk).generations - {name})
      ensures old(faults) == [] ==> faults == [] && ok == (name in old(disk).generations)
    {
      var fault := NextFault();
      ok := fault.Works? && name in disk.generations;
      if ok {
        Store(disk.(generations := disk.generations - {name}));
      } else if name in disk.generations && fault.Breaks? && fault.leaves {
        Store(disk.(generations := disk.generations[name := fault.rest]));
      } else {
        Store(disk);
      }
    }

    method WriteTemp(temp: string, generation: string) returns (ok: bool)
      modifies this
      ensures Within(old(disk), disk, InTemps) && trace == old(trace) + [disk]
      ensures ok ==> temp in disk.temps && disk.temps[temp] == PointerText(generation)
      ensures old(faults) == [] ==> faults == [] && ok == (temp !in old(disk).temps)
    {
      var fault := NextFault();
      var written := if fault.Works? then PointerText(generation) else Junk;
      ok := fault.Works? && temp !in disk.temps;
      if temp !in disk.temps && (ok || (fault.Breaks? && fault.leaves)) {
        Store(disk.(temps := disk.temps[temp := written]));
      } else {
        Store(disk);
      }
    }

    method RemoveTemp(temp: string) returns (ok: bool)
      modifies this
      ensures Within(old(disk), disk, InTemps) && trace == old(trace) + [disk]
      ensures if ok then disk.temps == old(disk).temps - {temp} else disk == old(disk)
      ensures old(faults) == [] ==> faults == []
    {
      var fault := NextFault();
      ok := fault.Works? && temp in disk.temps;
      Store(if ok then disk.(temps := disk.temps - {temp}) else disk);
    }

    /** Renames a temporary file over `current.json`: all of it happens or nothing. */
    method ReplaceCurrent(temp: string) returns (ok: bool)
      requires temp in disk.temps
      modifies this
      ensures trace == old(trace) + [disk]
      ensures disk == if ok then old(disk).(current := Some(old(disk).temps[temp]), temps := old(disk).temps - {temp})
                      else old(disk)
      ensures old(faults) == [] ==> faults == [] && ok
    {
      var fault := NextFault();
      ok := fault.Works?;
      Store(if ok then disk.(current := Some(disk.temps[temp]), temps := disk.temps - {temp}) else disk);
    }
  }

  // ---------------------------------------------------------------- snapshots

  /** The store and its directory at one moment. */
  datatype Snapshot = Snapshot(disk: Disk, active: Option<ActiveCatalog>, pending: Option<Candidate>)

  /** An active catalog is the one `current.json` loads; a pending one is complete on disk and upgrades it. */
  ghost predicate Good(f: Format, s: Snapshot) {
    && (s.active.Some? ==> LoadActive(f, s.disk) == Ok(s.active))
    && (s.pending.Some? ==>
          && IsLowerHex(s.pending.value.manifest.digest, 64)
          && LoadNamed(f, s.disk, NameOf(s.pending.value.manifest)) == Ok(s.pending.value)
          && (s.active.Some? ==> Upgrades(f, s.active.value, ActiveOf(s.pending.value))))
  }

  /** `current.json` is as it was, and still loads the active catalog. */
  ghost predicate Steady(f: Format, s: Snapshot, d: Disk) {
    d.current == s.disk.current && (s.active.Some? ==> LoadActive(f, d) == Ok(s.active))
  }

  /** What a crash may leave: the old catalog, or the pending one, complete. */
  ghost predicate Survivable(f: Format, s: Snapshot, d: Disk) {
    Steady(f, s, d) || (s.pending.Some? && LoadActive(f, d) == Ok(Some(ActiveOf(s.pending.value))))
  }

  /** Every state the directory went through between two moments can be survived. */
  ghost predicate Survives(f: Format, s: Snapshot, before: seq<Disk>, after: seq<Disk>) {
    before <= after && forall i :: |before| <= i < |after| ==> Survivable(f, s, after[i])
  }

  /** The generation an access may change is not the active one. */
  lemma ElsewhereIsSteady(f: Format, s: Snapshot, d: Disk, e: Disk, scope: Scope)
    requires Within(d, e, scope) && Steady(f, s, d)
    requires s.active.Some? && scope.InGeneration? ==> scope.name != ActiveName(s.active.value)
    ensures Steady(f, s, e)
  {
    if s.active.Some? {
      CurrentNamesTheActive(f, d);
      var name := ActiveName(s.active.value);
      assert scope.InGeneration? ==> name in d.generations - {scope.name} && name in e.generations - {scope.name};
      LoadActiveReadsOneGeneration(f, d, e);
    }
  }

  /** A generation that is not touched loads as before. */
  lemma ElsewhereLoadsTheSame(f: Format, d: Disk, e: Disk, scope: Scope, name: string)
    requires Within(d, e, scope) && (scope.InGeneration? ==> scope.name != name)
    ensures LoadNamed(f, d, name) == LoadNamed(f, e, name)
  {
    if scope.InGeneration? {
      assert name in d.generations <==> name in d.generations - {scope.name};
      assert name in e.generations <==> name in e.generations - {scope.name};
      assert name in d.generations ==> (d.generations - {scope.name})[name] == d.generations[name];
      assert name in e.generations ==> (e.generations - {scope.name})[name] == e.generations[name];
    }
  }

  lemma AfterTwice(a: seq<StagedFile>, b: seq<StagedFile>, rest: Result<Checked>)
    ensures After(a, After(b, rest)) == After(a + b, rest)
  {
    if rest.Ok? {
      assert a + (b + rest.value.files) == a + b + rest.value.files;
    }
  }

  lemma AfterNothing(rest: Result<Checked>, files: seq<StagedFile>, total: nat)
    ensures After([], rest) == rest
    ensures After(files, Ok(Checked([], total))) == Ok(Checked(files, total))
  {
    if rest.Ok? {
      assert [] + rest.value.files == rest.value.files;
    }
    assert files + [] == files;
  }

  lemma NewIsElsewhere(f: Format, c: Catalog, active: Option<ActiveCatalog>, candidate: Candidate)
    requires Validate(f, c, active) == Ok(candidate)
    requires active.Some? && active.value.version == candidate.manifest.version ==>
               active.value.digest != candidate.manifest.digest
    ensures IsLowerHex(candidate.manifest.digest, 64)
    ensures active.Some? ==> NameOf(candidate.manifest) != ActiveName(active.value)
    ensures active.Some? ==> Upgrades(f, active.value, ActiveOf(candidate))
  {
    if active.Some? {
      assert candidate.manifest.version != active.value.version;
      ValidatedUpgrades(f, c, active.value);
      if NameOf(candidate.manifest) == ActiveName(active.value) {
        NamesAreInjective(candidate.manifest.version, candidate.manifest.digest,
                          active.value.version, active.value.digest);
      }
    }
  }

  /** Work on one generation keeps the store good, and a candidate completed there may become pending. */
  lemma WorkElsewhereIsGood(f: Format, s: Snapshot, d: Disk, m: Manifest)
    requires Good(f, s) && Within(s.disk, d, InGeneration(NameOf(m)))
    requires s.active.Some? ==> NameOf(m) != ActiveName(s.active.value)
    requires s.pending.Some? ==> s.pending.value.manifest.version != m.version
    ensures Good(f, s.(disk := d)) && Steady(f, s, d)
  {
    ElsewhereIsSteady(f, s, s.disk, d, InGeneration(NameOf(m)));
    if s.pending.Some? {
      var p := s.pending.value.manifest;
      if NameOf(p) == NameOf(m) {
        NamesAreInjective(p.version, p.digest, m.version, m.digest);
      }
      ElsewhereLoadsTheSame(f, s.disk, d, InGeneration(NameOf(m)), NameOf(p));
    }
  }

  lemma TempsAreElsewhere(f: Format, s: Snapshot, d: Disk)
    requires Good(f, s) && Within(s.disk, d, InTemps)
    ensures Good(f, s.(disk := d)) && Steady(f, s, d)
  {
    ElsewhereIsSteady(f, s, s.disk, d, InTemps);
  }

  /** Once `current.json` names the pending generation it loads the pending catalog. */
  lemma CurrentLoadsPending(f: Format, s: Snapshot, d: Disk)
    requires Good(f, s) && s.pending.Some?
    requires d.generations == s.disk.generations && d.current == Some(PointerText(NameOf(s.pending.value.manifest)))
    ensures LoadActive(f, d) == Ok(Some(ActiveOf(s.pending.value)))
  {
    NamesAreNames(s.pending.value.manifest.version, s.pending.value.manifest.digest);
  }

  predicate IsActive(active: Option<ActiveCatalog>, c: Catalog) {
    active.Some? && active.value.version == c.version && active.value.digest == c.digest
  }

  predicate DistinctKeys(files: seq<StagedFile>) {
    forall i, j :: 0 <= i < j < |files| ==> files[i].key != files[j].key
  }

  /** What a generation holds while its files are being written. */
  ghost predicate Written(g: Generation, files: seq<StagedFile>) {
    && g.manifest.None?
    && HoldsFiles(g, files) && DistinctKeys(files)
    && (forall key :: key in g.files ==> exists k :: 0 <= k < |files| && files[k].key == key)
  }

  lemma OneMoreWritten(g: Generation, files: seq<StagedFile>, file: StagedFile)
    requires Written(g, files) && file.key !in g.files
    ensures Written(g.(files := g.files[file.key := file.bytes]), files + [file])
  {
    var h := g.(files := g.files[file.key := file.bytes]);
    var all := files + [file];
    assert all[|files|] == file;
    forall key | key in h.files
      ensures exists k :: 0 <= k < |all| && all[k].key == key
    {
      if key != file.key {
        var k :| 0 <= k < |files| && files[k].key == key;
        assert all[k].key == key;
      }
    }
  }

  lemma NextIsNew(g: Generation, files: seq<StagedFile>, i: nat)
    requires i < |files| && Written(g, files[..i]) && DistinctKeys(files)
    ensures files[i].key !in g.files
  {
  }

  lemma WrittenMeans(g: Generation, files: seq<StagedFile>, manifest: Manifest)
    requires Written(g, files)
    ensures g.manifest.None? && DistinctKeys(files)
    ensures HoldsFiles(g.(manifest := Some(ManifestText(manifest))), files)
  {
  }

  lemma NothingWritten()
    ensures Written(Generation(map[], None), [])
  {
  }

  predicate Fits(f: Format, candidate: Candidate) {
    DistinctKeys(candidate.files) && f.manifestSize(candidate.manifest) <= MAX_CATALOG_BYTES
  }

  predicate IsTempName(name: string) {
    |name| >= 12 && name[..8] == "current-" && name[|name| - 4..] == ".tmp"
  }

  predicate IsGenerationEntry(name: string) {
    |name| >= 2 && name[..2] == "c-"
  }

  class ProfileCatalogStore {
    const root: CatalogDirectory
    const format: Format
    var active: Option<ActiveCatalog>
    var pending: Option<Candidate>

    ghost function View(): Snapshot
      reads this, root
    {
      Snapshot(root.disk, active, pending)
    }

    // ------------------------------------------------------------ validation

    /** The files of one delivered profile, one after the other. */
    method CheckSuppliedFiles(id: string, declared: seq<Declared>, supplied: seq<Supplied>, start: nat)
      returns (r: Result<Checked>)
      requires |declared| == |supplied|
      ensures r == CheckFiles(format, id, declared, supplied, start)
    {
      var total: nat := start;
      var files: seq<StagedFile> := [];
      assert declared[0..] == declared && supplied[0..] == supplied;
      AfterNothing(CheckFiles(format, id, declared, supplied, start), [], 0);
      for i := 0 to |declared|
        invariant CheckFiles(format, id, declared, supplied, start) ==
                  After(files, CheckFiles(format, id, declared[i..], supplied[i..], total))
      {
        assert declared[i..][1..] == declared[i + 1..] && supplied[i..][1..] == supplied[i + 1..];
        var file := supplied[i];
        var grown := total + |file.content|;
        if declared[i].path != file.path
           || declared[i].sha256 != file.sha256
           || file.content == []
           || |file.content| > MAX_PROFILE_BYTES
           || grown > MAX_CATALOG_BYTES
           || format.sha256(file.content) != file.sha256 {
          return Err(Invalid("profile_file_mismatch"));
        }
        var staged := StagedFile(FileKey(id, format.resolve(file.path)), file.content);
        AfterTwice(files, [staged], CheckFiles(format, id, declared[i + 1..], supplied[i + 1..], grown));
        files, total := files + [staged], grown;
      }
      AfterNothing(Ok(Checked([], total)), files, total);
      return Ok(Checked(files, total));
    }

    method CheckDelivered(p: Delivered, start: nat) returns (r: Result<Checked>)
      ensures r == CheckProfile(format, p, start)
      ensures r.Ok? ==> format.verify(p.profileJson).Ok?
    {
      var total := start + |p.profileJson|;
      if p.profileJson == [] || |p.profileJson| > MAX_PROFILE_BYTES || total > MAX_CATALOG_BYTES {
        return Err(Invalid("size_exceeded"));
      }
      var verified := format.verify(p.profileJson);
      if verified.Err? {
        return Err(verified.code);
      }
      var profile := verified.value;
      if p.profileId != profile.id || p.profileVersion != profile.version || p.contentDigest != profile.digest
         || format.rank(p.profileVersion).None? {
        return Err(Invalid("profile_mismatch"));
      }
      if !FilesInOrder(p.files) || |p.files| != |profile.files| {
        return Err(Invalid("profile_file_mismatch"));
      }
      r := CheckSuppliedFiles(p.profileId, profile.files, p.files, total);
      if r.Ok? {
        r := Ok(Checked(r.value.files + [ProfileFile(p)], r.value.total));
      }
    }

    /** All delivered profiles in order, with the running size. */
    method CheckAllDelivered(ps: seq<Delivered>) returns (r: Result<Checked>, verified: map<string, Profile>)
      ensures r == CheckProfiles(format, ps, 0)
      ensures r.Ok? ==> verified == Profiles(format, ps)
    {
      var total: nat := 0;
      var files: seq<StagedFile> := [];
      verified := map[];
      assert ps[0..] == ps;
      AfterNothing(CheckProfiles(format, ps, 0), [], 0);
      for i := 0 to |ps|
        invariant CheckProfiles(format, ps, 0) == After(files, CheckProfiles(format, ps[i..], total))
        invariant verified == Profiles(format, ps[..i])
      {
        assert ps[i..][1..] == ps[i + 1..];
        assert ps[..i + 1][..i] == ps[..i];
        var checked := CheckDelivered(ps[i], total);
        if checked.Err? {
          return Err(checked.code), verified;
        }
        AfterTwice(files, checked.value.files, CheckProfiles(format, ps[i + 1..], checked.value.total));
        files, total := files + checked.value.files, checked.value.total;
        verified := verified[ps[i].profileId := format.verify(ps[i].profileJson).value];
      }
      assert ps[..|ps|] == ps;
      AfterNothing(Ok(Checked([], total)), files, total);
      r := Ok(Checked(files, total));
    }

    /** The versions of all entries against the active catalog. */
    method CheckVersions(current: ActiveCatalog, es: seq<Entry>) returns (r: Result<()>)
      ensures r == CheckEntries(format, current, es)
    {
      for i := 0 to |es|
        invariant CheckEntries(format, current, es) == CheckEntries(format, current, es[i..])
      {
        assert es[i..][1..] == es[i + 1..];
        var checked := CheckEntry(format, current, es[i]);
        if checked.Err? {
          return checked;
        }
      }
      return Ok(());
    }

    /** Profiles in order are distinct, so no duplicate is ever looked for. */
    method ValidateCatalog(c: Catalog) returns (r: Result<Candidate>)
      ensures r == Validate(format, c, active)
    {
      if c.version == 0 || !IsLowerHex(c.digest, 64) || !IsLowerHex(c.commit, 40) || c.profiles == [] {
        return Err(Invalid("schema_invalid"));
      }
      if active.Some? && Stale(c, active.value.version, active.value.digest) {
        return Err(Invalid("version_stale"));
      }
      if !ProfilesInOrder(c.profiles) {
        return Err(Invalid("profile_order_invalid"));
      }
      var checked, verified := CheckAllDelivered(c.profiles);
      if checked.Err? {
        return Err(checked.code);
      }
      if active.Some? {
        if exists id :: id in active.value.profiles && !Contains(c.profiles, id) {
          return Err(Invalid("profile_removed"));
        }
        var versions := CheckVersions(active.value, Entries(c.profiles));
        if versions.Err? {
          return Err(versions.code);
        }
      }
      if format.identity(Entries(c.profiles)) != c.digest {
        return Err(Invalid("digest_mismatch"));
      }
      var manifest := Manifest(c.version, c.digest, c.commit, Entries(c.profiles));
      return Ok(Candidate(manifest, verified, checked.value.files));
    }

    // -------------------------------------------------------------- cleaning

    /** Removes left-over temporary files; stops at the first that cannot be removed. */
    method RemoveTemps(ghost s: Snapshot) returns (ok: bool)
      requires Steady(format, s, root.disk)
      modifies root
      ensures Steady(format, s, root.disk) && root.disk.generations == old(root.disk).generations
      ensures Survives(format, s, old(root.trace), root.trace)
      ensures ok ==> forall name :: name in root.disk.temps ==> !IsTempName(name)
      ensures root.disk.temps.Keys <= old(root.disk).temps.Keys && (old(root.faults) == [] ==> root.faults == [])
    {
      var left := root.disk.temps.Keys;
      while left != {}
        invariant Steady(format, s, root.disk) && root.disk.generations == old(root.disk).generations
        invariant Survives(format, s, old(root.trace), root.trace)
        invariant forall name :: name in root.disk.temps && IsTempName(name) ==> name in left
        invariant root.disk.temps.Keys <= old(root.disk).temps.Keys && (old(root.faults) == [] ==> root.faults == [])
        decreases left
      {
        var name :| name in left;
        left := left - {name};
        if IsTempName(name) {
          ghost var before := root.disk;
          ok := root.RemoveTemp(name);
          ElsewhereIsSteady(format, s, before, root.disk, InTemps);
          if !ok {
            return;
          }
        }
      }
      return true;
    }

    /** Removes every generation but the active one; stops at the first that cannot be removed. */
    method RemoveGenerations(ghost s: Snapshot, keep: Option<string>) returns (ok: bool)
      requires Steady(format, s, root.disk)
      requires s.active.Some? ==> keep == Some(ActiveName(s.active.value))
      modifies root
      ensures Steady(format, s, root.disk) && Survives(format, s, old(root.trace), root.trace)
      ensures root.disk.temps == old(root.disk).temps && (old(root.faults) == [] ==> root.faults == [])
      ensures ok ==> forall name :: name in root.disk.generations && IsGenerationEntry(name) ==> keep == Some(name)
    {
      var left := root.disk.generations.Keys;
      while left != {}
        invariant Steady(format, s, root.disk) && root.disk.temps == old(root.disk).temps
        invariant old(root.faults) == [] ==> root.faults == []
        invariant Survives(format, s, old(root.trace), root.trace)
        invariant forall name :: name in root.disk.generations && IsGenerationEntry(name) && keep != Some(name)
                    ==> name in left
        decreases left
      {
        var name :| name in left;
        left := left - {name};
        if IsGenerationEntry(name) && keep != Some(name) {
          ghost var before := root.disk;
          ok := root.RemoveGeneration(name);
          ElsewhereIsSteady(format, s, before, root.disk, InGeneration(name));
          if !ok {
            return;
          }
        }
      }
      return true;
    }

    /** Removes what the active catalog does not need. Without an active catalog generations are removed only
        when there is no `current.json` either. */
    method CleanupInactive() returns (r: Result<()>)
      requires active.Some? ==> LoadActive(format, root.disk) == Ok(active)
      modifies root
      ensures Steady(format, old(View()), root.disk)
      ensures Survives(format, old(View()), old(root.trace), root.trace)
      ensures r.Ok? ==> forall name :: name in root.disk.temps ==> !IsTempName(name)
      ensures r.Ok? && active.Some? ==>
                forall name :: name in root.disk.generations && IsGenerationEntry(name)
                  ==> name == ActiveName(active.value)
      ensures active.None? && root.disk.current.Some? ==> root.disk.generations == old(root.disk).generations
      ensures root.disk.temps.Keys <= old(root.disk).temps.Keys && (old(root.faults) == [] ==> root.faults == [])
    {
      ghost var s := View();
      var keep := if active.Some? then Some(ActiveName(active.value)) else None;
      var ok := root.Access();
      if !ok {
        return Err(UNAVAILABLE);
      }
      ok := RemoveTemps(s);
      if !ok {
        return Err(UNAVAILABLE);
      }
      if active.None? && root.disk.current.Some? {
        return Ok(());
      }
      ok := root.Access();
      if !ok {
        return Err(UNAVAILABLE);
      }
      ok := RemoveGenerations(s, keep);
      if !ok {
        return Err(UNAVAILABLE);
      }
      return Ok(());
    }

    /** Opens the store; a catalog that cannot be read counts as absent. */
    constructor Open(root: CatalogDirectory, format: Format)
      modifies root
      ensures this.root == root && this.format == format && pending == None
      ensures Good(format, View())
      ensures var readable := old(root.faults) == [] || old(root.faults)[0].Works?;
              var found := LoadActive(format, old(root.disk));
              active == if readable && found.Ok? then found.value else None
      ensures root.disk.current == old(root.disk).current && root.disk.temps.Keys <= old(root.disk).temps.Keys
      ensures LoadActive(format, root.disk) == LoadActive(format, old(root.disk))
      ensures |old(root.faults)| <= 1 ==> root.faults == []
      ensures var found := LoadActive(format, old(root.disk));
              found.Ok? && active == found.value ==>
                Survives(format, Snapshot(old(root.disk), active, None), old(root.trace), root.trace)
    {
      this.root, this.format, pending := root, format, None;
      new;
      var readable := root.Access();
      var found := LoadActive(format, root.disk);
      active := if readable && found.Ok? then found.value else None;
      var _ := CleanupInactive();
      if active.None? {
        LoadActiveReadsOneGeneration(format, old(root.disk), root.disk);
      }
    }

    // --------------------------------------------------------------- staging

    /** Writes the files and then the manifest, and reads everything back. */
    method WriteGeneration(name: string, candidate: Candidate) returns (r: Result<Candidate>)
      requires name in root.disk.generations && root.disk.generations[name] == Generation(map[], None)
      modifies root
      ensures Within(old(root.disk), root.disk, InGeneration(name))
      ensures old(root.trace) <= root.trace
      ensures forall i :: old(|root.trace|) <= i < |root.trace| ==>
                Within(old(root.disk), root.trace[i], InGeneration(name))
      ensures r.Ok? ==>
                && name in root.disk.generations
                && HoldsFiles(root.disk.generations[name], candidate.files)
                && root.disk.generations[name].manifest == Some(ManifestText(candidate.manifest))
                && r == LoadNamed(format, root.disk, name)
                && DistinctKeys(candidate.files)
      ensures old(root.faults) == [] && DistinctKeys(candidate.files) ==>
                && root.faults == []
                && name in root.disk.generations
                && HoldsFiles(root.disk.generations[name], candidate.files)
                && root.disk.generations[name].manifest == Some(ManifestText(candidate.manifest))
                && r == LoadNamed(format, root.disk, name)
    {
      hide LoadNamed, Written, HoldsFiles, DistinctKeys;
      var ok := root.Access();
      if !ok {
        return Err(UNAVAILABLE);
      }
      NothingWritten();
      for i := 0 to |candidate.files|
        invariant Within(old(root.disk), root.disk, InGeneration(name))
        invariant old(root.trace) <= root.trace
        invariant forall k :: old(|root.trace|) <= k < |root.trace| ==>
                    Within(old(root.disk), root.trace[k], InGeneration(name))
        invariant name in root.disk.generations && Written(root.disk.generations[name], candidate.files[..i])
        invariant old(root.faults) == [] ==> root.faults == []
      {
        ok := root.Access();
        if !ok {
          return Err(UNAVAILABLE);
        }
        ghost var before := root.disk.generations[name];
        if DistinctKeys(candidate.files) {
          NextIsNew(before, candidate.files, i);
        }
        ok := root.WriteFile(name, candidate.files[i].key, candidate.files[i].bytes);
        if !ok {
          return Err(UNAVAILABLE);
        }
        assert candidate.files[..i + 1] == candidate.files[..i] + [candidate.files[i]];
        OneMoreWritten(before, candidate.files[..i], candidate.files[i]);
      }
      assert candidate.files[..|candidate.files|] == candidate.files;
      ghost var all := root.disk.generations[name];
      WrittenMeans(all, candidate.files, candidate.manifest);
      ok := root.WriteManifest(name, candidate.manifest);
      if !ok {
        return Err(UNAVAILABLE);
      }
      ok := root.Access();
      if !ok {
        return Err(UNAVAILABLE);
      }
      return LoadNamed(format, root.disk, name);
    }

    /** Makes an empty generation, removing what an earlier attempt left under its name. */
    method EmptyGeneration(name: string) returns (ok: bool)
      modifies root
      ensures Within(old(root.disk), root.disk, InGeneration(name))
      ensures old(root.trace) <= root.trace
      ensures forall i :: old(|root.trace|) <= i < |root.trace| ==>
                Within(old(root.disk), root.trace[i], InGeneration(name))
      ensures ok ==> name in root.disk.generations && root.disk.generations[name] == Generation(map[], None)
      ensures old(root.faults) == [] ==> ok && root.faults == []
    {
      ok := root.Access();
      if !ok {
        return;
      }
      if name in root.disk.generations {
        ok := root.RemoveGeneration(name);
        if !ok {
          return;
        }
      }
      ok := root.MakeGeneration(name);
    }

    /** Puts a validated candidate on disk. A generation of the same name that was left behind is replaced; one
        that cannot be completed is removed again. */
    method StageCandidate(catalog: Catalog, candidate: Candidate) returns (r: Result<bool>)
      requires Validate(format, catalog, active) == Ok(candidate)
      requires active.Some? ==> NameOf(candidate.manifest) != ActiveName(active.value)
      modifies this`pending, root
      ensures Within(old(root.disk), root.disk, InGeneration(NameOf(candidate.manifest)))
      ensures old(root.trace) <= root.trace
      ensures forall i :: old(|root.trace|) <= i < |root.trace| ==>
                Within(old(root.disk), root.trace[i], InGeneration(NameOf(candidate.manifest)))
      ensures if r.Err? then pending == old(pending)
              else r == Ok(true) && pending == Some(candidate)
                   && LoadNamed(format, root.disk, NameOf(candidate.manifest)) == Ok(candidate)
      ensures r.Ok? ==> Fits(format, candidate)
      ensures old(root.faults) == [] && Fits(format, candidate) ==> r == Ok(true) && root.faults == []
    {
      var name := NameOf(candidate.manifest);
      var ok := EmptyGeneration(name);
      if !ok {
        return Err(UNAVAILABLE);
      }
      var persisted := WriteGeneration(name, candidate);
      if name in root.disk.generations && HoldsFiles(root.disk.generations[name], candidate.files)
         && root.disk.generations[name].manifest == Some(ManifestText(candidate.manifest)) {
        StagedLoadsBack(format, catalog, active, root.disk.generations[name]);
      }
      if persisted.Err? {
        var _ := root.RemoveGeneration(name);
        return Err(persisted.code);
      }
      pending := Some(persisted.value);
      return Ok(true);
    }

    method Stage(catalog: Catalog) returns (r: Result<bool>)
      requires Good(format, View())
      modifies this`pending, root
      ensures Good(format, View())
      ensures Steady(format, old(View()), root.disk)
      ensures Survives(format, old(View()), old(root.trace), root.trace)
      ensures root.disk.temps == old(root.disk).temps
      ensures var checked := Validate(format, catalog, active);
              if checked.Err? then r == Err(checked.code) && View() == old(View())
              else if IsActive(active, catalog) then r == Ok(false) && View() == old(View())
              else if old(pending).Some? && Stale(catalog, old(pending).value.manifest.version,
                                                  old(pending).value.manifest.digest)
                   then r == Err(Invalid("version_stale")) && View() == old(View())
              else if old(pending).Some? && old(pending).value.manifest.version == catalog.version
                   then r == Ok(true) && View() == old(View())
              else
                && (if r.Ok? then r == Ok(true) && pending == Some(checked.value) else pending == old(pending))
                && (r.Ok? ==> Fits(format, checked.value))
                && (old(root.faults) == [] && Fits(format, checked.value) ==> r.Ok? && root.faults == [])
    {
      hide LoadActive, LoadNamed;
      var validated := ValidateCatalog(catalog);
      if validated.Err? {
        return Err(validated.code);
      }
      var candidate := validated.value;
      if active.Some? && active.value.version == candidate.manifest.version
         && active.value.digest == candidate.manifest.digest {
        return Ok(false);
      }
      if pending.Some? {
        var waiting := pending.value.manifest;
        if candidate.manifest.version < waiting.version
           || (candidate.manifest.version == waiting.version && candidate.manifest.digest != waiting.digest) {
          return Err(Invalid("version_stale"));
        }
        if candidate.manifest.version == waiting.version {
          return Ok(true);
        }
      }
      ghost var before := View();
      NewIsElsewhere(format, catalog, active, candidate);
      r := StageCandidate(catalog, candidate);
      WorkElsewhereIsGood(format, before, root.disk, candidate.manifest);
      forall i | |old(root.trace)| <= i < |root.trace|
        ensures Steady(format, before, root.trace[i])
      {
        WorkElsewhereIsGood(format, before, root.trace[i], candidate.manifest);
      }
    }

    /** The pending catalog becomes the active one by renaming a new `current.json` over the old one; `temp` is a file
        name not used before. */
    method Activate(temp: string) returns (r: Result<ActiveCatalog>)
      requires Good(format, View())
      modifies this`active, this`pending, root
      ensures Good(format, View())
      ensures Survives(format, old(View()), old(root.trace), root.trace)
      ensures r.Err? ==> r == Err(if old(pending).None? then NotPending else UNAVAILABLE)
      ensures if r.Ok?
              then old(pending).Some? && r.value == ActiveOf(old(pending).value)
                   && active == Some(r.value) && pending == None
              else active == old(active) && pending == old(pending) && Steady(format, old(View()), root.disk)
      ensures old(root.faults) == [] && old(pending).Some? && temp !in old(root.disk).temps ==> r.Ok?
    {
      if pending.None? {
        return Err(NotPending);
      }
      var ok := SwitchToPending(temp);
      if !ok {
        return Err(UNAVAILABLE);
      }
      active := Some(ActiveOf(pending.value));
      pending := None;
      r := Ok(active.value);
      var _ := CleanupInactive();
    }

    /** Writes the new `current.json` beside the old one and renames it over it. */
    method SwitchToPending(temp: string) returns (ok: bool)
      requires Good(format, View()) && pending.Some?
      modifies root
      ensures Survives(format, old(View()), old(root.trace), root.trace)
      ensures if ok then LoadActive(format, root.disk) == Ok(Some(ActiveOf(pending.value)))
              else Good(format, View()) && Steady(format, old(View()), root.disk)
      ensures old(root.faults) == [] && temp !in old(root.disk).temps ==> ok
    {
      ghost var s := View();
      ok := root.Access();
      if !ok {
        return;
      }
      ok := root.WriteTemp(temp, NameOf(pending.value.manifest));
      TempsAreElsewhere(format, s, root.disk);
      if !ok {
        return;
      }
      ghost var prepared := root.disk;
      ok := root.ReplaceCurrent(temp);
      if ok {
        CurrentLoadsPending(format, s.(disk := prepared), root.disk);
      }
    }
  }
}
