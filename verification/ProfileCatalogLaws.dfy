/** What validation guarantees, and why a staged generation loads back as it was delivered. */
module ProfileCatalogLaws {
  import opened Outcomes
  import opened Decimals
  import opened ProfileCatalog

  // ------------------------------------------------------------ generation names

  lemma NamesAreInjective(v: nat, d: string, w: nat, e: string)
    requires GenerationName(v, d) == GenerationName(w, e)
    ensures v == w && d == e
  {
    var a, b := GenerationName(v, d), GenerationName(w, e);
    assert Digits(v) + "-" + d == a[2..] == b[2..] == Digits(w) + "-" + e;
    DigitsAvoid(v, '-');
    DigitsAvoid(w, '-');
    SplitsAtSeparator(Digits(v), d, Digits(w), e, '-');
    DigitsAreInjective(v, w);
  }

  lemma NamesAreNames(v: nat, d: string)
    requires IsLowerHex(d, 64)
    ensures IsGenerationName(GenerationName(v, d))
  {
    DigitsAvoid(v, '/');
    DigitsAvoid(v, '\\');
    assert GenerationName(v, d)[..2] == "c-";
  }

  // ------------------------------------------------------------------- order

  lemma {:induction false} BeforeIsStrict(a: string)
    ensures !Before(a, a)
    decreases a
  {
    if a != "" {
      BeforeIsStrict(a[1..]);
    }
  }

  lemma {:induction false} BeforeIsTransitive(a: string, b: string, c: string)
    requires Before(a, b) && Before(b, c)
    ensures Before(a, c)
    decreases a
  {
    if a != "" && a[0] == b[0] == c[0] {
      BeforeIsTransitive(a[1..], b[1..], c[1..]);
    }
  }

  lemma {:induction false} OrderSpreads(ps: seq<Delivered>, i: nat, j: nat)
    requires ProfilesInOrder(ps) && i < j < |ps|
    ensures Before(ps[i].profileId, ps[j].profileId)
    decreases j
  {
    if i < j - 1 {
      OrderSpreads(ps, i, j - 1);
      BeforeIsTransitive(ps[i].profileId, ps[j - 1].profileId, ps[j].profileId);
    }
  }

  /** Profiles in order are distinct: the duplicate checks that follow can never fire. */
  lemma OrderedIsDistinct(ps: seq<Delivered>, i: nat, j: nat)
    requires ProfilesInOrder(ps) && i < j < |ps|
    ensures ps[i].profileId != ps[j].profileId
  {
    OrderSpreads(ps, i, j);
    BeforeIsStrict(ps[i].profileId);
  }

  // -------------------------------------------------------------- round trip

  /** The generation holds every staged file. */
  predicate HoldsFiles(g: Generation, files: seq<StagedFile>) {
    forall i :: 0 <= i < |files| ==> files[i].key in g.files && g.files[files[i].key] == files[i].bytes
  }

  lemma HoldsBoth(g: Generation, a: seq<StagedFile>, b: seq<StagedFile>)
    requires HoldsFiles(g, a + b)
    ensures HoldsFiles(g, a) && HoldsFiles(g, b)
  {
    forall i | 0 <= i < |a|
      ensures a[i].key in g.files && g.files[a[i].key] == a[i].bytes
    {
      assert (a + b)[i] == a[i];
    }
    forall i | 0 <= i < |b|
      ensures b[i].key in g.files && g.files[b[i].key] == b[i].bytes
    {
      assert (a + b)[|a| + i] == b[i];
    }
  }

  lemma {:induction false} FilesLoadBack(
    f: Format, g: Generation, id: string, declared: seq<Declared>, supplied: seq<Supplied>, total: nat)
    requires |declared| == |supplied|
    requires CheckFiles(f, id, declared, supplied, total).Ok?
    requires HoldsFiles(g, CheckFiles(f, id, declared, supplied, total).value.files)
    ensures ReadFiles(f, g, id, declared) == Ok(supplied)
    decreases |declared|
  {
    if declared != [] {
      var first := CheckFile(f, id, declared[0], supplied[0], total).value;
      var rest := CheckFiles(f, id, declared[1..], supplied[1..], first.total).value;
      HoldsBoth(g, first.files, rest.files);
      assert g.files[first.files[0].key] == supplied[0].content;
      FilesLoadBack(f, g, id, declared[1..], supplied[1..], first.total);
      assert supplied == [supplied[0]] + supplied[1..];
    }
  }

  lemma ProfileLoadsBack(f: Format, g: Generation, p: Delivered, total: nat)
    requires CheckProfile(f, p, total).Ok? && HoldsFiles(g, CheckProfile(f, p, total).value.files)
    ensures ReadProfile(f, g, EntryOf(p)) == Ok(p)
  {
    var profile := f.verify(p.profileJson).value;
    var checked := CheckFiles(f, p.profileId, profile.files, p.files, total + |p.profileJson|).value;
    HoldsBoth(g, checked.files, [ProfileFile(p)]);
    FilesLoadBack(f, g, p.profileId, profile.files, p.files, total + |p.profileJson|);
    assert HoldsFiles(g, [ProfileFile(p)]) && [ProfileFile(p)][0] == ProfileFile(p);
  }

  lemma {:induction false} ProfilesLoadBack(f: Format, g: Generation, ps: seq<Delivered>, total: nat)
    requires CheckProfiles(f, ps, total).Ok? && HoldsFiles(g, CheckProfiles(f, ps, total).value.files)
    ensures ReadProfiles(f, g, Entries(ps)) == Ok(ps)
    decreases |ps|
  {
    if ps != [] {
      var first := CheckProfile(f, ps[0], total).value;
      var rest := CheckProfiles(f, ps[1..], first.total).value;
      HoldsBoth(g, first.files, rest.files);
      ProfileLoadsBack(f, g, ps[0], total);
      ProfilesLoadBack(f, g, ps[1..], first.total);
      assert Entries(ps)[1..] == Entries(ps[1..]);
      assert ps == [ps[0]] + ps[1..];
    }
  }

  /** Round trip: a generation that holds the files and the manifest of a validated catalog loads back exactly
      that candidate, unless its manifest is too long to be read. */
  lemma StagedLoadsBack(f: Format, c: Catalog, active: Option<ActiveCatalog>, g: Generation)
    requires Validate(f, c, active).Ok?
    requires var candidate := Validate(f, c, active).value;
             g.manifest == Some(ManifestText(candidate.manifest)) && HoldsFiles(g, candidate.files)
    ensures LoadGeneration(f, g) == Validate(f, c, active)
            <==> f.manifestSize(Validate(f, c, active).value.manifest) <= MAX_CATALOG_BYTES
  {
    ProfilesLoadBack(f, g, c.profiles, 0);
    assert Validate(f, c, None) == Validate(f, c, active);
    var m := Validate(f, c, active).value.manifest;
    assert Catalog(m.version, m.digest, m.commit, c.profiles) == c;
  }

  // ------------------------------------------------------------ monotonicity

  /** No profile of the older catalog disappears, none goes back to a lower version, and one that stays at its
      version stays at its content. */
  ghost predicate KeepsProfiles(f: Format, before: map<string, Profile>, after: map<string, Profile>) {
    forall id :: id in before ==>
      && id in after
      && f.rank(before[id].version).Some? && f.rank(after[id].version).Some?
      && f.rank(before[id].version).value <= f.rank(after[id].version).value
      && (f.rank(before[id].version) == f.rank(after[id].version) ==> before[id].digest == after[id].digest)
  }

  ghost predicate Upgrades(f: Format, before: ActiveCatalog, after: ActiveCatalog) {
    before.version < after.version && KeepsProfiles(f, before.profiles, after.profiles)
  }

  lemma UpgradesAreTransitive(f: Format, a: ActiveCatalog, b: ActiveCatalog, c: ActiveCatalog)
    requires Upgrades(f, a, b) && Upgrades(f, b, c)
    ensures Upgrades(f, a, c)
  {
  }

  lemma {:induction false} EveryEntryIsChecked(f: Format, active: ActiveCatalog, es: seq<Entry>, i: nat)
    requires CheckEntries(f, active, es).Ok? && i < |es|
    ensures CheckEntry(f, active, es[i]).Ok?
    decreases |es|
  {
    if i > 0 {
      EveryEntryIsChecked(f, active, es[1..], i - 1);
    }
  }

  lemma {:induction false} EveryProfileIsChecked(f: Format, ps: seq<Delivered>, total: nat, i: nat)
    requires CheckProfiles(f, ps, total).Ok? && i < |ps|
    ensures f.verify(ps[i].profileJson).Ok? && Matches(f, ps[i], f.verify(ps[i].profileJson).value)
    decreases |ps|
  {
    if i > 0 {
      EveryProfileIsChecked(f, ps[1..], CheckProfile(f, ps[0], total).value.total, i - 1);
    }
  }

  /** The profile map holds, for each delivered id and no other, the profile delivered under it. */
  lemma {:induction false} ProfilesAreDelivered(f: Format, ps: seq<Delivered>)
    requires forall i :: 0 <= i < |ps| ==> f.verify(ps[i].profileJson).Ok?
    ensures forall id :: id in Profiles(f, ps) <==> Contains(ps, id)
    ensures forall id :: id in Profiles(f, ps) ==>
              exists i :: 0 <= i < |ps| && ps[i].profileId == id
                          && f.verify(ps[i].profileJson) == Ok(Profiles(f, ps)[id])
    decreases |ps|
  {
    if ps != [] {
      var n := |ps| - 1;
      var init := ps[..n];
      assert forall i :: 0 <= i < n ==> init[i] == ps[i];
      ProfilesAreDelivered(f, init);
      forall id
        ensures id in Profiles(f, ps) <==> Contains(ps, id)
      {
        if Contains(init, id) {
          var i :| 0 <= i < n && init[i].profileId == id;
          assert ps[i].profileId == id;
        }
      }
      forall id | id in Profiles(f, ps)
        ensures exists i :: 0 <= i < |ps| && ps[i].profileId == id
                            && f.verify(ps[i].profileJson) == Ok(Profiles(f, ps)[id])
      {
        if id != ps[n].profileId {
          var i :| 0 <= i < n && init[i].profileId == id && f.verify(init[i].profileJson) == Ok(Profiles(f, init)[id]);
          assert ps[i].profileId == id && f.verify(ps[i].profileJson) == Ok(Profiles(f, ps)[id]);
        }
      }
    }
  }

  /** A catalog that passes validation against the active one is the active one again or upgrades it. */
  lemma ValidatedUpgrades(f: Format, c: Catalog, active: ActiveCatalog)
    requires Validate(f, c, Some(active)).Ok?
    requires c.version != active.version
    ensures Upgrades(f, active, ActiveOf(Validate(f, c, Some(active)).value))
  {
    var after := Profiles(f, c.profiles);
    forall i | 0 <= i < |c.profiles|
      ensures f.verify(c.profiles[i].profileJson).Ok?
              && Matches(f, c.profiles[i], f.verify(c.profiles[i].profileJson).value)
    {
      EveryProfileIsChecked(f, c.profiles, 0, i);
    }
    ProfilesAreDelivered(f, c.profiles);
    forall id | id in active.profiles
      ensures KeepsProfiles(f, map[id := active.profiles[id]], after)
    {
      assert Contains(c.profiles, id);
      var i :| 0 <= i < |c.profiles| && c.profiles[i].profileId == id
               && f.verify(c.profiles[i].profileJson) == Ok(after[id]);
      EveryEntryIsChecked(f, active, Entries(c.profiles), i);
      assert CheckEntry(f, active, EntryOf(c.profiles[i])).Ok?;
      assert Matches(f, c.profiles[i], after[id]);
    }
    KeepsEach(f, active.profiles, after);
  }

  lemma KeepsEach(f: Format, before: map<string, Profile>, after: map<string, Profile>)
    requires forall id :: id in before ==> KeepsProfiles(f, map[id := before[id]], after)
    ensures KeepsProfiles(f, before, after)
  {
    forall id | id in before
      ensures id in after && KeepsProfiles(f, map[id := before[id]], after)
    {
      assert id in map[id := before[id]];
    }
  }

  // ------------------------------------------------------------------ frames

  /** Loading the active catalog reads `current.json` and the generation it names, nothing else. */
  lemma LoadActiveReadsOneGeneration(f: Format, d: Disk, e: Disk)
    requires d.current == e.current
    requires d.current.Some? && d.current.value.PointerText? ==>
               var name := d.current.value.generation;
               (name in d.generations <==> name in e.generations)
               && (name in d.generations ==> d.generations[name] == e.generations[name])
    ensures LoadActive(f, d) == LoadActive(f, e)
  {
  }

  /** A `current.json` that loads names the generation of the catalog it loads. */
  lemma CurrentNamesTheActive(f: Format, d: Disk)
    requires LoadActive(f, d).Ok? && LoadActive(f, d).value.Some?
    ensures d.current == Some(PointerText(ActiveName(LoadActive(f, d).value.value)))
    ensures ActiveName(LoadActive(f, d).value.value) in d.generations
  {
  }
}
