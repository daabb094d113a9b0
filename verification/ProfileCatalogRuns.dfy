/**
 Runs of the catalog store: stagings, activations and restarts, a restart finding
 any state of the directory that an interrupted call went through.
 */
module ProfileCatalogRuns {
  import opened Outcomes
  import opened ProfileCatalog
  import opened ProfileCatalogLaws
  import opened Store = ProfileCatalogs

  /** What `Stage` may have done, whether it succeeded or not. */
  ghost predicate Staged(f: Format, s: Snapshot, t: Snapshot) {
    Good(f, t) && t.active == s.active && Steady(f, s, t.disk)
  }

  /** What `Activate` may have done. */
  ghost predicate Activated(f: Format, s: Snapshot, t: Snapshot) {
    && Good(f, t)
    && (t.active == s.active || (s.pending.Some? && t.active == Some(ActiveOf(s.pending.value))))
  }

  /** A crash leaves a state the directory went through, and the store is opened again and can read it. */
  ghost predicate Reopened(f: Format, s: Snapshot, t: Snapshot) {
    && Good(f, t)
    && exists d :: Survivable(f, s, d) && LoadActive(f, d) == Ok(t.active)
  }

  ghost predicate Next(f: Format, s: Snapshot, t: Snapshot) {
    Staged(f, s, t) || Activated(f, s, t) || Reopened(f, s, t)
  }

  ghost predicate IsRun(f: Format, run: seq<Snapshot>) {
    && run != [] && Good(f, run[0])
    && forall i :: StepsTo(f, run, i)
  }

  ghost predicate StepsTo(f: Format, run: seq<Snapshot>, i: int) {
    0 < i < |run| ==> Next(f, run[i - 1], run[i])
  }

  /** The methods make such steps. */
  method StageOnce(store: ProfileCatalogStore, catalog: Catalog) returns (r: Result<bool>)
    requires Good(store.format, store.View())
    modifies store, store.root
    ensures Next(store.format, old(store.View()), store.View())
    ensures Survives(store.format, old(store.View()), old(store.root.trace), store.root.trace)
  {
    r := store.Stage(catalog);
  }

  method ActivateOnce(store: ProfileCatalogStore, temp: string) returns (r: Result<ActiveCatalog>)
    requires Good(store.format, store.View())
    modifies store, store.root
    ensures Next(store.format, old(store.View()), store.View())
    ensures Survives(store.format, old(store.View()), old(store.root.trace), store.root.trace)
  {
    r := store.Activate(temp);
  }

  method ReopenAfterCrash(
    f: Format, ghost s: Snapshot, d: Disk, faults: seq<Fault>) returns (store: ProfileCatalogStore)
    requires Good(f, s) && Survivable(f, s, d)
    ensures store.format == f && Good(f, store.View())
    ensures LoadActive(f, d) == Ok(store.active) ==> Next(f, s, store.View())
  {
    var directory := new CatalogDirectory(d, faults);
    store := new ProfileCatalogStore.Open(directory, f);
  }

  /** Once a catalog is active there always is one: the same, or an upgrade. */
  ghost predicate Advances(f: Format, before: Option<ActiveCatalog>, after: Option<ActiveCatalog>) {
    before.Some? ==> after.Some? && (after == before || Upgrades(f, before.value, after.value))
  }

  lemma AdvancesAreTransitive(f: Format, a: Option<ActiveCatalog>, b: Option<ActiveCatalog>, c: Option<ActiveCatalog>)
    requires Advances(f, a, b) && Advances(f, b, c)
    ensures Advances(f, a, c)
  {
    if a.Some? && b != a && c != b {
      UpgradesAreTransitive(f, a.value, b.value, c.value);
    }
  }

  lemma StepAdvances(f: Format, s: Snapshot, t: Snapshot)
    requires Good(f, s) && Next(f, s, t)
    ensures Good(f, t) && Advances(f, s.active, t.active)
  {
    if s.active.Some? && Reopened(f, s, t) {
      var d :| Survivable(f, s, d) && LoadActive(f, d) == Ok(t.active);
    }
  }

  /** Over any run of readable stores the active catalog only advances: a higher catalog version, no profile gone,
      none at a lower version, and none changed at the version it keeps. */
  lemma {:induction false} CatalogOnlyAdvances(f: Format, run: seq<Snapshot>, i: nat, j: nat)
    requires IsRun(f, run) && i <= j < |run|
    ensures Advances(f, run[i].active, run[j].active)
    decreases j
  {
    if i < j {
      CatalogOnlyAdvances(f, run, i, j - 1);
      RunStepAdvances(f, run, j);
      AdvancesAreTransitive(f, run[i].active, run[j - 1].active, run[j].active);
    }
  }

  lemma RunStepAdvances(f: Format, run: seq<Snapshot>, j: nat)
    requires IsRun(f, run) && 0 < j < |run|
    ensures Advances(f, run[j - 1].active, run[j].active)
  {
    RunIsGood(f, run, j - 1);
    assert StepsTo(f, run, j);
    StepAdvances(f, run[j - 1], run[j]);
  }

  lemma {:induction false} RunIsGood(f: Format, run: seq<Snapshot>, i: nat)
    requires IsRun(f, run) && i < |run|
    ensures Good(f, run[i])
  {
    if i > 0 {
      RunIsGood(f, run, i - 1);
      assert StepsTo(f, run, i);
      StepAdvances(f, run[i - 1], run[i]);
    }
  }

  /** Two activations of a run with the same catalog version are the same catalog. */
  lemma VersionsIdentifyCatalogs(f: Format, run: seq<Snapshot>, i: nat, j: nat)
    requires IsRun(f, run) && i <= j < |run| && run[i].active.Some? && run[j].active.Some?
    ensures run[i].active.value.version == run[j].active.value.version <==> run[i].active == run[j].active
  {
    CatalogOnlyAdvances(f, run, i, j);
  }

  // ------------------------------------------------------------- downgrades

  /** A catalog that is valid on its own, can be staged, and is older than what `current.json` loads. */
  ghost predicate Older(f: Format, d: Disk, c: Catalog) {
    && LoadActive(f, d).Ok? && LoadActive(f, d).value.Some? && c.version < LoadActive(f, d).value.value.version
    && Validate(f, c, None).Ok? && Fits(f, Validate(f, c, None).value)
  }

  /** An older catalog is refused by a store that knows the active one. One that could not read it stages and
      activates the older catalog over the newer one: exactly then a downgrade goes through. */
  method DowngradeExactly(store: ProfileCatalogStore, c: Catalog, temp: string)
    requires Good(store.format, store.View()) && store.pending.None?
    requires Older(store.format, store.root.disk, c)
    requires store.root.faults == [] && temp !in store.root.disk.temps
    modifies store, store.root
    ensures var older := Some(ActiveOf(Validate(store.format, c, None).value));
            var newer := LoadActive(store.format, old(store.root.disk)).value;
            if old(store.active).None?
            then store.active == older && LoadActive(store.format, store.root.disk) == Ok(older)
            else store.active == newer && LoadActive(store.format, store.root.disk) == Ok(newer)
                 && store.root.disk == old(store.root.disk)
  {
    var staged := store.Stage(c);
    if staged.Ok? {
      var activated := store.Activate(temp);
    }
  }

  /** A directory whose first access breaks is opened as if it were empty, `current.json` untouched. From there an
      older catalog is accepted; with a first access that works it is not. */
  method OneFaultAllowsADowngrade(f: Format, d: Disk, first: Fault, c: Catalog, temp: string)
    returns (store: ProfileCatalogStore)
    requires Older(f, d, c) && temp !in d.temps
    ensures store.format == f && store.active.Some? && LoadActive(f, store.root.disk) == Ok(store.active)
    ensures store.active.value.version < LoadActive(f, d).value.value.version <==> first.Breaks?
    ensures first.Breaks? ==> store.active.value.version == c.version
    ensures first.Works? ==> store.active == LoadActive(f, d).value
  {
    var directory := new CatalogDirectory(d, [first]);
    store := new ProfileCatalogStore.Open(directory, f);
    DowngradeExactly(store, c, temp);
  }
}
