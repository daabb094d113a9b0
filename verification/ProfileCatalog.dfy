/**
 The signed profile catalog as values: what a delivered catalog must satisfy, what
 a generation directory holds, and what loading one gives back. Signature checks,
 hashes, version parsing and the size of a serialized manifest are parameters.
 */
module ProfileCatalog {
  import opened Outcomes
  import opened Decimals

  const MAX_PROFILE_BYTES: nat := 256 * 1024
  const MAX_CATALOG_BYTES: nat := 2 * 1024 * 1024

  newtype byte = x: int | 0 <= x < 256
  type Bytes = seq<byte>

  // --------------------------------------------------------------- delivered

  datatype Supplied = Supplied(path: string, sha256: string, content: Bytes)

  datatype Delivered = Delivered(
    profileId: string, profileVersion: string, contentDigest: string, profileJson: Bytes, files: seq<Supplied>)

  datatype Catalog = Catalog(version: nat, digest: string, commit: string, profiles: seq<Delivered>)

  // ---------------------------------------------------------------- verified

  datatype Declared = Declared(path: string, sha256: string)

  /** A profile whose signature was verified. */
  datatype Profile = Profile(id: string, version: string, digest: string, files: seq<Declared>)

  datatype Entry = Entry(profileId: string, profileVersion: string, contentDigest: string)

  datatype Manifest = Manifest(version: nat, digest: string, commit: string, entries: seq<Entry>)

  datatype FileKey = FileKey(profileId: string, path: seq<string>)

  datatype StagedFile = StagedFile(key: FileKey, bytes: Bytes)

  datatype Candidate = Candidate(manifest: Manifest, profiles: map<string, Profile>, files: seq<StagedFile>)

  datatype ActiveCatalog = ActiveCatalog(version: nat, digest: string, profiles: map<string, Profile>)

  /** Code that is not part of this model. `rank` embeds semantic versions in the reals in their own order;
      `resolve` splits a relative path into its components. */
  datatype Format = Format(
    verify: Bytes -> Result<Profile>, sha256: Bytes -> string, rank: string -> Option<real>,
    identity: seq<Entry> -> string, resolve: string -> seq<string>, manifestSize: Manifest -> nat)

  function Invalid(reason: string): ErrorCode {
    Reported("profile_catalog." + reason)
  }

  // --------------------------------------------------------------- validation

  predicate IsLowerHex(s: string, length: nat) {
    |s| == length && forall i :: 0 <= i < |s| ==> '0' <= s[i] <= '9' || 'a' <= s[i] <= 'f'
  }

  /** The order of strings by their characters. */
  predicate Before(a: string, b: string) {
    b != "" && (a == "" || a[0] < b[0] || (a[0] == b[0] && Before(a[1..], b[1..])))
  }

  predicate ProfilesInOrder(ps: seq<Delivered>) {
    forall i :: 0 < i < |ps| ==> Before(ps[i - 1].profileId, ps[i].profileId)
  }

  predicate FilesInOrder(files: seq<Supplied>) {
    forall i :: 0 < i < |files| ==> Before(files[i - 1].path, files[i].path)
  }

  datatype Checked = Checked(files: seq<StagedFile>, total: nat)

  function After(files: seq<StagedFile>, rest: Result<Checked>): Result<Checked> {
    match rest
    case Err(code) => Err(code)
    case Ok(checked) => Ok(Checked(files + checked.files, checked.total))
  }

  function CheckFile(f: Format, id: string, declared: Declared, supplied: Supplied, total: nat): Result<Checked> {
    var grown := total + |supplied.content|;
    if declared.path != supplied.path
       || declared.sha256 != supplied.sha256
       || supplied.content == []
       || |supplied.content| > MAX_PROFILE_BYTES
       || grown > MAX_CATALOG_BYTES
       || f.sha256(supplied.content) != supplied.sha256
    then Err(Invalid("profile_file_mismatch"))
    else Ok(Checked([StagedFile(FileKey(id, f.resolve(supplied.path)), supplied.content)], grown))
  }

  /** The files of one profile, each against its declaration. */
  function CheckFiles(f: Format, id: string, declared: seq<Declared>, supplied: seq<Supplied>, total: nat)
    : Result<Checked>
    requires |declared| == |supplied|
  {
    if declared == [] then Ok(Checked([], total))
    else match CheckFile(f, id, declared[0], supplied[0], total)
      case Err(code) => Err(code)
      case Ok(first) => After(first.files, CheckFiles(f, id, declared[1..], supplied[1..], first.total))
  }

  predicate Matches(f: Format, p: Delivered, profile: Profile) {
    && p.profileId == profile.id
    && p.profileVersion == profile.version
    && p.contentDigest == profile.digest
    && f.rank(p.profileVersion).Some?
  }

  function ProfileFile(p: Delivered): StagedFile {
    StagedFile(FileKey(p.profileId, ["profile.json"]), p.profileJson)
  }

  function CheckProfile(f: Format, p: Delivered, total: nat): Result<Checked> {
    var grown := total + |p.profileJson|;
    if p.profileJson == [] || |p.profileJson| > MAX_PROFILE_BYTES || grown > MAX_CATALOG_BYTES then
      Err(Invalid("size_exceeded"))
    else match f.verify(p.profileJson)
      case Err(code) => Err(code)
      case Ok(profile) =>
        if !Matches(f, p, profile) then Err(Invalid("profile_mismatch"))
        else if !FilesInOrder(p.files) || |p.files| != |profile.files| then Err(Invalid("profile_file_mismatch"))
        else match CheckFiles(f, p.profileId, profile.files, p.files, grown)
          case Err(code) => Err(code)
          case Ok(checked) => Ok(Checked(checked.files + [ProfileFile(p)], checked.total))
  }

  function CheckProfiles(f: Format, ps: seq<Delivered>, total: nat): Result<Checked> {
    if ps == [] then Ok(Checked([], total))
    else match CheckProfile(f, ps[0], total)
      case Err(code) => Err(code)
      case Ok(first) => After(first.files, CheckProfiles(f, ps[1..], first.total))
  }

  function EntryOf(p: Delivered): Entry {
    Entry(p.profileId, p.profileVersion, p.contentDigest)
  }

  function Entries(ps: seq<Delivered>): seq<Entry> {
    seq(|ps|, i requires 0 <= i < |ps| => EntryOf(ps[i]))
  }

  /** The verified profiles by id. */
  function Profiles(f: Format, ps: seq<Delivered>): map<string, Profile> {
    if ps == [] then map[]
    else
      var last := ps[|ps| - 1];
      var before := Profiles(f, ps[..|ps| - 1]);
      match f.verify(last.profileJson)
      case Ok(profile) => before[last.profileId := profile]
      case Err(_) => before
  }

  predicate Contains(ps: seq<Delivered>, id: string) {
    exists i :: 0 <= i < |ps| && ps[i].profileId == id
  }

  function CheckEntry(f: Format, active: ActiveCatalog, e: Entry): Result<()> {
    if e.profileId !in active.profiles then Ok(())
    else
      var previous := active.profiles[e.profileId];
      match (f.rank(previous.version), f.rank(e.profileVersion))
      case (None, _) => Err(Invalid("persistence_invalid"))
      case (_, None) => Err(Invalid("profile_mismatch"))
      case (Some(last), Some(next)) =>
        if next < last || (next == last && e.contentDigest != previous.digest)
        then Err(Invalid("profile_version_stale"))
        else Ok(())
  }

  function CheckEntries(f: Format, active: ActiveCatalog, es: seq<Entry>): Result<()> {
    if es == [] then Ok(())
    else match CheckEntry(f, active, es[0])
      case Err(code) => Err(code)
      case Ok(_) => CheckEntries(f, active, es[1..])
  }

  /** No profile of the active catalog disappears and none goes back. */
  function CheckUpgrade(f: Format, active: Option<ActiveCatalog>, ps: seq<Delivered>): Result<()> {
    if active.None? then Ok(())
    else if exists id :: id in active.value.profiles && !Contains(ps, id) then Err(Invalid("profile_removed"))
    else CheckEntries(f, active.value, Entries(ps))
  }

  predicate Stale(c: Catalog, version: nat, digest: string) {
    c.version < version || (c.version == version && c.digest != digest)
  }

  function CandidateOf(f: Format, c: Catalog, files: seq<StagedFile>): Candidate {
    Candidate(Manifest(c.version, c.digest, c.commit, Entries(c.profiles)), Profiles(f, c.profiles), files)
  }

  /** `validate_catalog`, check by check. */
  function Validate(f: Format, c: Catalog, active: Option<ActiveCatalog>): Result<Candidate> {
    if c.version == 0 || !IsLowerHex(c.digest, 64) || !IsLowerHex(c.commit, 40) || c.profiles == [] then
      Err(Invalid("schema_invalid"))
    else if active.Some? && Stale(c, active.value.version, active.value.digest) then Err(Invalid("version_stale"))
    else if !ProfilesInOrder(c.profiles) then Err(Invalid("profile_order_invalid"))
    else match CheckProfiles(f, c.profiles, 0)
      case Err(code) => Err(code)
      case Ok(checked) =>
        match CheckUpgrade(f, active, c.profiles)
        case Err(code) => Err(code)
        case Ok(_) =>
          if f.identity(Entries(c.profiles)) != c.digest then Err(Invalid("digest_mismatch"))
          else Ok(CandidateOf(f, c, checked.files))
  }

  // ----------------------------------------------------------------- on disk

  /** What a file of the store holds; anything that is neither kind of document reads as junk. */
  datatype Document = ManifestText(manifest: Manifest) | PointerText(generation: string) | Junk

  datatype Generation = Generation(files: map<FileKey, Bytes>, manifest: Option<Document>)

  /** The store's directory: `current.json`, its temporary forerunners, and the generations. */
  datatype Disk = Disk(current: Option<Document>, temps: map<string, Document>, generations: map<string, Generation>)

  function GenerationName(version: nat, digest: string): string {
    "c" + "-" + (Digits(version) + "-" + digest)
  }

  function NameOf(m: Manifest): string {
    GenerationName(m.version, m.digest)
  }

  function ActiveName(a: ActiveCatalog): string {
    GenerationName(a.version, a.digest)
  }

  const UNAVAILABLE: ErrorCode := Reported("profile_catalog.persistence_failed")

  function ReadFile(g: Generation, key: FileKey): Result<Bytes> {
    if key !in g.files then Err(UNAVAILABLE)
    else if |g.files[key]| > MAX_PROFILE_BYTES then Err(Invalid("size_exceeded"))
    else Ok(g.files[key])
  }

  function ReadFiles(f: Format, g: Generation, id: string, declared: seq<Declared>): Result<seq<Supplied>> {
    if declared == [] then Ok([])
    else match ReadFile(g, FileKey(id, f.resolve(declared[0].path)))
      case Err(code) => Err(code)
      case Ok(content) =>
        match ReadFiles(f, g, id, declared[1..])
        case Err(code) => Err(code)
        case Ok(rest) => Ok([Supplied(declared[0].path, declared[0].sha256, content)] + rest)
  }

  function ReadProfile(f: Format, g: Generation, e: Entry): Result<Delivered> {
    match ReadFile(g, FileKey(e.profileId, ["profile.json"]))
    case Err(code) => Err(code)
    case Ok(bytes) =>
      match f.verify(bytes)
      case Err(code) => Err(code)
      case Ok(profile) =>
        match ReadFiles(f, g, e.profileId, profile.files)
        case Err(code) => Err(code)
        case Ok(files) => Ok(Delivered(e.profileId, e.profileVersion, e.contentDigest, bytes, files))
  }

  function ReadProfiles(f: Format, g: Generation, es: seq<Entry>): Result<seq<Delivered>> {
    if es == [] then Ok([])
    else match ReadProfile(f, g, es[0])
      case Err(code) => Err(code)
      case Ok(first) =>
        match ReadProfiles(f, g, es[1..])
        case Err(code) => Err(code)
        case Ok(rest) => Ok([first] + rest)
  }

  /** `load_generation`: the manifest says what to read, and what was read is validated like a delivery. */
  function LoadGeneration(f: Format, g: Generation): Result<Candidate> {
    match g.manifest
    case None => Err(UNAVAILABLE)
    case Some(ManifestText(m)) =>
      if f.manifestSize(m) > MAX_CATALOG_BYTES then Err(Invalid("size_exceeded"))
      else (match ReadProfiles(f, g, m.entries)
            case Err(code) => Err(code)
            case Ok(profiles) => Validate(f, Catalog(m.version, m.digest, m.commit, profiles), None))
    case Some(_) => Err(Invalid("persistence_invalid"))
  }

  function LoadNamed(f: Format, d: Disk, name: string): Result<Candidate> {
    if name !in d.generations then Err(UNAVAILABLE) else LoadGeneration(f, d.generations[name])
  }

  function ActiveOf(c: Candidate): ActiveCatalog {
    ActiveCatalog(c.manifest.version, c.manifest.digest, c.profiles)
  }

  predicate IsGenerationName(name: string) {
    |name| >= 2 && name[..2] == "c-" && '/' !in name && '\\' !in name
  }

  /** `load_active`: follows `current.json`. */
  function LoadActive(f: Format, d: Disk): Result<Option<ActiveCatalog>> {
    match d.current
    case None => Ok(None)
    case Some(PointerText(name)) =>
      if !IsGenerationName(name) then Err(Invalid("pointer_invalid"))
      else (match LoadNamed(f, d, name)
            case Err(code) => Err(code)
            case Ok(candidate) =>
              if NameOf(candidate.manifest) != name then Err(Invalid("pointer_invalid"))
              else Ok(Some(ActiveOf(candidate))))
    case Some(_) => Err(Invalid("pointer_invalid"))
  }
}
