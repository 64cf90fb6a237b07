/** Schema migration v1 -> v2 with backup, manifest and pending marker (src/continuity/storage-migration.ts). */
module StorageMigration {
  import opened Arithmetic
  import opened Wrappers
  import opened TaskTypes
  import opened StorageSchema
  import opened Durability
  import opened AtomicWriter

  type Files = map<Target, File>

  function ManifestFile(m: Migration): File { Body(MigrationManifest(m)) }

  function SchemaOf(file: File): Schema {
    match file.value
    case Workspace(schema, _) => schema
    case Execution(schema, _) => schema
    case _ => V2
  }

  /** `transformed`: the v2 text of what the file says. */
  function Transformed(t: Target, raw: File): File {
    match t
    case StateJson => (match ParseWorkspace(raw) case Ok(state) => Body(Workspace(V2, state)) case Err(_) => raw)
    case Receipt(_) => (match ParseExecution(raw) case Ok(record) => Body(Execution(V2, record)) case Err(_) => raw)
  }

  /** The v2 file that says what a v1 file said. */
  predicate SaysInV2(before: File, after: File) {
    match before.value
    case Workspace(_, state) =>
      after.value.Workspace? && after.value.schema == V2 && Upgrades(state, after.value.state)
    case Execution(_, record) => after.value == Execution(V2, record)
    case _ => false
  }

  /** Every file of the directory is there in v2, durably, and none besides. */
  ghost predicate InV2(s: DiskState, orig: Files) {
    && (forall t :: t in orig ==>
          Durable(s, Live(t)) && Seen(s, Live(t)).Some? && SaysInV2(orig[t], Seen(s, Live(t)).value))
    && forall t :: t !in orig ==> Settled(s, Live(t), None)
  }

  // ---------------------------------------------------------------------- validateWorkspaceFiles

  function OperationsIn(files: Files): (r: set<Uuid>)
    ensures forall op :: op in r <==> Receipt(op) in files
  {
    set t | t in files.Keys && t.Receipt? :: t.operationId
  }

  function ReceiptsIn(files: Files): Receipts {
    map op | op in OperationsIn(files) && ParseExecution(files[Receipt(op)]).Ok? ::
      ParseExecution(files[Receipt(op)]).value
  }

  predicate FilesValid(files: Files, workspaceId: Uuid) {
    if StateJson !in files then files == map[]
    else
      var state := ParseWorkspace(files[StateJson]);
      && state.Ok? && state.value.workspace.workspaceId == workspaceId
      && (forall op :: op in OperationsIn(files) ==>
            ParseExecution(files[Receipt(op)]).Ok? && ParseExecution(files[Receipt(op)]).value.operationId == op)
      && FullyOwned(state.value, ReceiptsIn(files))
  }

  /** Any mixture of originals and their transforms. */
  predicate Mixture(files: Files, orig: Files) {
    files.Keys == orig.Keys && forall t :: t in orig ==> files[t] == orig[t] || files[t] == Transformed(t, orig[t])
  }

  /** A half-migrated workspace reads exactly like the v1 workspace it comes from. */
  lemma MixtureReadsTheSame(files: Files, orig: Files, workspaceId: Uuid)
    requires Mixture(files, orig) && FilesValid(orig, workspaceId)
    ensures FilesValid(files, workspaceId)
    ensures StateJson in files ==> ParseWorkspace(files[StateJson]) == ParseWorkspace(orig[StateJson])
    ensures ReceiptsIn(files) == ReceiptsIn(orig)
  {
    forall t | t in orig
      ensures t.StateJson? ==> ParseWorkspace(files[t]) == ParseWorkspace(orig[t])
      ensures t.Receipt? ==> ParseExecution(files[t]) == ParseExecution(orig[t])
    {
      ReadPrintRead(orig[t]);
    }
    assert OperationsIn(files) == OperationsIn(orig);
    assert ReceiptsIn(files) == ReceiptsIn(orig) by {
      assert forall op :: op in OperationsIn(orig) ==>
        ParseExecution(files[Receipt(op)]) == ParseExecution(orig[Receipt(op)]);
    }
  }

  // ------------------------------------------------------------------- where a migration can stand

  /** The v1 workspace the story starts from. */
  predicate V1Files(orig: Files, workspaceId: Uuid) {
    && FilesValid(orig, workspaceId) && orig != map[]
    && forall t :: t in orig ==> SchemaOf(orig[t]) == V1
  }

  /** m lists exactly these originals, with the digests before and after. */
  ghost predicate ManifestFor(m: Migration, orig: Files) {
    && (forall a, b :: 0 <= a < b < |m.files| ==> m.files[a].path != m.files[b].path)
    && (forall i :: 0 <= i < |m.files| ==>
          && m.files[i].path in orig
          && m.files[i].before == Sha256(orig[m.files[i].path])
          && m.files[i].after == Sha256(Transformed(m.files[i].path, orig[m.files[i].path])))
    && PathsOf(m) == orig.Keys
  }

  function PathsOf(m: Migration): (paths: set<Target>)
    ensures forall t :: t in paths <==> exists i :: 0 <= i < |m.files| && m.files[i].path == t
  {
    set i | 0 <= i < |m.files| :: m.files[i].path
  }

  ghost predicate BackedUp(s: DiskState, m: Migration) {
    forall i :: 0 <= i < |m.files| ==>
      Settled(s, Backup(m.backupDirectory, m.files[i].path), Some(m.files[i].before.of))
  }

  ghost predicate PendingThere(s: DiskState) {
    !May(s, Pending, None)
  }

  /** A directory named after its listing holds nothing but the listed bytes. */
  ghost predicate GenerationsSound(s: DiskState) {
    forall listing, t, f :: May(s, Backup(ForFiles(listing), t), Some(f)) ==> t in listing && listing[t] == Sha256(f)
  }

  ghost predicate RollbackSound(s: DiskState) {
    forall f :: May(s, Rollback, Some(f)) ==>
      f.value.MigrationManifest? && |f.value.migration.files| > 0 && BackedUp(s, f.value.migration)
  }

  ghost predicate Base(s: DiskState, orig: Files) {
    && (forall t :: t !in orig ==> Settled(s, Live(t), None))
    && GenerationsSound(s) && RollbackSound(s)
  }

  ghost predicate GoodManifest(s: DiskState, f: File, orig: Files) {
    && f.value.MigrationManifest? && f == ManifestFile(f.value.migration)
    && ManifestFor(f.value.migration, orig) && BackedUp(s, f.value.migration) && PendingThere(s)
  }

  /** Every source file is durably v1. A manifest that may come back is complete, and so are its backups. */
  ghost predicate AtRest(s: DiskState, orig: Files) {
    && Base(s, orig)
    && AllV1(s, orig)
    && Durable(s, Rollback)
    && (Seen(s, Rollback) == None ==>
          forall t, f :: t in orig && May(s, Backup(First, t), Some(f)) ==> f == orig[t])
    && forall f :: May(s, Manifest, Some(f)) ==> GoodManifest(s, f, orig)
  }

  /** The manifest is durable, and so is every backup it lists. */
  ghost predicate Held(s: DiskState, orig: Files, m: Migration) {
    && Base(s, orig) && ManifestFor(m, orig) && BackedUp(s, m)
    && Settled(s, Manifest, Some(ManifestFile(m)))
  }

  ghost predicate EitherVersion(s: DiskState, orig: Files) {
    forall t :: t in orig ==> Among(s, Live(t), Some(orig[t]), Some(Transformed(t, orig[t])))
  }

  ghost predicate AllV1(s: DiskState, orig: Files) {
    forall t :: t in orig ==> Settled(s, Live(t), Some(orig[t]))
  }

  ghost predicate AllV2(s: DiskState, orig: Files) {
    forall t :: t in orig ==> Settled(s, Live(t), Some(Transformed(t, orig[t])))
  }

  /** Between the versions: the pending marker cannot vanish. */
  ghost predicate Turning(s: DiskState, orig: Files, m: Migration) {
    Held(s, orig, m) && PendingThere(s) && EitherVersion(s, orig)
  }

  ghost predicate Migrated(s: DiskState, orig: Files, m: Migration) {
    Held(s, orig, m) && AllV2(s, orig)
  }

  ghost predicate Underway(s: DiskState, orig: Files) {
    || AtRest(s, orig)
    || (exists m :: Turning(s, orig, m))
    || (exists m :: Migrated(s, orig, m))
  }

  lemma BaseNarrows(s: DiskState, after: DiskState, orig: Files)
    requires Narrows(s, after) && Base(s, orig)
    ensures Base(after, orig)
  {
    forall f | May(after, Rollback, Some(f))
      ensures f.value.MigrationManifest? && |f.value.migration.files| > 0 && BackedUp(after, f.value.migration)
    {
      assert May(s, Rollback, Some(f));
    }
  }

  lemma AtRestNarrows(s: DiskState, after: DiskState, orig: Files)
    requires Narrows(s, after) && AtRest(s, orig)
    ensures AtRest(after, orig)
  {
    BaseNarrows(s, after, orig);
    forall f | May(after, Manifest, Some(f))
      ensures GoodManifest(after, f, orig)
    {
      assert May(s, Manifest, Some(f));
    }
  }

  lemma HeldNarrows(s: DiskState, after: DiskState, orig: Files, m: Migration)
    requires Narrows(s, after) && Held(s, orig, m)
    ensures Held(after, orig, m)
  {
    hide Base, BackedUp, ManifestFor;
    BaseNarrows(s, after, orig);
    BackedUpNarrows(s, after, m);
  }

  lemma BackedUpNarrows(s: DiskState, after: DiskState, m: Migration)
    requires Narrows(s, after) && BackedUp(s, m)
    ensures BackedUp(after, m)
  {
  }

  lemma TurningNarrows(s: DiskState, after: DiskState, orig: Files, m: Migration)
    requires Narrows(s, after) && Turning(s, orig, m)
    ensures Turning(after, orig, m)
  {
    HeldNarrows(s, after, orig, m);
  }

  lemma MigratedNarrows(s: DiskState, after: DiskState, orig: Files, m: Migration)
    requires Narrows(s, after) && Migrated(s, orig, m)
    ensures Migrated(after, orig, m)
  {
    HeldNarrows(s, after, orig, m);
  }

  /** Syncs, restarts and power failures never move a migration backwards. */
  lemma UnderwayNarrows(s: DiskState, after: DiskState, orig: Files)
    requires Narrows(s, after) && Underway(s, orig)
    ensures Underway(after, orig)
  {
    if AtRest(s, orig) {
      AtRestNarrows(s, after, orig);
    } else {
      if m :| Turning(s, orig, m) {
        TurningNarrows(s, after, orig, m);
      } else {
        var m :| Migrated(s, orig, m);
        MigratedNarrows(s, after, orig, m);
      }
    }
  }

  /** No source file is ever replaced before its exact v1 bytes are durable in a backup. */
  lemma OriginalsAreNeverLost(s: DiskState, orig: Files, t: Target, c: Option<File>)
    requires Underway(s, orig) && t in orig
    requires May(s, Live(t), c) && c != Some(orig[t])
    ensures exists g :: Settled(s, Backup(g, t), Some(orig[t]))
  {
    if AtRest(s, orig) {
      assert false;
    } else if m :| Turning(s, orig, m) {
      BackupOf(s, orig, m, t);
    } else {
      var m :| Migrated(s, orig, m);
      BackupOf(s, orig, m, t);
    }
  }

  lemma BackupOf(s: DiskState, orig: Files, m: Migration, t: Target)
    requires ManifestFor(m, orig) && BackedUp(s, m) && t in orig
    ensures Settled(s, Backup(m.backupDirectory, t), Some(orig[t]))
  {
    assert t in PathsOf(m);
  }

  /** A v1 directory that was never migrated is at rest. */
  lemma FreshDirectory(s: DiskState, orig: Files)
    requires s.unsynced == map[]
    requires forall p: Path :: Seen(s, p) == if p.Live? && p.target in orig then Some(orig[p.target]) else None
    ensures AtRest(s, orig)
  {
  }

  /**
    * After a finished rollback the v1 server may write anything it likes: as soon as its files are
    * durable the directory is again at rest, under the new originals.
    */
  lemma LegacyServerMayWrite(s: DiskState, after: DiskState, orig: Files, later: Files)
    requires AtRest(s, orig) && Settled(s, Manifest, None) && Seen(s, Rollback).Some?
    requires forall p: Path :: !p.Live? ==> Seen(after, p) == Seen(s, p) && (Durable(s, p) ==> Durable(after, p))
    requires forall p: Path, c :: !p.Live? && May(after, p, c) ==> May(s, p, c)
    requires forall t :: Settled(after, Live(t), if t in later then Some(later[t]) else None)
    ensures AtRest(after, later)
  {
    assert RollbackSound(after);
  }

  // ------------------------------------------------------------------------------- one write at a time

  lemma BackedUpKeeps(s: DiskState, after: DiskState, p: Path, content: Option<File>, m: Migration)
    requires Attempted(s, after, p, content) && BackedUp(s, m)
    requires !p.Backup? || Seen(s, p) == None
    ensures BackedUp(after, m)
  {
  }

  predicate ListedIn(g: Generation, t: Target, raw: File) {
    g == First || (t in g.listing && g.listing[t] == Sha256(raw))
  }

  lemma BaseStep(s: DiskState, after: DiskState, orig: Files, p: Path, content: Option<File>)
    requires Base(s, orig) && Attempted(s, after, p, content)
    requires match p
      case Live(t) => t in orig
      case Backup(g, t) => Seen(s, p) == None && (content.Some? ==> ListedIn(g, t, content.value))
      case Rollback =>
        content.Some? && content.value.value.MigrationManifest? && |content.value.value.migration.files| > 0
                       && BackedUp(s, content.value.value.migration)
      case _ => true
    ensures Base(after, orig)
  {
    forall f | May(after, Rollback, Some(f))
      ensures f.value.MigrationManifest? && |f.value.migration.files| > 0 && BackedUp(after, f.value.migration)
    {
      if May(s, Rollback, Some(f)) {
        BackedUpKeeps(s, after, p, content, f.value.migration);
      } else {
        BackedUpKeeps(s, after, p, content, content.value.value.migration);
      }
    }
  }

  /** Writing a missing backup, a pending marker, or taking the manifest away leaves the sources at rest. */
  lemma AtRestStep(s: DiskState, after: DiskState, orig: Files, p: Path, content: Option<File>)
    requires AtRest(s, orig) && Attempted(s, after, p, content)
    requires match p
      case Backup(g, t) => t in orig && Seen(s, p) == None && content == Some(orig[t]) && ListedIn(g, t, orig[t])
      case Pending => content.Some? || Settled(s, Manifest, None)
      case Manifest => content.Some? ==> Settled(s, Manifest, None) && GoodManifest(s, content.value, orig)
      case _ => false
    ensures AtRest(after, orig)
  {
    BaseStep(s, after, orig, p, content);
    forall f | May(after, Manifest, Some(f))
      ensures GoodManifest(after, f, orig)
    {
      assert GoodManifest(s, f, orig);
      BackedUpKeeps(s, after, p, content, f.value.migration);
    }
  }

  lemma HeldStep(s: DiskState, after: DiskState, orig: Files, m: Migration, p: Path, content: Option<File>)
    requires Held(s, orig, m) && Attempted(s, after, p, content)
    requires (p.Live? && p.target in orig) || p == Pending
      || (p == Rollback && content == Some(ManifestFile(m)) && |m.files| > 0)
    ensures Held(after, orig, m)
  {
    BaseStep(s, after, orig, p, content);
    BackedUpKeeps(s, after, p, content, m);
  }

  lemma TurningStep(s: DiskState, after: DiskState, orig: Files, m: Migration, p: Path, content: Option<File>)
    requires Turning(s, orig, m) && Attempted(s, after, p, content)
    requires match p
      case Live(t) => t in orig && content in {Some(orig[t]), Some(Transformed(t, orig[t]))}
      case Pending => content.Some?
      case Rollback => content == Some(ManifestFile(m)) && |m.files| > 0
      case _ => false
    ensures Turning(after, orig, m)
  {
    HeldStep(s, after, orig, m, p, content);
    EitherVersionStep(s, after, orig, p, content);
  }

  lemma EitherVersionStep(s: DiskState, after: DiskState, orig: Files, p: Path, content: Option<File>)
    requires EitherVersion(s, orig) && Attempted(s, after, p, content)
    requires p.Live? ==>
      p.target in orig && content in {Some(orig[p.target]), Some(Transformed(p.target, orig[p.target]))}
    ensures EitherVersion(after, orig)
  {
  }

  lemma MigratedStep(s: DiskState, after: DiskState, orig: Files, m: Migration, content: Option<File>)
    requires Migrated(s, orig, m) && Attempted(s, after, Pending, content)
    ensures Migrated(after, orig, m)
  {
    HeldStep(s, after, orig, m, Pending, content);
  }

  /** The first sync inside the replacement loop makes the manifest and the pending marker durable. */
  ghost predicate MayTurn(s: DiskState, orig: Files, m: Migration) {
    && Seen(s, Manifest) == Some(ManifestFile(m))
    && (AtRest(s, orig) || Turning(s, orig, m) || (Migrated(s, orig, m) && Seen(s, Pending).Some?))
  }

  lemma StartTurning(s: DiskState, after: DiskState, orig: Files, m: Migration)
    requires MayTurn(s, orig, m) && Calmer(s, after) && Durable(after, Manifest) && Durable(after, Pending)
    ensures Turning(after, orig, m)
  {
    if AtRest(s, orig) {
      AtRestNarrows(s, after, orig);
      assert May(s, Manifest, Some(ManifestFile(m)));
    } else if Turning(s, orig, m) {
      TurningNarrows(s, after, orig, m);
    } else {
      MigratedNarrows(s, after, orig, m);
    }
  }

  lemma AllTurned(s: DiskState, orig: Files, m: Migration)
    requires Turning(s, orig, m)
    ensures AllV2(s, orig) ==> Migrated(s, orig, m)
    ensures AllV1(s, orig) && Durable(s, Rollback) && Seen(s, Rollback).Some? ==> AtRest(s, orig)
  {
  }

  // ------------------------------------------------------------------------------------- what is seen

  function LiveFiles(s: DiskState): (files: Files)
    ensures forall t :: t in files <==> Live(t) in s.visible
    ensures forall t :: t in files ==> files[t] == s.visible[Live(t)]
  {
    var targets := set p | p in s.visible && p.Live? :: p.target;
    map t | t in targets :: s.visible[Live(t)]
  }

  lemma EitherIsSeen(s: DiskState, orig: Files, t: Target)
    requires Underway(s, orig)
    ensures t !in orig ==> Seen(s, Live(t)) == None
    ensures t in orig ==> Seen(s, Live(t)) in {Some(orig[t]), Some(Transformed(t, orig[t]))}
    ensures t in orig && AtRest(s, orig) ==> Seen(s, Live(t)) == Some(orig[t])
  {
    hide GenerationsSound, RollbackSound, GoodManifest, PendingThere, Transformed;
    assert May(s, Live(t), Seen(s, Live(t)));
  }

  lemma VisibleFiles(s: DiskState, orig: Files)
    requires Underway(s, orig)
    ensures Mixture(LiveFiles(s), orig)
    ensures AtRest(s, orig) ==> LiveFiles(s) == orig
  {
    hide Underway, AtRest, Transformed;
    forall t
      ensures t !in orig ==> Seen(s, Live(t)) == None
      ensures t in orig ==> Seen(s, Live(t)) in {Some(orig[t]), Some(Transformed(t, orig[t]))}
      ensures t in orig && AtRest(s, orig) ==> Seen(s, Live(t)) == Some(orig[t])
    {
      EitherIsSeen(s, orig, t);
    }
    assert forall t :: t in LiveFiles(s) <==> Seen(s, Live(t)).Some?;
  }

  lemma VisibleManifest(s: DiskState, orig: Files)
    requires Underway(s, orig)
    ensures Seen(s, Manifest) == None ==> AtRest(s, orig)
    ensures match Seen(s, Manifest)
      case None => true
      case Some(f) =>
        && f.value.MigrationManifest? && ManifestFor(f.value.migration, orig)
        && if Seen(s, Pending).Some? then MayTurn(s, orig, f.value.migration) else Migrated(s, orig, f.value.migration)
  {
    assert May(s, Manifest, Seen(s, Manifest)) && May(s, Pending, Seen(s, Pending));
  }

  lemma TransformedIsV2(t: Target, orig: Files, workspaceId: Uuid)
    requires V1Files(orig, workspaceId) && t in orig
    ensures SchemaOf(Transformed(t, orig[t])) == V2
  {
    if t.Receipt? { assert t.operationId in OperationsIn(orig); }
  }

  // ------------------------------------------------------------------------------------ room on the disk

  /** What the entries from `from` on can add to the byte count, when the new files (or the originals) are written. */
  function EntryBytes(size: File -> nat, m: Migration, from: nat, originals: bool): nat
    decreases |m.files| - from
  {
    if from >= |m.files| then 0
    else
      size(if originals then m.files[from].before.of else m.files[from].after.of)
      + EntryBytes(size, m, from + 1, originals)
  }

  predicate SnapshotsFit(w: Writer, m: Migration) {
    forall i :: 0 <= i < |m.files| && m.files[i].path == StateJson ==>
      w.size(m.files[i].before.of) <= w.maxSnapshotBytes && w.size(m.files[i].after.of) <= w.maxSnapshotBytes
  }

  /** Room for the replacements from entry `from` on. */
  predicate RoomToTurn(w: Writer, m: Migration, from: nat)
    reads w
  {
    SnapshotsFit(w, m) && w.bytesUsed + EntryBytes(w.size, m, from, false) <= w.maxTotalBytes
  }

  /** Room for the originals from entry `from` on, and then for the rollback marker. */
  predicate RoomToRestore(w: Writer, m: Migration, from: nat)
    reads w
  {
    SnapshotsFit(w, m) && w.bytesUsed + EntryBytes(w.size, m, from, true) + w.size(ManifestFile(m)) <= w.maxTotalBytes
  }

  /** Room for the two markers, and then for all replacements. */
  predicate RoomToAuthorize(w: Writer, m: Migration)
    reads w
  {
    && SnapshotsFit(w, m)
    && w.bytesUsed + w.size(MIGRATION_TEXT) + w.size(ManifestFile(m)) + EntryBytes(w.size, m, 0, false)
       <= w.maxTotalBytes
  }

  ghost predicate BackupsFit(w: Writer, files: Files)
    reads w
  {
    && (StateJson in files ==> w.size(files[StateJson]) <= w.maxSnapshotBytes)
    && w.bytesUsed + Sum(files, w.size) <= w.maxTotalBytes
  }

  ghost predicate MigrationFits(w: Writer, orig: Files, used: nat, m: Migration) {
    && SnapshotsFit(w, m)
    && used + Sum(orig, w.size) + w.size(MIGRATION_TEXT) + w.size(ManifestFile(m)) + EntryBytes(w.size, m, 0, false)
       <= w.maxTotalBytes
  }

  /** Room for everything a whole migration of these originals may write, in whatever order it lists them. */
  ghost predicate RoomToMigrate(w: Writer, orig: Files)
    reads w
  {
    BackupsFit(w, orig) && forall m :: ManifestFor(m, orig) ==> MigrationFits(w, orig, w.bytesUsed, m)
  }

  /** Room for everything a whole rollback may write. */
  predicate RoomToRollBack(w: Writer, m: Migration)
    reads w
  {
    && SnapshotsFit(w, m)
    && w.bytesUsed + w.size(ROLLBACK_TEXT) + EntryBytes(w.size, m, 0, true) + w.size(ManifestFile(m)) <= w.maxTotalBytes
  }

  // --------------------------------------------------------------------------------- the procedures

  /** `marker(directory, name)`. */
  method ReadMarker(w: Writer, p: Path) returns (r: Outcome, m: Option<Migration>)
    ensures r.Done? && m.None? ==> Seen(w.volume.s, p) == None
    ensures r.Done? && m.Some? ==>
      Seen(w.volume.s, p).Some? && Seen(w.volume.s, p).value.value == MigrationManifest(m.value) && |m.value.files| > 0
    ensures r.Refused? ==> r == Refused(StateCorrupt) && Seen(w.volume.s, p).Some?
    ensures r.Refused? ==>
      !(Seen(w.volume.s, p).value.value.MigrationManifest? && |Seen(w.volume.s, p).value.value.migration.files| > 0)
    ensures w.volume.calm ==> !r.Fault?
  {
    var ok, raw := w.volume.Read(p);
    m := None;
    if !ok { return Fault, m; }
    if raw.None? { return Done, m; }
    if !raw.value.value.MigrationManifest? || |raw.value.value.migration.files| == 0 {
      return Refused(StateCorrupt), m;
    }
    return Done, Some(raw.value.value.migration);
  }

  method BackUpOne(w: Writer, g: Generation, t: Target, raw: File) returns (r: Outcome)
    requires w.Valid()
    modifies w, w.volume`s
    ensures w.Valid()
    ensures old(Seen(w.volume.s, Backup(g, t))).Some? ==> Calmer(old(w.volume.s), w.volume.s)
    ensures Attempted(old(w.volume.s), w.volume.s, Backup(g, t), Some(raw))
    ensures r == Refused(StateCorrupt) ==> old(Seen(w.volume.s, Backup(g, t))) !in {None, Some(raw)}
    ensures r.Refused? ==> r == Refused(StateCorrupt) || r == Refused(StorageFull)
    ensures r.Done? ==> Settled(w.volume.s, Backup(g, t), Some(raw)) && Durable(w.volume.s, Manifest)
    ensures w.volume.calm ==> !r.Fault?
    ensures r == Refused(StorageFull) ==> old(w.OverBudget(Backup(g, t), raw))
    ensures r.Done? ==> w.bytesUsed <= old(w.bytesUsed) + w.size(raw)
  {
    var p := Backup(g, t);
    ChainsReachTheWorkspace(p, WorkspaceDirectory);
    var ok, previous := w.volume.Read(p);
    if !ok { return Fault; }
    if previous.Some? && previous.value != raw { return Refused(StateCorrupt); }
    if previous.None? {
      r := w.AtomicWrite(p, raw);
      if !r.Done? { return; }
    }
    ok := w.volume.SyncFileAndParents(p, WorkspaceDirectory);
    assert ok ==> Durable(w.volume.s, p) && Durable(w.volume.s, Manifest);
    return if ok then Done else Fault;
  }

  /** One round of the replacement loop. */
  method TurnOne(w: Writer, m: Migration, i: nat) returns (r: Outcome, ghost ready: DiskState)
    requires w.Valid() && i < |m.files|
    modifies w, w.volume`s
    ensures w.Valid()
    ensures r.Refused? ==> r == Refused(StateCorrupt) || r == Refused(StorageFull)
    ensures r == Refused(StateCorrupt) ==> Calmer(old(w.volume.s), w.volume.s)
    ensures r == Refused(StateCorrupt) ==>
      || old(Seen(w.volume.s, Backup(m.backupDirectory, m.files[i].path))).None?
      || old(Seen(w.volume.s, Backup(m.backupDirectory, m.files[i].path))).value != m.files[i].before.of
      || Transformed(m.files[i].path, m.files[i].before.of) != m.files[i].after.of
      || old(Seen(w.volume.s, Live(m.files[i].path))) !in {Some(m.files[i].before.of), Some(m.files[i].after.of)}
    ensures Calmer(old(w.volume.s), ready)
    ensures ready == w.volume.s || (Durable(ready, Manifest) && Durable(ready, Pending))
    ensures Attempted(ready, w.volume.s, Live(m.files[i].path), Some(m.files[i].after.of))
    ensures r.Done? ==>
      && Settled(w.volume.s, Live(m.files[i].path), Some(m.files[i].after.of)) && Durable(w.volume.s, Manifest)
      && Durable(w.volume.s, Pending)
    ensures w.volume.calm ==> !r.Fault?
    ensures r == Refused(StorageFull) ==> old(w.OverBudget(Live(m.files[i].path), m.files[i].after.of))
    ensures r.Done? ==> w.bytesUsed <= old(w.bytesUsed) + w.size(m.files[i].after.of)
  {
    var e := m.files[i];
    var p := Backup(m.backupDirectory, e.path);
    ready := w.volume.s;
    ChainsReachTheWorkspace(p, WorkspaceDirectory);
    var ok, original := w.volume.Read(p);
    if !ok { return Fault, ready; }
    if original.None? || original.value != e.before.of || Transformed(e.path, original.value) != e.after.of {
      return Refused(StateCorrupt), ready;
    }
    ok := w.volume.SyncFileAndParents(p, WorkspaceDirectory);
    ready := w.volume.s;
    if !ok { return Fault, ready; }
    assert Durable(ready, Manifest) && Durable(ready, Pending);
    var current;
    ok, current := w.volume.Read(Live(e.path));
    if !ok { return Fault, ready; }
    if current != Some(e.before.of) && current != Some(e.after.of) { return Refused(StateCorrupt), ready; }
    r := PutVersion(w, e.path, current, Transformed(e.path, original.value));
  }

  /** The write of one transformed file, unless it is there, and the sync after it. */
  method PutVersion(w: Writer, t: Target, current: Option<File>, next: File) returns (r: Outcome)
    requires w.Valid() && Seen(w.volume.s, Live(t)) == current
    modifies w, w.volume`s
    ensures w.Valid()
    ensures Attempted(old(w.volume.s), w.volume.s, Live(t), Some(next))
    ensures r.Refused? ==> r == Refused(StorageFull) && old(w.OverBudget(Live(t), next))
    ensures r.Done? ==> Settled(w.volume.s, Live(t), Some(next))
    ensures r.Done? ==> Durable(w.volume.s, Manifest) && Durable(w.volume.s, Pending)
    ensures r.Done? ==> w.bytesUsed <= old(w.bytesUsed) + w.size(next)
    ensures w.volume.calm ==> !r.Fault?
  {
    ChainsReachTheWorkspace(Live(t), WorkspaceDirectory);
    if current != Some(next) {
      r := w.AtomicWrite(Live(t), next);
      if !r.Done? { return; }
    }
    var ok := w.volume.SyncFileAndParents(Live(t), WorkspaceDirectory);
    assert ok ==> Durable(w.volume.s, Live(t)) && Durable(w.volume.s, Manifest) && Durable(w.volume.s, Pending);
    r := if ok then Done else Fault;
  }

  /** The replacement loop stands before file i. */
  ghost predicate TurnedUpTo(s: DiskState, orig: Files, m: Migration, i: nat) {
    && (if i == 0 then MayTurn(s, orig, m) else Turning(s, orig, m))
    && TurnedBefore(s, m, i)
  }

  ghost predicate TurnedBefore(s: DiskState, m: Migration, i: nat) {
    forall a :: 0 <= a < i < |m.files| + 1 ==> Settled(s, Live(m.files[a].path), Some(m.files[a].after.of))
  }

  lemma TurnedBeforeStep(s: DiskState, ready: DiskState, after: DiskState, orig: Files, m: Migration, i: nat,
                         done: bool)
    requires i < |m.files| && ManifestFor(m, orig) && TurnedBefore(s, m, i)
    requires Calmer(s, ready)
    requires Attempted(ready, after, Live(m.files[i].path), Some(m.files[i].after.of))
    requires done ==> Settled(after, Live(m.files[i].path), Some(m.files[i].after.of))
    ensures done ==> TurnedBefore(after, m, i + 1)
  {
  }

  lemma TurnOneStep(s: DiskState, ready: DiskState, after: DiskState, orig: Files, m: Migration, i: nat, done: bool)
    requires i < |m.files| && ManifestFor(m, orig) && TurnedUpTo(s, orig, m, i)
    requires Calmer(s, ready) && (ready == after || (Durable(ready, Manifest) && Durable(ready, Pending)))
    requires Attempted(ready, after, Live(m.files[i].path), Some(m.files[i].after.of))
    requires done ==>
      && Settled(after, Live(m.files[i].path), Some(m.files[i].after.of)) && Durable(after, Manifest)
      && Durable(after, Pending)
    ensures Underway(after, orig)
    ensures done ==> TurnedUpTo(after, orig, m, i + 1)
  {
    SyncsAndPowerLossNarrow(s, ready);
    TurnedBeforeStep(s, ready, after, orig, m, i, done);
    var e := m.files[i];
    if Durable(ready, Manifest) && Durable(ready, Pending) {
      if i == 0 { StartTurning(s, ready, orig, m); } else { TurningNarrows(s, ready, orig, m); }
      TurningStep(ready, after, orig, m, Live(e.path), Some(e.after.of));
    } else {
      UnderwayNarrows(s, ready, orig);
      assert done ==> Turning(after, orig, m) by {
        if done && i == 0 { StartTurning(s, ready, orig, m); }
      }
    }
  }

  lemma TurnOneIsNeverRefused(s: DiskState, orig: Files, m: Migration, i: nat)
    requires i < |m.files| && ManifestFor(m, orig) && TurnedUpTo(s, orig, m, i)
    ensures Seen(s, Backup(m.backupDirectory, m.files[i].path)) == Some(m.files[i].before.of)
    ensures Transformed(m.files[i].path, m.files[i].before.of) == m.files[i].after.of
    ensures Seen(s, Live(m.files[i].path)) in {Some(m.files[i].before.of), Some(m.files[i].after.of)}
  {
    assert May(s, Manifest, Seen(s, Manifest));
    assert May(s, Live(m.files[i].path), Seen(s, Live(m.files[i].path)));
    assert BackedUp(s, m);
  }

  lemma SomethingListed(m: Migration, orig: Files)
    requires ManifestFor(m, orig) && orig != map[]
    ensures |m.files| > 0
  {
    var t :| t in orig;
    assert t in PathsOf(m);
  }

  lemma AllFilesTurned(s: DiskState, orig: Files, m: Migration)
    requires ManifestFor(m, orig) && |m.files| > 0 && TurnedUpTo(s, orig, m, |m.files|)
    ensures Migrated(s, orig, m) && Underway(s, orig)
  {
    forall t | t in orig
      ensures Settled(s, Live(t), Some(Transformed(t, orig[t])))
    {
      assert t in PathsOf(m);
      var a :| 0 <= a < |m.files| && m.files[a].path == t;
    }
    AllTurned(s, orig, m);
  }

  method TurnAt(w: Writer, m: Migration, i: nat, ghost orig: Files, ghost ours: bool) returns (r: Outcome)
    requires w.Valid() && i < |m.files|
    requires ours ==> TurnedUpTo(w.volume.s, orig, m, i) && ManifestFor(m, orig)
    modifies w, w.volume`s
    ensures w.Valid()
    ensures ours ==> Underway(w.volume.s, orig) && (r.Refused? ==> r == Refused(StorageFull))
    ensures ours && r.Done? ==> TurnedUpTo(w.volume.s, orig, m, i + 1)
    ensures w.volume.calm ==> !r.Fault?
    ensures old(RoomToTurn(w, m, i)) ==> r != Refused(StorageFull)
    ensures old(RoomToTurn(w, m, i)) && r.Done? ==> RoomToTurn(w, m, i + 1)
  {
    ghost var s := w.volume.s;
    ghost var ready;
    if ours { TurnOneIsNeverRefused(s, orig, m, i); }
    r, ready := TurnOne(w, m, i);
    if ours { TurnOneStep(s, ready, w.volume.s, orig, m, i, r.Done?); }
  }

  method Turn(w: Writer, m: Migration, ghost orig: Files, ghost ours: bool) returns (r: Outcome)
    requires w.Valid()
    requires ours ==> MayTurn(w.volume.s, orig, m) && ManifestFor(m, orig) && orig != map[]
    modifies w, w.volume`s
    ensures w.Valid()
    ensures ours ==> Underway(w.volume.s, orig) && (r.Refused? ==> r == Refused(StorageFull))
    ensures ours && r.Done? ==> Migrated(w.volume.s, orig, m)
    ensures w.volume.calm ==> !r.Fault?
    ensures old(RoomToTurn(w, m, 0)) ==> r != Refused(StorageFull)
  {
    hide Migrated, Underway, ManifestFor, RoomToTurn;
    if ours { SomethingListed(m, orig); }
    var i := 0;
    while i < |m.files|
      invariant 0 <= i <= |m.files| && w.Valid()
      invariant ours ==> TurnedUpTo(w.volume.s, orig, m, i)
      invariant old(RoomToTurn(w, m, 0)) ==> RoomToTurn(w, m, i)
    {
      r := TurnAt(w, m, i, orig, ours);
      if !r.Done? { return; }
      i := i + 1;
    }
    if ours { AllFilesTurned(w.volume.s, orig, m); }
    return Done;
  }

  // ------------------------------------------------------------------------------------------ backups

  /** The backup loop stands here: `entries` are written and durable, `todo` is left. */
  ghost predicate BackingUp(s: DiskState, orig: Files, g: Generation, entries: seq<MigrationEntry>, todo: set<Target>) {
    && AtRest(s, orig) && Seen(s, Manifest) == None
    && (todo != orig.Keys ==> Settled(s, Manifest, None))
    && (Seen(s, Rollback) == None <==> g == First)
    && (g.ForFiles? ==> g.listing == Digests(orig))
    && Lists(Migration(g, entries), orig, todo)
    && BackedUp(s, Migration(g, entries))
  }

  /** m lists, once each, exactly the originals outside `todo`. */
  ghost predicate Lists(m: Migration, orig: Files, todo: set<Target>) {
    && PathsOf(m) == orig.Keys - todo
    && (forall a, b :: 0 <= a < b < |m.files| ==> m.files[a].path != m.files[b].path)
    && forall i :: 0 <= i < |m.files| ==> m.files[i].path in orig && m.files[i] == EntryOf(m.files[i].path, orig)
  }

  lemma PathsOneMore(m: Migration, e: MigrationEntry)
    ensures PathsOf(m.(files := m.files + [e])) == PathsOf(m) + {e.path}
  {
    var longer := m.(files := m.files + [e]);
    forall t | t in PathsOf(m) ensures t in PathsOf(longer) {
      var i :| 0 <= i < |m.files| && m.files[i].path == t;
      assert longer.files[i] == m.files[i];
    }
    forall t | t in PathsOf(longer) ensures t in PathsOf(m) + {e.path} {
      var i :| 0 <= i < |longer.files| && longer.files[i].path == t;
      assert i < |m.files| ==> longer.files[i] == m.files[i];
    }
    assert longer.files[|m.files|] == e;
  }

  lemma ListOneMore(m: Migration, orig: Files, todo: set<Target>, t: Target)
    requires Lists(m, orig, todo) && t in todo && t in orig
    ensures Lists(m.(files := m.files + [EntryOf(t, orig)]), orig, todo - {t})
  {
    PathsOneMore(m, EntryOf(t, orig));
    assert forall i :: 0 <= i < |m.files| ==> m.files[i].path != t by {
      assert t !in PathsOf(m);
    }
    assert orig.Keys - (todo - {t}) == (orig.Keys - todo) + {t};
  }

  lemma BackUpOneMore(s: DiskState, m: Migration, e: MigrationEntry)
    requires BackedUp(s, m) && Settled(s, Backup(m.backupDirectory, e.path), Some(e.before.of))
    ensures BackedUp(s, m.(files := m.files + [e]))
  {
  }

  function Digests(files: Files): map<Target, Sha256> { map t | t in files :: Sha256(files[t]) }

  function EntryOf(t: Target, files: Files): MigrationEntry
    requires t in files
  {
    MigrationEntry(t, Sha256(files[t]), Sha256(Transformed(t, files[t])))
  }

  /** An old backup in the chosen directory, if there is one, has the right bytes. */
  lemma OldBackupAgrees(s: DiskState, orig: Files, g: Generation, entries: seq<MigrationEntry>, todo: set<Target>,
                        t: Target)
    requires BackingUp(s, orig, g, entries, todo) && t in orig
    ensures Seen(s, Backup(g, t)) in {None, Some(orig[t])}
  {
    var c := Seen(s, Backup(g, t));
    assert May(s, Backup(g, t), c);
    if c.Some? && g.ForFiles? {
      assert t in g.listing && g.listing[t] == Sha256(c.value);
    }
  }

  lemma BackUpStep(s: DiskState, after: DiskState, orig: Files, g: Generation, entries: seq<MigrationEntry>,
                   todo: set<Target>, t: Target, done: bool)
    requires BackingUp(s, orig, g, entries, todo) && t in todo && t in orig
    requires Attempted(s, after, Backup(g, t), Some(orig[t]))
    requires Seen(s, Backup(g, t)).Some? ==> Calmer(s, after)
    requires done ==> Settled(after, Backup(g, t), Some(orig[t])) && Durable(after, Manifest)
    ensures AtRest(after, orig)
    ensures done ==> BackingUp(after, orig, g, entries + [EntryOf(t, orig)], todo - {t})
  {
    var m := Migration(g, entries);
    if Seen(s, Backup(g, t)).Some? {
      SyncsAndPowerLossNarrow(s, after);
      AtRestNarrows(s, after, orig);
      assert BackedUp(after, m);
    } else {
      AtRestStep(s, after, orig, Backup(g, t), Some(orig[t]));
      BackedUpKeeps(s, after, Backup(g, t), Some(orig[t]), m);
    }
    if done {
      ListOneMore(m, orig, todo, t);
      BackUpOneMore(after, m, EntryOf(t, orig));
      assert m.(files := entries + [EntryOf(t, orig)]) == Migration(g, entries + [EntryOf(t, orig)]);
    }
  }

  const MIGRATION_TEXT: File := Body(Text("migration"))
  const ROLLBACK_TEXT: File := Body(Text("rollback"))

  lemma ListsAll(m: Migration, orig: Files)
    requires Lists(m, orig, {})
    ensures ManifestFor(m, orig)
  {
  }

  predicate Fits(w: Writer, t: Target, raw: File)
    reads w
  {
    (t == StateJson ==> w.size(raw) <= w.maxSnapshotBytes) && w.bytesUsed + w.size(raw) <= w.maxTotalBytes
  }

  /** One round of the backup loop. */
  method BackUpAt(w: Writer, g: Generation, t: Target, raw: File, ghost orig: Files, ghost ours: bool,
                  ghost entries: seq<MigrationEntry>, ghost todo: set<Target>) returns (r: Outcome)
    requires w.Valid()
    requires ours ==> t in todo && t in orig && orig[t] == raw && BackingUp(w.volume.s, orig, g, entries, todo)
    modifies w, w.volume`s
    ensures w.Valid() && (w.volume.calm ==> !r.Fault?)
    ensures ours ==> AtRest(w.volume.s, orig) && (r.Refused? ==> r == Refused(StorageFull))
    ensures ours && r.Done? ==> BackingUp(w.volume.s, orig, g, entries + [EntryOf(t, orig)], todo - {t})
    ensures old(Fits(w, t, raw)) ==> r != Refused(StorageFull)
    ensures r.Done? ==> w.bytesUsed <= old(w.bytesUsed) + w.size(raw)
  {
    ghost var s := w.volume.s;
    if ours { OldBackupAgrees(s, orig, g, entries, todo, t); }
    r := BackUpOne(w, g, t, raw);
    if ours { BackUpStep(s, w.volume.s, orig, g, entries, todo, t, r.Done?); }
  }

  function Only(files: Files, todo: set<Target>): Files {
    map t | t in todo && t in files :: files[t]
  }

  lemma OnlyTakesOne(files: Files, size: File -> nat, todo: set<Target>, t: Target)
    requires t in todo && t in files
    ensures Sum(Only(files, todo), size) == size(files[t]) + Sum(Only(files, todo - {t}), size)
  {
    SumAround(Only(files, todo), size, t);
    assert Only(files, todo) - {t} == Only(files, todo - {t});
  }

  lemma BackingUpIsAtRest(s: DiskState, orig: Files, g: Generation, entries: seq<MigrationEntry>, todo: set<Target>)
    requires BackingUp(s, orig, g, entries, todo)
    ensures AtRest(s, orig)
  {
  }

  lemma OnlyAll(files: Files)
    ensures Only(files, files.Keys) == files
  {
  }

  method BackUpAll(w: Writer, files: Files, g: Generation, ghost orig: Files, ghost ours: bool)
    returns (r: Outcome, entries: seq<MigrationEntry>)
    requires w.Valid()
    requires ours ==> files == orig && BackingUp(w.volume.s, orig, g, [], orig.Keys)
    modifies w, w.volume`s
    ensures w.Valid() && (w.volume.calm ==> !r.Fault?)
    ensures ours ==> AtRest(w.volume.s, orig) && (r.Refused? ==> r == Refused(StorageFull))
    ensures ours && r.Done? ==> BackingUp(w.volume.s, orig, g, entries, {})
    ensures old(BackupsFit(w, files)) ==> r != Refused(StorageFull)
    ensures r.Done? ==> w.bytesUsed <= old(w.bytesUsed) + Sum(files, w.size)
  {
    hide BackingUp, AtRest, Sum, Only;
    entries := [];
    var todo := files.Keys;
    OnlyAll(files);
    while todo != {}
      invariant w.Valid() && todo <= files.Keys
      invariant ours ==> BackingUp(w.volume.s, orig, g, entries, todo)
      invariant w.bytesUsed + Sum(Only(files, todo), w.size) <= old(w.bytesUsed) + Sum(files, w.size)
    {
      var t :| t in todo;
      OnlyTakesOne(files, w.size, todo, t);
      r := BackUpAt(w, g, t, files[t], orig, ours, entries, todo);
      if !r.Done? { return; }
      entries := entries + [EntryOf(t, files)];
      todo := todo - {t};
    }
    if ours { BackingUpIsAtRest(w.volume.s, orig, g, entries, todo); }
    r := Done;
  }

  /** A completed rollback opens a new backup generation; the earlier bytes must still be intact. */
  method ChooseGeneration(w: Writer, files: Files) returns (r: Outcome, g: Generation)
    ensures r.Refused? ==> r == Refused(StateCorrupt) && !RollbackSound(w.volume.s)
    ensures r.Done? ==>
      (Seen(w.volume.s, Rollback) == None <==> g == First) && (g.ForFiles? ==> g.listing == Digests(files))
    ensures w.volume.calm && RollbackSound(w.volume.s) ==> r.Done?
  {
    var rollback;
    g := First;
    assert May(w.volume.s, Rollback, Seen(w.volume.s, Rollback));
    r, rollback := ReadMarker(w, Rollback);
    if !r.Done? || rollback.None? { return; }
    for i := 0 to |rollback.value.files| {
      var e := rollback.value.files[i];
      var ok, original := w.volume.Read(Backup(rollback.value.backupDirectory, e.path));
      if !ok { return Fault, g; }
      if original.None? || Sha256(original.value) != e.before {
        assert !Settled(w.volume.s, Backup(rollback.value.backupDirectory, e.path), Some(e.before.of));
        return Refused(StateCorrupt), g;
      }
    }
    g := ForFiles(Digests(files));
  }

  lemma FirstBackup(s: DiskState, orig: Files, g: Generation)
    requires AtRest(s, orig) && Seen(s, Manifest) == None
    requires (Seen(s, Rollback) == None <==> g == First) && (g.ForFiles? ==> g.listing == Digests(orig))
    ensures BackingUp(s, orig, g, [], orig.Keys)
  {
    assert PathsOf(Migration(g, [])) == {};
  }

  /** Backups first, then the pending marker, then the manifest that authorizes replacement. */
  method BeginMigration(w: Writer, files: Files, ghost orig: Files, ghost ours: bool) returns (r: Outcome, m: Migration)
    requires w.Valid()
    requires ours ==> files == orig && orig != map[] && AtRest(w.volume.s, orig) && Seen(w.volume.s, Manifest) == None
    modifies w, w.volume`s
    ensures w.Valid() && (w.volume.calm && ours ==> !r.Fault?)
    ensures ours ==> AtRest(w.volume.s, orig) && (r.Refused? ==> r == Refused(StorageFull))
    ensures ours && r.Done? ==> MayTurn(w.volume.s, orig, m) && ManifestFor(m, orig)
    ensures ours && old(RoomToMigrate(w, orig)) ==> r != Refused(StorageFull)
    ensures ours && old(RoomToMigrate(w, orig)) && r.Done? ==> RoomToTurn(w, m, 0)
  {
    var g, entries;
    m := Migration(First, []);
    ghost var used := w.bytesUsed;
    r, g := ChooseGeneration(w, files);
    if !r.Done? { return; }
    if ours { FirstBackup(w.volume.s, orig, g); }
    r, entries := BackUpAll(w, files, g, orig, ours);
    if !r.Done? { return; }
    m := Migration(g, entries);
    if ours { ListsAll(m, orig); }
    assert ours && old(RoomToMigrate(w, orig)) ==> MigrationFits(w, orig, used, m);
    r := Authorize(w, m, orig, ours);
  }

  method Authorize(w: Writer, m: Migration, ghost orig: Files, ghost ours: bool) returns (r: Outcome)
    requires w.Valid()
    requires ours ==> BackingUp(w.volume.s, orig, m.backupDirectory, m.files, {}) && orig != map[]
    modifies w, w.volume`s
    ensures w.Valid() && (w.volume.calm ==> !r.Fault?)
    ensures ours ==> AtRest(w.volume.s, orig) && (r.Refused? ==> r == Refused(StorageFull))
    ensures ours && r.Done? ==> MayTurn(w.volume.s, orig, m)
    ensures old(RoomToAuthorize(w, m)) ==> r != Refused(StorageFull) && (r.Done? ==> RoomToTurn(w, m, 0))
  {
    ghost var s1 := w.volume.s;
    r := w.AtomicWrite(Pending, MIGRATION_TEXT);
    ghost var s2 := w.volume.s;
    if ours { AfterPending(s1, s2, orig, m, r.Done?); }
    if !r.Done? { return; }
    r := w.AtomicWrite(Manifest, ManifestFile(m));
    if ours { AtRestStep(s2, w.volume.s, orig, Manifest, Some(ManifestFile(m))); }
  }

  lemma AfterPending(s: DiskState, after: DiskState, orig: Files, m: Migration, done: bool)
    requires AtRest(s, orig) && Settled(s, Manifest, None) && Lists(m, orig, {}) && BackedUp(s, m)
    requires Attempted(s, after, Pending, Some(MIGRATION_TEXT))
    requires done ==> Settled(after, Pending, Some(MIGRATION_TEXT))
    ensures AtRest(after, orig)
    ensures done ==> Settled(after, Manifest, None) && GoodManifest(after, ManifestFile(m), orig)
  {
    AtRestStep(s, after, orig, Pending, Some(MIGRATION_TEXT));
    BackedUpKeeps(s, after, Pending, Some(MIGRATION_TEXT), m);
    ListsAll(m, orig);
  }

  /** What the transforms of the v1 files say. */
  lemma TransformsSayTheSame(orig: Files, workspaceId: Uuid, t: Target)
    requires V1Files(orig, workspaceId) && t in orig
    ensures SaysInV2(orig[t], Transformed(t, orig[t]))
  {
    if t.StateJson? { ReadingUpgrades(orig[t]); } else { assert t.operationId in OperationsIn(orig); }
  }

  lemma MigratedIsInV2(s: DiskState, orig: Files, workspaceId: Uuid)
    requires V1Files(orig, workspaceId) && exists m :: Migrated(s, orig, m)
    ensures InV2(s, orig)
  {
    hide V1Files, Transformed, SaysInV2;
    forall t | t in orig ensures SaysInV2(orig[t], Transformed(t, orig[t])) {
      TransformsSayTheSame(orig, workspaceId, t);
    }
  }

  /**
    * `migrateWorkspace`. Started anywhere a crashed migration or rollback can have stopped, it never
    * refuses (unless the byte budget does), and when it finishes every listed file is durably the
    * transform of its v1 original: it says in v2 what that said.
    */
  method Migrate(w: Writer, workspaceId: Uuid, ghost orig: Files) returns (r: Outcome)
    requires w.Valid()
    modifies w, w.volume`s
    ensures w.Valid()
    ensures V1Files(orig, workspaceId) && old(Underway(w.volume.s, orig)) ==>
      Underway(w.volume.s, orig) && (r.Refused? ==> r == Refused(StorageFull))
    ensures V1Files(orig, workspaceId) && old(Underway(w.volume.s, orig)) && r.Done? ==>
      (exists m :: Migrated(w.volume.s, orig, m)) && Settled(w.volume.s, Pending, None)
    ensures V1Files(orig, workspaceId) && old(Underway(w.volume.s, orig)) && r.Done? ==> InV2(w.volume.s, orig)
    ensures V1Files(orig, workspaceId) && old(Underway(w.volume.s, orig)) && w.volume.calm ==>
      r.Done? || r == Refused(StorageFull)
    ensures V1Files(orig, workspaceId) && old(Underway(w.volume.s, orig) && RoomToMigrate(w, orig)) ==>
      r != Refused(StorageFull)
  {
    hide InV2;
    ghost var ours := V1Files(orig, workspaceId) && Underway(w.volume.s, orig);
    if ours { WhatMigrateReads(w.volume.s, orig, workspaceId); }
    var existing, pending;
    r, existing := ReadMarker(w, Manifest);
    if !r.Done? { return; }
    var listed := w.volume.MaySucceed();
    if !listed { return Fault; }
    var files := LiveFiles(w.volume.s);
    if !FilesValid(files, workspaceId) { return Refused(StateCorrupt); }
    var ok;
    ok, pending := w.volume.Read(Pending);
    if !ok { return Fault; }
    if existing.Some? && pending.None? {
      if exists t :: t in files && SchemaOf(files[t]) != V2 { return Refused(StateCorrupt); }
      r := FinishMigrated(w, existing.value, orig, ours);
      if ours && r.Done? { MigratedIsInV2(w.volume.s, orig, workspaceId); }
      return;
    }
    if existing.None? && forall t :: t in files ==> SchemaOf(files[t]) != V1 { return Done; }
    r := GoForward(w, files, existing, orig, ours);
    if ours && r.Done? { MigratedIsInV2(w.volume.s, orig, workspaceId); }
  }

  lemma RoomIsLeft(w: Writer, orig: Files, m: Migration)
    requires RoomToMigrate(w, orig) && ManifestFor(m, orig)
    ensures RoomToTurn(w, m, 0)
  {
    assert MigrationFits(w, orig, w.bytesUsed, m);
  }

  /** Begin, or go on where an earlier migration or rollback stopped. */
  method GoForward(w: Writer, files: Files, existing: Option<Migration>, ghost orig: Files,
                   ghost ours: bool) returns (r: Outcome)
    requires w.Valid()
    requires ours ==> orig != map[] && forall t :: t in orig ==> SchemaOf(orig[t]) == V1
    requires ours && existing.None? ==> files == orig && AtRest(w.volume.s, orig) && Seen(w.volume.s, Manifest) == None
    requires ours && existing.Some? ==> MayTurn(w.volume.s, orig, existing.value) && ManifestFor(existing.value, orig)
    modifies w, w.volume`s
    ensures w.Valid() && (ours && w.volume.calm ==> !r.Fault?)
    ensures ours ==> Underway(w.volume.s, orig) && (r.Refused? ==> r == Refused(StorageFull))
    ensures ours && r.Done? ==> (exists m :: Migrated(w.volume.s, orig, m)) && Settled(w.volume.s, Pending, None)
    ensures ours && old(RoomToMigrate(w, orig)) ==> r != Refused(StorageFull)
  {
    hide AtRest, Migrated, Settled, MayTurn, RoomToMigrate, RoomToTurn, ManifestFor;
    if existing.Some? {
      if ours && RoomToMigrate(w, orig) { RoomIsLeft(w, orig, existing.value); }
      r := ReplaceAll(w, existing.value, orig, ours);
      return;
    }
    if exists t :: t in files && SchemaOf(files[t]) != V1 { return Refused(StateCorrupt); }
    var m;
    r, m := BeginMigration(w, files, orig, ours);
    if !r.Done? { return; }
    r := ReplaceAll(w, m, orig, ours);
  }

  /** The replacement loop, and the end of the pending marker. */
  method ReplaceAll(w: Writer, m: Migration, ghost orig: Files, ghost ours: bool) returns (r: Outcome)
    requires w.Valid()
    requires ours ==> MayTurn(w.volume.s, orig, m) && ManifestFor(m, orig) && orig != map[]
    modifies w, w.volume`s
    ensures w.Valid() && (w.volume.calm ==> !r.Fault?)
    ensures ours ==> Underway(w.volume.s, orig) && (r.Refused? ==> r == Refused(StorageFull))
    ensures ours && r.Done? ==> (exists m :: Migrated(w.volume.s, orig, m)) && Settled(w.volume.s, Pending, None)
    ensures ours && old(RoomToTurn(w, m, 0)) ==> r != Refused(StorageFull)
  {
    r := Turn(w, m, orig, ours);
    if !r.Done? { return; }
    r := DropPending(w, m, orig, ours);
  }

  /** An already finished migration only completes the sync of its own removal. */
  method FinishMigrated(w: Writer, m: Migration, ghost orig: Files, ghost ours: bool) returns (r: Outcome)
    requires w.Valid()
    requires ours ==> Migrated(w.volume.s, orig, m) && Seen(w.volume.s, Pending) == None
    modifies w.volume`s
    ensures w.Valid() && !r.Refused?
    ensures ours ==> Migrated(w.volume.s, orig, m)
    ensures ours && r.Done? ==> Settled(w.volume.s, Pending, None)
    ensures w.volume.calm ==> r.Done?
  {
    ghost var s := w.volume.s;
    var ok := w.volume.SyncDirectory(WorkspaceDirectory);
    if ours {
      SyncsAndPowerLossNarrow(s, w.volume.s);
      MigratedNarrows(s, w.volume.s, orig, m);
    }
    return if ok then Done else Fault;
  }

  method DropPending(w: Writer, m: Migration, ghost orig: Files, ghost ours: bool) returns (r: Outcome)
    requires w.Valid()
    requires ours ==> Migrated(w.volume.s, orig, m)
    modifies w.volume`s
    ensures w.Valid() && !r.Refused?
    ensures ours ==> Migrated(w.volume.s, orig, m)
    ensures ours && r.Done? ==> Settled(w.volume.s, Pending, None)
    ensures w.volume.calm ==> r.Done?
  {
    ghost var s := w.volume.s;
    var ok := w.volume.RemoveDurably(Pending);
    if ours { MigratedStep(s, w.volume.s, orig, m, None); }
    return if ok then Done else Fault;
  }

  /** Every check at the start of `migrateWorkspace` passes wherever the migration stands. */
  lemma WhatMigrateReads(s: DiskState, orig: Files, workspaceId: Uuid)
    requires V1Files(orig, workspaceId) && Underway(s, orig)
    ensures FilesValid(LiveFiles(s), workspaceId)
    ensures match Seen(s, Manifest)
      case None => AtRest(s, orig) && LiveFiles(s) == orig
      case Some(f) =>
        && f.value.MigrationManifest? && |f.value.migration.files| > 0 && ManifestFor(f.value.migration, orig)
        && if Seen(s, Pending).Some? then MayTurn(s, orig, f.value.migration)
           else Migrated(s, orig, f.value.migration) && forall t :: t in LiveFiles(s) ==>
             SchemaOf(LiveFiles(s)[t]) == V2
    ensures !(forall t :: t in orig ==> SchemaOf(orig[t]) != V1)
  {
    VisibleFiles(s, orig);
    VisibleManifest(s, orig);
    MixtureReadsTheSame(LiveFiles(s), orig, workspaceId);
    var t :| t in orig;
    if Seen(s, Manifest).Some? {
      assert t in PathsOf(Seen(s, Manifest).value.value.migration);
      forall t | t in LiveFiles(s) && Seen(s, Pending).None? ensures SchemaOf(LiveFiles(s)[t]) == V2 {
        TransformedIsV2(t, orig, workspaceId);
      }
    }
  }

  // ----------------------------------------------------------------------------------------- rollback

  /** Something was added, removed or rewritten since the migration finished. */
  ghost predicate ChangedSince(s: DiskState, m: Migration) {
    || |LiveFiles(s)| != |m.files|
    || exists i :: 0 <= i < |m.files| && Seen(s, Live(m.files[i].path)) != Some(m.files[i].after.of)
  }

  ghost predicate ManifestSays(s: DiskState, m: Migration) {
    Seen(s, Manifest).Some? && Seen(s, Manifest).value.value == MigrationManifest(m)
  }

  ghost predicate BackupsIntact(s: DiskState, m: Migration) {
    forall i :: 0 <= i < |m.files| ==> Seen(s, Backup(m.backupDirectory, m.files[i].path)) == Some(m.files[i].before.of)
  }

  /** The checks of `restoreV1Workspace`, all made before its first write. */
  method CheckRollback(w: Writer) returns (r: Outcome, m: Migration)
    ensures r.Refused? ==> r.error in {StateCorrupt, RollbackUnavailable, RollbackUnsafe}
    ensures r == Refused(RollbackUnsafe) ==>
      ManifestSays(w.volume.s, m) && (ChangedSince(w.volume.s, m) || !BackupsIntact(w.volume.s, m))
    ensures r == Refused(StateCorrupt) ==>
      Seen(w.volume.s, Manifest).Some? && forall m' :: ManifestSays(w.volume.s, m') ==> |m'.files| == 0
    ensures r == Refused(RollbackUnavailable) ==> Seen(w.volume.s, Manifest) == None
    ensures r.Done? ==>
      ManifestSays(w.volume.s, m) && !ChangedSince(w.volume.s, m) && BackupsIntact(w.volume.s, m) && |m.files| > 0
    ensures w.volume.calm ==> !r.Fault?
  {
    var marker;
    m := Migration(First, []);
    r, marker := ReadMarker(w, Manifest);
    if !r.Done? { return; }
    if marker.None? { return Refused(RollbackUnavailable), m; }
    m := marker.value;
    if |LiveFiles(w.volume.s)| != |m.files| { return Refused(RollbackUnsafe), m; }
    for i := 0 to |m.files|
      invariant forall a :: 0 <= a < i ==>
        && Seen(w.volume.s, Live(m.files[a].path)) == Some(m.files[a].after.of)
        && Seen(w.volume.s, Backup(m.backupDirectory, m.files[a].path)) == Some(m.files[a].before.of)
    {
      var e := m.files[i];
      var ok, current := w.volume.Read(Live(e.path));
      if !ok { return Fault, m; }
      var original;
      ok, original := w.volume.Read(Backup(m.backupDirectory, e.path));
      if !ok { return Fault, m; }
      if current != Some(e.after.of) || original != Some(e.before.of) { return Refused(RollbackUnsafe), m; }
    }
    r := Done;
  }

  lemma {:induction false} DistinctPathsCount(m: Migration)
    requires forall a, b :: 0 <= a < b < |m.files| ==> m.files[a].path != m.files[b].path
    ensures |PathsOf(m)| == |m.files|
    decreases |m.files|
  {
    if m.files == [] {
      assert PathsOf(m) == {};
    } else {
      var n := |m.files| - 1;
      var shorter := m.(files := m.files[..n]);
      DistinctPathsCount(shorter);
      PathsOneMore(shorter, m.files[n]);
      assert shorter.(files := shorter.files + [m.files[n]]) == m;
      assert m.files[n].path !in PathsOf(shorter);
    }
  }

  /** A finished migration with no write since passes every check of the rollback. */
  lemma MigratedIsUnchanged(s: DiskState, orig: Files, m: Migration)
    requires Migrated(s, orig, m) && orig != map[]
    ensures Seen(s, Manifest) == Some(ManifestFile(m)) && |m.files| > 0
    ensures !ChangedSince(s, m) && BackupsIntact(s, m)
  {
    DistinctPathsCount(m);
    LiveFilesOf(s, orig);
    SomethingListed(m, orig);
  }

  lemma LiveFilesOf(s: DiskState, orig: Files)
    requires forall t :: t !in orig ==> Settled(s, Live(t), None)
    requires AllV2(s, orig)
    ensures |LiveFiles(s)| == |orig.Keys|
  {
    assert forall t :: t in LiveFiles(s) <==> Seen(s, Live(t)).Some?;
    assert LiveFiles(s).Keys == orig.Keys;
    assert |LiveFiles(s)| == |LiveFiles(s).Keys|;
  }

  /** The rollback passes its checks only on a directory whose visible files are all v2. */
  lemma RollbackStartsMigrated(s: DiskState, orig: Files, workspaceId: Uuid, m: Migration)
    requires V1Files(orig, workspaceId) && Underway(s, orig)
    requires ManifestSays(s, m)
    requires !ChangedSince(s, m) && |m.files| > 0
    ensures ManifestFor(m, orig)
    ensures Turning(s, orig, m) || Migrated(s, orig, m)
  {
    VisibleManifest(s, orig);
    if AtRest(s, orig) {
      var e := m.files[0];
      assert Seen(s, Live(e.path)) == Some(orig[e.path]) && orig[e.path] == Transformed(e.path, orig[e.path]);
      TransformedIsV2(e.path, orig, workspaceId);
    }
  }

  /** The originals come back one by one; until the last one the pending marker recovers forward to v2. */
  ghost predicate Restoring(s: DiskState, orig: Files, m: Migration, i: nat) {
    Turning(s, orig, m) && RestoredBefore(s, m, i)
  }

  ghost predicate RestoredBefore(s: DiskState, m: Migration, i: nat) {
    forall a :: 0 <= a < i < |m.files| + 1 ==> Settled(s, Live(m.files[a].path), Some(m.files[a].before.of))
  }

  lemma RestoredBeforeStep(s: DiskState, after: DiskState, orig: Files, m: Migration, i: nat)
    requires RestoredBefore(s, m, i) && i < |m.files| && ManifestFor(m, orig)
    requires Attempted(s, after, Live(m.files[i].path), Some(m.files[i].before.of))
    requires Settled(after, Live(m.files[i].path), Some(m.files[i].before.of))
    ensures RestoredBefore(after, m, i + 1)
  {
  }

  lemma RestoreStep(s: DiskState, after: DiskState, orig: Files, m: Migration, i: nat, done: bool)
    requires Restoring(s, orig, m, i) && i < |m.files|
    requires Attempted(s, after, Live(m.files[i].path), Some(m.files[i].before.of))
    requires done ==> Settled(after, Live(m.files[i].path), Some(m.files[i].before.of))
    ensures Turning(after, orig, m)
    ensures done ==> Restoring(after, orig, m, i + 1)
  {
    TurningStep(s, after, orig, m, Live(m.files[i].path), Some(m.files[i].before.of));
    if done { RestoredBeforeStep(s, after, orig, m, i); }
  }

  lemma AllRestored(s: DiskState, orig: Files, m: Migration)
    requires Restoring(s, orig, m, |m.files|)
    ensures AllV1(s, orig)
  {
    forall t | t in orig
      ensures Settled(s, Live(t), Some(orig[t]))
    {
      assert t in PathsOf(m);
      var a :| 0 <= a < |m.files| && m.files[a].path == t;
    }
  }

  method RestoreAt(w: Writer, m: Migration, i: nat, ghost orig: Files, ghost ours: bool) returns (r: Outcome)
    requires w.Valid() && i < |m.files|
    requires ours ==> Restoring(w.volume.s, orig, m, i)
    modifies w, w.volume`s
    ensures w.Valid() && (r.Refused? ==> r == Refused(StorageFull))
    ensures ours ==> Turning(w.volume.s, orig, m)
    ensures ours && r.Done? ==> Restoring(w.volume.s, orig, m, i + 1)
    ensures w.volume.calm ==> !r.Fault?
    ensures old(RoomToRestore(w, m, i)) ==> !r.Refused?
    ensures old(RoomToRestore(w, m, i)) && r.Done? ==> RoomToRestore(w, m, i + 1)
  {
    ghost var s := w.volume.s;
    r := w.AtomicWrite(Live(m.files[i].path), m.files[i].before.of);
    if ours { RestoreStep(s, w.volume.s, orig, m, i, r.Done?); }
  }

  method RestoreFiles(w: Writer, m: Migration, ghost orig: Files, ghost ours: bool) returns (r: Outcome)
    requires w.Valid()
    requires ours ==> Turning(w.volume.s, orig, m)
    modifies w, w.volume`s
    ensures w.Valid() && (r.Refused? ==> r == Refused(StorageFull))
    ensures ours ==> Turning(w.volume.s, orig, m)
    ensures ours && r.Done? ==> AllV1(w.volume.s, orig)
    ensures w.volume.calm ==> !r.Fault?
    ensures old(RoomToRestore(w, m, 0)) ==> !r.Refused? && (r.Done? ==> RoomToRestore(w, m, |m.files|))
  {
    var i := 0;
    while i < |m.files|
      invariant 0 <= i <= |m.files| && w.Valid()
      invariant ours ==> Restoring(w.volume.s, orig, m, i)
      invariant old(RoomToRestore(w, m, 0)) ==> RoomToRestore(w, m, i)
    {
      r := RestoreAt(w, m, i, orig, ours);
      if !r.Done? { return; }
      i := i + 1;
    }
    if ours { AllRestored(w.volume.s, orig, m); }
    return Done;
  }

  /** The rollback marker is written before the manifest goes, the pending marker goes last. */
  method CloseRollback(w: Writer, m: Migration, ghost orig: Files, ghost ours: bool) returns (r: Outcome)
    requires w.Valid()
    requires ours ==> Turning(w.volume.s, orig, m) && AllV1(w.volume.s, orig) && |m.files| > 0
    modifies w, w.volume`s
    ensures w.Valid() && (r.Refused? ==> r == Refused(StorageFull))
    ensures ours ==> Underway(w.volume.s, orig)
    ensures ours && r.Done? ==>
      AtRest(w.volume.s, orig) && Settled(w.volume.s, Manifest, None) && Settled(w.volume.s, Pending, None)
    ensures w.volume.calm ==> !r.Fault?
    ensures old(RoomToRestore(w, m, |m.files|)) ==> !r.Refused?
    ensures ours && r.Done? ==> Seen(w.volume.s, Rollback).Some?
  {
    ghost var s1 := w.volume.s;
    r := w.AtomicWrite(Rollback, ManifestFile(m));
    ghost var s2 := w.volume.s;
    if ours { RollbackWritten(s1, s2, orig, m, r.Done?); }
    if !r.Done? { return; }
    r := DropMarkers(w, orig, ours);
  }

  lemma RollbackWritten(s: DiskState, after: DiskState, orig: Files, m: Migration, done: bool)
    requires Turning(s, orig, m) && AllV1(s, orig) && |m.files| > 0
    requires Attempted(s, after, Rollback, Some(ManifestFile(m)))
    requires done ==> Settled(after, Rollback, Some(ManifestFile(m)))
    ensures Turning(after, orig, m)
    ensures done ==> AtRest(after, orig)
  {
    TurningStep(s, after, orig, m, Rollback, Some(ManifestFile(m)));
    AllTurned(after, orig, m);
  }

  method DropMarkers(w: Writer, ghost orig: Files, ghost ours: bool) returns (r: Outcome)
    requires w.Valid()
    requires ours ==> AtRest(w.volume.s, orig)
    modifies w.volume`s
    ensures w.Valid() && !r.Refused?
    ensures ours ==> AtRest(w.volume.s, orig)
    ensures ours && r.Done? ==> Settled(w.volume.s, Manifest, None) && Settled(w.volume.s, Pending, None)
    ensures w.volume.calm ==> r.Done?
    ensures Seen(w.volume.s, Rollback) == old(Seen(w.volume.s, Rollback))
  {
    ghost var s2 := w.volume.s;
    var ok := w.volume.RemoveDurably(Manifest);
    ghost var s3 := w.volume.s;
    if ours { AtRestStep(s2, s3, orig, Manifest, None); }
    if !ok { return Fault; }
    ok := w.volume.RemoveDurably(Pending);
    if ours { AtRestStep(s3, w.volume.s, orig, Pending, None); }
    return if ok then Done else Fault;
  }

  /**
    * `restoreV1Workspace`. It refuses before its first write if anything changed since the migration,
    * and when it finishes every file has, durably, exactly the bytes it had before the migration.
    */
  method Restore(w: Writer, workspaceId: Uuid, ghost orig: Files) returns (r: Outcome)
    requires w.Valid()
    modifies w, w.volume`s
    ensures w.Valid()
    ensures r.Refused? && r != Refused(StorageFull) ==> w.volume.s == old(w.volume.s)
    ensures old(Seen(w.volume.s, Manifest)) == None ==> !r.Done? && w.volume.s == old(w.volume.s)
    ensures forall m :: old(ManifestSays(w.volume.s, m) && ChangedSince(w.volume.s, m)) ==>
      !r.Done? && w.volume.s == old(w.volume.s)
    ensures V1Files(orig, workspaceId) && old(Underway(w.volume.s, orig)) ==> Underway(w.volume.s, orig)
    ensures V1Files(orig, workspaceId) && old(exists m :: Migrated(w.volume.s, orig, m)) ==> r.Refused? ==>
      r == Refused(StorageFull)
    ensures V1Files(orig, workspaceId) && old(Underway(w.volume.s, orig)) && r.Done? ==>
      AtRest(w.volume.s, orig) && Settled(w.volume.s, Manifest, None) && Settled(w.volume.s, Pending, None)
    ensures w.volume.calm ==> !r.Fault?
    ensures V1Files(orig, workspaceId) && old(Underway(w.volume.s, orig)) && r.Done? ==>
      Seen(w.volume.s, Rollback).Some?
    ensures forall m :: old(ManifestSays(w.volume.s, m) && RoomToRollBack(w, m)) ==> r != Refused(StorageFull)
  {
    ghost var s0 := w.volume.s;
    ghost var ours := V1Files(orig, workspaceId) && Underway(s0, orig);
    if m' :| Migrated(s0, orig, m') && orig != map[] { MigratedIsUnchanged(s0, orig, m'); }
    var m;
    r, m := CheckRollback(w);
    if !r.Done? { return; }
    if ours { RollbackStartsMigrated(s0, orig, workspaceId, m); }
    r := RollBack(w, m, orig, ours);
  }

  /** The writes of `restoreV1Workspace`. */
  method RollBack(w: Writer, m: Migration, ghost orig: Files, ghost ours: bool) returns (r: Outcome)
    requires w.Valid()
    requires ours ==> |m.files| > 0 && (Turning(w.volume.s, orig, m) || Migrated(w.volume.s, orig, m))
    modifies w, w.volume`s
    ensures w.Valid() && (w.volume.calm ==> !r.Fault?) && (r.Refused? ==> r == Refused(StorageFull))
    ensures ours ==> Underway(w.volume.s, orig)
    ensures ours && r.Done? ==>
      AtRest(w.volume.s, orig) && Settled(w.volume.s, Manifest, None) && Settled(w.volume.s, Pending, None)
    ensures ours && r.Done? ==> Seen(w.volume.s, Rollback).Some?
    ensures old(RoomToRollBack(w, m)) ==> r != Refused(StorageFull)
  {
    ghost var s0 := w.volume.s;
    r := w.AtomicWrite(Pending, ROLLBACK_TEXT);
    if ours { BackToTurning(s0, w.volume.s, orig, m, r.Done?); }
    if !r.Done? { return; }
    hide AtRest, Settled, Turning, Migrated;
    r := RestoreFiles(w, m, orig, ours);
    if !r.Done? { return; }
    r := CloseRollback(w, m, orig, ours);
  }

  lemma BackToTurning(s: DiskState, after: DiskState, orig: Files, m: Migration, done: bool)
    requires Turning(s, orig, m) || Migrated(s, orig, m)
    requires Attempted(s, after, Pending, Some(ROLLBACK_TEXT))
    requires done ==> Settled(after, Pending, Some(ROLLBACK_TEXT))
    ensures Turning(after, orig, m) || Migrated(after, orig, m)
    ensures done ==> Turning(after, orig, m)
  {
    if Turning(s, orig, m) {
      TurningStep(s, after, orig, m, Pending, Some(ROLLBACK_TEXT));
    } else {
      MigratedStep(s, after, orig, m, Some(ROLLBACK_TEXT));
    }
  }

  // --------------------------------------------------------------------------------- whole histories

  /** `used` is what the attempting process counts as used bytes when it begins. */
  datatype Event =
    | MigrateAttempt(calm: bool, used: nat)
    | RestoreAttempt(calm: bool, used: nat)
    | LegacyServer(later: Files)
    | ProcessRestart
    | PowerFailure

  /** One moment of a history: the disk, the originals it stands for, and whether a rollback is the last thing that
      finished. */
  datatype Moment = Moment(s: DiskState, orig: Files, rolledBack: bool)

  ghost predicate MomentOk(t: Moment, workspaceId: Uuid) {
    && V1Files(t.orig, workspaceId) && Underway(t.s, t.orig)
    && (t.rolledBack ==> AtRest(t.s, t.orig) && Settled(t.s, Manifest, None) && Seen(t.s, Rollback).Some?)
  }

  /** The v1 server has run and stopped: these are its files now, all of them durable. */
  function ServedBy(s: DiskState, later: Files): (after: DiskState)
    ensures forall p: Path :: Seen(after, p) == if p.Live?
      then (if p.target in later then Some(later[p.target]) else None) else Seen(s, p)
    ensures forall p: Path :: Durable(after, p) <==> p.Live? || Durable(s, p)
    ensures forall p: Path, c :: !p.Live? && May(after, p, c) ==> May(s, p, c)
  {
    var live := map t | t in later :: later[t];
    var paths := (set p | p in s.visible && !p.Live?) + (set t | t in later :: Live(t));
    DiskState(map p | p in paths :: if p.Live? then later[p.target] else s.visible[p],
              map p | p in s.unsynced && !p.Live? :: s.unsynced[p])
  }

  /** The room a migration (a rollback) needs, for a process that starts with `used` bytes. */
  ghost predicate MigratesFrom(w: Writer, orig: Files, used: nat) {
    && (StateJson in orig ==> w.size(orig[StateJson]) <= w.maxSnapshotBytes)
    && used + Sum(orig, w.size) <= w.maxTotalBytes
    && forall m :: ManifestFor(m, orig) ==> MigrationFits(w, orig, used, m)
  }

  ghost predicate RollsBackFrom(w: Writer, t: Moment, used: nat) {
    exists m :: Migrated(t.s, t.orig, m) && SnapshotsFit(w, m)
      && used + w.size(ROLLBACK_TEXT) + EntryBytes(w.size, m, 0, true) + w.size(ManifestFile(m)) <= w.maxTotalBytes
  }

  /** What one event may do, and what it must. */
  ghost predicate Happens(w: Writer, t: Moment, e: Event, r: Outcome, u: Moment) {
    match e
    case MigrateAttempt(calm, used) =>
      && u.orig == t.orig && (r.Refused? ==> r == Refused(StorageFull))
      && (r.Done? ==> AllV2(u.s, u.orig) && InV2(u.s, u.orig) && Settled(u.s, Pending, None))
      && (calm && MigratesFrom(w, t.orig, used) ==> r.Done?)
    case RestoreAttempt(calm, used) =>
      && u.orig == t.orig && (r.Refused? && r != Refused(StorageFull) ==> u.s == t.s)
      && (r.Done? ==> AllV1(u.s, u.orig) && Settled(u.s, Manifest, None) && Settled(u.s, Pending, None) && u.rolledBack)
      && (calm && RollsBackFrom(w, t, used) ==> r.Done?)
    case LegacyServer(later) =>
      if t.rolledBack then u == Moment(ServedBy(t.s, later), later, true) else u == t
    case ProcessRestart => u == t
    case PowerFailure => u == t.(s := u.s) && PowerLoss(t.s, u.s)
  }

  method AttemptMigration(w: Writer, workspaceId: Uuid, e: Event, ghost t: Moment) returns (r: Outcome, ghost u: Moment)
    requires w.Valid() && MomentOk(t, workspaceId) && w.volume.s == t.s && e.MigrateAttempt? && w.volume.calm == e.calm
    modifies w, w.volume`s
    ensures w.Valid() && MomentOk(u, workspaceId) && u.s == w.volume.s && !u.rolledBack
    ensures Happens(w, t, e, r, u)
  {
    hide AtRest, Settled, ManifestFor, MigrationFits, AllV2, InV2;
    w.bytesUsed := e.used;
    if MigratesFrom(w, t.orig, e.used) { assert RoomToMigrate(w, t.orig); }
    r := Migrate(w, workspaceId, t.orig);
    u := Moment(w.volume.s, t.orig, false);
  }

  /** The room for a rollback of a finished migration, whichever manifest it has. */
  lemma RollsBack(w: Writer, t: Moment, used: nat, workspaceId: Uuid)
    requires MomentOk(t, workspaceId) && RollsBackFrom(w, t, used) && w.bytesUsed == used
    ensures exists m :: Migrated(t.s, t.orig, m)
    ensures exists m :: ManifestSays(t.s, m) && RoomToRollBack(w, m)
    ensures Seen(t.s, Manifest).Some? && !exists m :: ManifestSays(t.s, m) && ChangedSince(t.s, m)
  {
    var m :| Migrated(t.s, t.orig, m) && SnapshotsFit(w, m)
      && used + w.size(ROLLBACK_TEXT) + EntryBytes(w.size, m, 0, true) + w.size(ManifestFile(m)) <= w.maxTotalBytes;
    MigratedIsUnchanged(t.s, t.orig, m);
    assert ManifestSays(t.s, m) && RoomToRollBack(w, m);
  }

  method AttemptRollback(w: Writer, workspaceId: Uuid, e: Event, rolledBack: bool, ghost t: Moment)
    returns (r: Outcome, nowBack: bool, ghost u: Moment)
    requires w.Valid() && MomentOk(t, workspaceId) && w.volume.s == t.s && t.rolledBack == rolledBack
    requires e.RestoreAttempt? && w.volume.calm == e.calm
    modifies w, w.volume`s
    ensures w.Valid() && MomentOk(u, workspaceId) && u.s == w.volume.s && u.rolledBack == nowBack
    ensures Happens(w, t, e, r, u)
  {
    hide AtRest, Settled, Migrated, RoomToRollBack, RollsBackFrom, ManifestSays, ChangedSince, V1Files, AllV1;
    w.bytesUsed := e.used;
    if RollsBackFrom(w, t, e.used) { RollsBack(w, t, e.used, workspaceId); }
    r := Restore(w, workspaceId, t.orig);
    nowBack := r.Done? || (rolledBack && r.Refused? && r.error != StorageFull);
    u := Moment(w.volume.s, t.orig, nowBack);
    if r.Done? { RestIsV1(u.s, u.orig); }
  }

  lemma RestIsV1(s: DiskState, orig: Files)
    requires AtRest(s, orig)
    ensures AllV1(s, orig)
  {
  }

  lemma ServerKeepsMoment(t: Moment, later: Files, workspaceId: Uuid)
    requires MomentOk(t, workspaceId) && t.rolledBack && V1Files(later, workspaceId)
    ensures MomentOk(Moment(ServedBy(t.s, later), later, true), workspaceId)
  {
    LegacyServerMayWrite(t.s, ServedBy(t.s, later), t.orig, later);
  }

  lemma PowerFailureKeepsMoment(t: Moment, after: DiskState, workspaceId: Uuid)
    requires MomentOk(t, workspaceId) && PowerLoss(t.s, after)
    ensures MomentOk(t.(s := after), workspaceId)
  {
    SyncsAndPowerLossNarrow(t.s, after);
    UnderwayNarrows(t.s, after, t.orig);
    if t.rolledBack { AtRestNarrows(t.s, after, t.orig); }
  }

  method Happen(w: Writer, workspaceId: Uuid, e: Event, rolledBack: bool, ghost t: Moment)
    returns (r: Outcome, nowBack: bool, ghost u: Moment)
    requires w.Valid() && MomentOk(t, workspaceId) && w.volume.s == t.s && t.rolledBack == rolledBack
    requires e.LegacyServer? ==> V1Files(e.later, workspaceId)
    modifies w, w.volume
    ensures w.Valid() && MomentOk(u, workspaceId) && u.s == w.volume.s && u.rolledBack == nowBack
    ensures Happens(w, t, e, r, u)
  {
    r, nowBack, u := Done, rolledBack, t;
    match e {
      case LegacyServer(later) =>
        if rolledBack {
          ServerKeepsMoment(t, later, workspaceId);
          w.volume.s := ServedBy(w.volume.s, later);
          u := Moment(w.volume.s, later, true);
        }
      case ProcessRestart =>
      case PowerFailure =>
        w.volume.PowerCut();
        PowerFailureKeepsMoment(t, w.volume.s, workspaceId);
        u := t.(s := w.volume.s);
      case MigrateAttempt(calm, _) =>
        w.volume.calm := calm;
        nowBack := false;
        r, u := AttemptMigration(w, workspaceId, e, t);
        return;
      case RestoreAttempt(calm, _) =>
        w.volume.calm := calm;
        r, nowBack, u := AttemptRollback(w, workspaceId, e, rolledBack, t);
        return;
    }
    w.durableFiles, w.bytesUsed := {}, 0;  // a new process
  }

  /**
    * Any history of a directory: migrations and rollbacks, each of which may fail or die at any of its own
    * steps, restarts, power failures, and the v1 server at work again after a rollback. No migration in it
    * is ever refused as corrupt, no original is ever lost (`OriginalsAreNeverLost`), and the next migration
    * that no primitive fails, with room for what it writes, succeeds; so does such a rollback of a finished
    * migration. What finishes leaves the whole directory at one version: every file durably its v2
    * transform, or every file durably its v1 bytes.
    */
  method Storm(w: Writer, workspaceId: Uuid, events: seq<Event>, ghost orig: Files)
    returns (outcomes: seq<Outcome>, ghost moments: seq<Moment>)
    requires w.Valid() && V1Files(orig, workspaceId) && Underway(w.volume.s, orig)
    requires forall n :: 0 <= n < |events| && events[n].LegacyServer? ==> V1Files(events[n].later, workspaceId)
    modifies w, w.volume
    ensures |outcomes| == |events| && |moments| == |events| + 1
    ensures moments[0] == Moment(old(w.volume.s), orig, false) && moments[|events|].s == w.volume.s
    ensures forall n :: 0 <= n <= |events| ==> MomentOk(moments[n], workspaceId)
    ensures forall n :: 0 <= n < |events| ==> Happens(w, moments[n], events[n], outcomes[n], moments[n + 1])
  {
    hide MomentOk, Happens;
    outcomes, moments := [], [Moment(w.volume.s, orig, false)];
    var rolledBack := false;
    assert MomentOk(moments[0], workspaceId) by { FirstMoment(w.volume.s, orig, workspaceId); }
    for n := 0 to |events|
      invariant w.Valid() && |outcomes| == n && |moments| == n + 1
      invariant moments[0] == Moment(old(w.volume.s), orig, false)
      invariant moments[n].s == w.volume.s && moments[n].rolledBack == rolledBack
      invariant forall k :: 0 <= k <= n ==> MomentOk(moments[k], workspaceId)
      invariant forall k :: 0 <= k < n ==> Happens(w, moments[k], events[k], outcomes[k], moments[k + 1])
    {
      var r;
      ghost var u;
      r, rolledBack, u := Happen(w, workspaceId, events[n], rolledBack, moments[n]);
      outcomes, moments := outcomes + [r], moments + [u];
    }
  }

  lemma FirstMoment(s: DiskState, orig: Files, workspaceId: Uuid)
    requires V1Files(orig, workspaceId) && Underway(s, orig)
    ensures MomentOk(Moment(s, orig, false), workspaceId)
  {
  }
}
