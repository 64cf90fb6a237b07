/**
  * The disk below one workspace directory, and the primitives of src/continuity/storage-durability.ts.
  *
  * `visible` is what a running process reads. `unsynced` remembers, for every path whose directory
  * entry changed since that directory was last synced, all the contents the path has had since then:
  * a power loss may bring back any one of them, path by path. Any primitive may fail, before or after
  * its effect. A process that dies between two primitives leaves the same disk as one whose next
  * primitive fails without effect, so a failed call below also stands for a crash at that point.
  */
module Durability {
  import opened Wrappers
  import opened TaskTypes

  datatype Path =
    | Live(target: Target)
    | Payload(transactionId: Uuid)
    | Marker(transactionId: Uuid)
    | Manifest
    | Pending
    | Rollback
    | Backup(generation: Generation, original: Target)

  datatype Directory =
    | StateDirectory | Workspaces | WorkspaceDirectory
    | Executions | Transactions | BackupRoot(generation: Generation) | BackupExecutions(inGeneration: Generation)

  function DirectoryOf(p: Path): Directory {
    match p
    case Live(StateJson) => WorkspaceDirectory
    case Live(Receipt(_)) => Executions
    case Payload(_) | Marker(_) => Transactions
    case Manifest | Pending | Rollback => WorkspaceDirectory
    case Backup(g, StateJson) => BackupRoot(g)
    case Backup(g, Receipt(_)) => BackupExecutions(g)
  }

  function Parent(d: Directory): Directory {
    match d
    case StateDirectory | Workspaces => StateDirectory
    case WorkspaceDirectory => Workspaces
    case Executions | Transactions | BackupRoot(_) => WorkspaceDirectory
    case BackupExecutions(g) => BackupRoot(g)
  }

  function Height(d: Directory): nat {
    match d
    case StateDirectory => 0
    case Workspaces => 1
    case WorkspaceDirectory => 2
    case Executions | Transactions | BackupRoot(_) => 3
    case BackupExecutions(_) => 4
  }

  /** The directories from `d` up to `boundary`, both included (up to the root when `boundary` is not above `d`). */
  function Chain(d: Directory, boundary: Directory): (c: set<Directory>)
    ensures d in c
    decreases Height(d)
  {
    if d == boundary || d == StateDirectory then {d} else {d} + Chain(Parent(d), boundary)
  }

  /** Every file of the workspace lives in a directory below it. */
  lemma ChainsReachTheWorkspace(p: Path, boundary: Directory)
    requires boundary == WorkspaceDirectory || boundary == StateDirectory
    ensures WorkspaceDirectory in Chain(DirectoryOf(p), boundary)
  {
    var d := DirectoryOf(p);
    assert WorkspaceDirectory in Chain(WorkspaceDirectory, boundary);
    if d != WorkspaceDirectory {
      assert Parent(d) in Chain(d, boundary);
      if d.BackupExecutions? {
        assert Parent(Parent(d)) in Chain(Parent(d), boundary);
      }
    }
  }

  // ----------------------------------------------------------------------------------- disk states

  datatype DiskState = DiskState(visible: map<Path, File>, unsynced: map<Path, set<Option<File>>>)

  function Seen(s: DiskState, p: Path): Option<File> {
    if p in s.visible then Some(s.visible[p]) else None
  }

  /** p can show c after a power loss. */
  predicate May(s: DiskState, p: Path, c: Option<File>) {
    c == Seen(s, p) || (p in s.unsynced && c in s.unsynced[p])
  }

  /** Nothing is pending for p: a power loss brings back what is visible. */
  predicate Durable(s: DiskState, p: Path) {
    p !in s.unsynced
  }

  predicate Settled(s: DiskState, p: Path, c: Option<File>) {
    Durable(s, p) && Seen(s, p) == c
  }

  ghost predicate Among(s: DiskState, p: Path, a: Option<File>, b: Option<File>) {
    forall c :: May(s, p, c) ==> c == a || c == b
  }

  /** A rename onto p (or its removal) reaches the directory, but not yet the device. */
  function Replace(s: DiskState, p: Path, content: Option<File>): (r: DiskState)
    ensures forall q :: Seen(r, q) == if q == p then content else Seen(s, q)
    ensures forall q :: Durable(r, q) <==> q != p && Durable(s, q)
    ensures forall q, c :: May(r, q, c) <==> May(s, q, c) || (q == p && c == content)
  {
    DiskState(
      if content.Some? then s.visible[p := content.value] else s.visible - {p},
      s.unsynced[p := {Seen(s, p)} + if p in s.unsynced then s.unsynced[p] else {}])
  }

  function SyncEntries(s: DiskState, d: Directory): (r: DiskState)
    ensures forall q :: Seen(r, q) == Seen(s, q)
    ensures forall q :: Durable(r, q) <==> Durable(s, q) || DirectoryOf(q) == d
    ensures forall q, c :: May(r, q, c) ==> May(s, q, c)
  {
    s.(unsynced := map p | p in s.unsynced && DirectoryOf(p) != d :: s.unsynced[p])
  }

  /** s can be read back as `after` once the power returns. */
  ghost predicate PowerLoss(s: DiskState, after: DiskState) {
    && after.unsynced == map[]
    && forall p :: May(s, p, Seen(after, p))
  }

  /** Nothing visible changed, and nothing less is known to be durable. */
  ghost predicate Calmer(s: DiskState, after: DiskState) {
    && (forall p :: Seen(after, p) == Seen(s, p))
    && (forall p :: Durable(s, p) ==> Durable(after, p))
    && (forall p, c :: May(after, p, c) ==> May(s, p, c))
  }

  /** What is durable stays, and nothing new becomes possible: true of every sync and of a power loss. */
  ghost predicate Narrows(s: DiskState, after: DiskState) {
    && (forall p :: Durable(s, p) ==> Durable(after, p) && Seen(after, p) == Seen(s, p))
    && (forall p, c :: May(after, p, c) ==> May(s, p, c))
  }

  lemma SyncsAndPowerLossNarrow(s: DiskState, after: DiskState)
    requires Calmer(s, after) || PowerLoss(s, after)
    ensures Narrows(s, after)
  {
  }

  /** An attempted replacement of p: it may have happened or not. */
  ghost predicate Attempted(s: DiskState, after: DiskState, p: Path, content: Option<File>) {
    Calmer(s, after) || Calmer(Replace(s, p, content), after)
  }

  /** Every entry of the given directories is durable. */
  ghost predicate SyncedIn(s: DiskState, directories: set<Directory>) {
    forall q :: DirectoryOf(q) in directories ==> Durable(s, q)
  }

  /** A replacement of p that reported success. */
  ghost predicate Replaced(s: DiskState, after: DiskState, p: Path, content: Option<File>) {
    Calmer(Replace(s, p, content), after) && SyncedIn(after, Chain(DirectoryOf(p), StateDirectory))
  }

  // ------------------------------------------------------------------------------------- the device

  class Volume {
    var s: DiskState
    /** While this holds no primitive fails, and the process that calls it does not die. */
    var calm: bool
    /** No walk of the state directory adds up to more bytes than this. */
    var walk: nat

    constructor (initial: DiskState, calm: bool, walk: nat)
      ensures s == initial && this.calm == calm && this.walk == walk
    {
      s, this.calm, this.walk := initial, calm, walk;
    }

    method Read(p: Path) returns (ok: bool, content: Option<File>)
      ensures ok ==> content == Seen(s, p)
      ensures calm ==> ok
    {
      ok := MaySucceed();
      content := Seen(s, p);
    }

    /** Any answer, unless the device is calm. */
    method MaySucceed() returns (ok: bool)
      ensures calm ==> ok
    {
      ok := *;
      ok := ok || calm;
    }

    method Rename(p: Path, file: File) returns (ok: bool)
      modifies this`s
      ensures s == old(s) || s == Replace(old(s), p, Some(file))
      ensures ok ==> s == Replace(old(s), p, Some(file))
      ensures calm ==> ok
    {
      ok := MaySucceed();
      if !ok { return; }
      s := Replace(s, p, Some(file));
      ok := MaySucceed();
    }

    method Unlink(p: Path) returns (ok: bool)
      modifies this`s
      ensures s == old(s) || s == Replace(old(s), p, None)
      ensures ok ==> s == Replace(old(s), p, None)
      ensures calm ==> ok
    {
      ok := MaySucceed();
      if !ok { return; }
      s := Replace(s, p, None);
      ok := MaySucceed();
    }

    method SyncDirectory(d: Directory) returns (ok: bool)
      modifies this`s
      ensures s == old(s) || s == SyncEntries(old(s), d)
      ensures ok ==> s == SyncEntries(old(s), d)
      ensures calm ==> ok
    {
      ok := MaySucceed();
      if !ok { return; }
      s := SyncEntries(s, d);
      ok := MaySucceed();
    }

    /** `syncFileAndParents(file, boundary)`: the directory of p and all above it up to `boundary`. */
    method SyncFileAndParents(p: Path, boundary: Directory) returns (ok: bool)
      modifies this`s
      ensures Calmer(old(s), s)
      ensures ok ==> SyncedIn(s, Chain(DirectoryOf(p), boundary))
      ensures calm ==> ok
    {
      var directory := DirectoryOf(p);
      ghost var done: set<Directory> := {};
      while true
        invariant Chain(DirectoryOf(p), boundary) == done + Chain(directory, boundary)
        invariant Calmer(old(s), s)
        invariant SyncedIn(s, done)
        decreases Height(directory)
      {
        ok := SyncDirectory(directory);
        if !ok { return false; }
        done := done + {directory};
        if directory == boundary || directory == StateDirectory {
          return true;
        }
        directory := Parent(directory);
      }
    }

    /** Every path comes back with one of the contents it may have. */
    method PowerCut()
      modifies this`s
      ensures PowerLoss(old(s), s)
    {
      var doubtful := s.unsynced.Keys;
      var survivors := DiskState(s.visible, map[]);
      while doubtful != {}
        invariant doubtful <= s.unsynced.Keys && survivors.unsynced == map[]
        invariant forall p :: May(s, p, Seen(survivors, p))
        invariant forall p :: p in doubtful ==> Seen(survivors, p) == Seen(s, p)
      {
        var p :| p in doubtful;
        doubtful := doubtful - {p};
        var content :| content in {Seen(s, p)} + s.unsynced[p];
        assert May(s, p, content);
        ghost var previous := survivors;
        survivors := survivors.(visible :=
          if content.Some? then survivors.visible[p := content.value] else survivors.visible - {p});
        assert Seen(survivors, p) == content && forall q :: q != p ==> Seen(survivors, q) == Seen(previous, q);
      }
      s := survivors;
    }

    /** `removeDurably`. */
    method RemoveDurably(p: Path) returns (ok: bool)
      modifies this`s
      ensures Attempted(old(s), s, p, None)
      ensures ok ==> s == SyncEntries(Replace(old(s), p, None), DirectoryOf(p))
      ensures calm ==> ok
    {
      ok := Unlink(p);
      if ok {
        ok := SyncDirectory(DirectoryOf(p));
      }
    }
  }
}
