/** `#atomicWrite`, `#confirmDurable` and the byte budget of src/continuity/task-store.ts. */
module AtomicWriter {
  import opened Arithmetic
  import opened Wrappers
  import opened TaskTypes
  import opened StorageSchema
  import opened Durability

  /** Fault stands for a failed primitive and for a process that died there. */
  datatype Outcome = Done | Fault | Refused(error: StoreError)

  const MARKER_BYTES: nat := 65

  predicate IsSnapshotPath(p: Path) {
    (p.Live? && p.target.StateJson?) || (p.Backup? && p.original.StateJson?)
  }

  function BytesAt(size: File -> nat, content: Option<File>): nat {
    if content.Some? then size(content.value) else 0
  }

  /** No file is larger. */
  ghost predicate Within(size: File -> nat, largest: nat) {
    forall f :: size(f) <= largest
  }

  class Writer {
    const volume: Volume
    const size: File -> nat
    const maxSnapshotBytes: nat
    const maxTotalBytes: nat
    var bytesUsed: nat
    var durableFiles: set<Path>

    /** A file in `durableFiles` needs no further sync: what it shows now survives a power loss. */
    ghost predicate Valid()
      reads this, volume
    {
      && (forall t :: Live(t) in durableFiles ==> Durable(volume.s, Live(t)))
      && (forall d :: size(Body(CommitMarker(d))) == MARKER_BYTES)
    }

    constructor (volume: Volume, size: File -> nat, maxSnapshotBytes: nat, maxTotalBytes: nat)
      requires forall d :: size(Body(CommitMarker(d))) == MARKER_BYTES
      ensures Valid() && this.volume == volume && this.size == size && durableFiles == {}
      ensures this.maxSnapshotBytes == maxSnapshotBytes && this.maxTotalBytes == maxTotalBytes
    {
      this.volume, this.size := volume, size;
      this.maxSnapshotBytes, this.maxTotalBytes := maxSnapshotBytes, maxTotalBytes;
      bytesUsed, durableFiles := 0, {};
    }

    /** The budget would refuse to write `file` at p now. */
    predicate OverBudget(p: Path, file: File)
      reads this, volume
    {
      || (IsSnapshotPath(p) && size(file) > maxSnapshotBytes)
      || bytesUsed - BytesAt(size, Seen(volume.s, p)) + size(file) > maxTotalBytes
    }

    method AtomicWrite(p: Path, file: File) returns (r: Outcome)
      requires Valid()
      modifies this, volume`s
      ensures Valid() && durableFiles <= old(durableFiles) + {p}
      ensures r.Refused? ==>
        && r == Refused(StorageFull) && old(OverBudget(p, file)) && volume.s == old(volume.s)
        && bytesUsed == old(bytesUsed)
      ensures old(OverBudget(p, file)) ==> !r.Done? && volume.s == old(volume.s)
      ensures r.Done? ==> Replaced(old(volume.s), volume.s, p, Some(file))
      ensures r.Done? ==> bytesUsed == Max(0, old(bytesUsed - BytesAt(size, Seen(volume.s, p))) + size(file))
      ensures volume.calm ==> !r.Fault?
      ensures r.Fault? ==> Attempted(old(volume.s), volume.s, p, Some(file))
    {
      durableFiles := durableFiles - {p};
      if IsSnapshotPath(p) && size(file) > maxSnapshotBytes {
        return Refused(StorageFull);
      }
      var ok := volume.MaySucceed();
      if !ok { return Fault; }
      var previousBytes := BytesAt(size, Seen(volume.s, p));
      if bytesUsed - previousBytes + size(file) > maxTotalBytes {
        return Refused(StorageFull);
      }
      ok := volume.MaySucceed();  // mkdir, or open, write and sync of the temporary file
      if !ok { return Fault; }
      ok := volume.Rename(p, file);
      if !ok { return Fault; }
      bytesUsed := Max(0, bytesUsed - previousBytes + size(file));
      ok := volume.SyncFileAndParents(p, StateDirectory);
      if !ok { return Fault; }
      durableFiles := durableFiles + {p};
      return Done;
    }

    method ConfirmDurable(p: Path) returns (ok: bool)
      requires Valid()
      modifies this, volume`s
      ensures Valid() && bytesUsed == old(bytesUsed)
      ensures Calmer(old(volume.s), volume.s)
      ensures volume.calm ==> ok
      ensures ok && p.Live? ==> Durable(volume.s, p)
    {
      if p in durableFiles { return true; }
      ok := volume.SyncFileAndParents(p, StateDirectory);
      if ok {
        durableFiles := durableFiles + {p};
      }
    }

    /** `#measureBytes`: whatever the directory walk adds up to, left-over temporary files included. */
    method Measure() returns (ok: bool)
      requires Valid()
      modifies this`bytesUsed
      ensures Valid() && (volume.calm ==> ok)
      ensures ok ==> bytesUsed <= volume.walk
    {
      ok := volume.MaySucceed();
      if ok {
        var total: nat :| total <= volume.walk;
        bytesUsed := total;
      }
    }
  }
}
