/** The pending-snapshot check (`has_pending_snapshot`). */
module Inspector {
  import opened Fleet

  /** The snapshot state that marks a snapshot still in progress. */
  const Pending: string := "pending"

  /**
   * True iff the volume's history is non-empty and its newest (first)
   * snapshot is still pending. Python's `snapshots and ...` yields a falsy
   * empty list for an empty history; the model reads it as `false`.
   */
  predicate HasPendingSnapshot(v: Volume) {
    |v.snapshots| > 0 && v.snapshots[0].state == Pending
  }

  /** A volume with no snapshots never has a pending one. */
  lemma EmptyHistoryNotPending(v: Volume)
    requires v.snapshots == []
    ensures !HasPendingSnapshot(v)
  {
  }

  /**
   * Only the newest snapshot is examined: two histories with equally-stated
   * heads give the same answer, whatever follows them.
   */
  lemma OnlyNewestExamined(v: Volume, w: Volume)
    requires |v.snapshots| > 0 && |w.snapshots| > 0
    requires v.snapshots[0].state == w.snapshots[0].state
    ensures HasPendingSnapshot(v) <==> HasPendingSnapshot(w)
  {
  }

  /** An older pending snapshot behind a non-pending newest one does not count. */
  lemma OlderPendingIgnored(v: Volume)
    requires |v.snapshots| > 1 && v.snapshots[0].state != Pending
    ensures !HasPendingSnapshot(v)
  {
  }

  /** Prepending a freshly created (pending) snapshot makes the volume pending. */
  lemma PendingAfterCreate(v: Volume, s: Snapshot)
    requires s.state == Pending
    ensures HasPendingSnapshot(v.(snapshots := [s] + v.snapshots))
  {
  }
}
