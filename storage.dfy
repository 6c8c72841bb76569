/** lib/storage.ts: the run history kept in `localStorage`, at most 50 runs, newest first. */
module Storage {
  import opened Seqs
  import opened Models
  import opened Browser

  /** `saveRun` keeps the latest 50 runs. */
  const Capacity: nat := 50

  /**
   * `loadRuns`: the stored list; the empty list on the server, and for an absent,
   * unparsable or non-array entry.
   */
  method LoadRuns(store: LocalStorage) returns (runs: seq<BenchRun>)
    ensures runs == store.Loaded()
    ensures !store.hasWindow || !store.slot.Saved? ==> runs == []
    ensures store.hasWindow && store.slot.Saved? ==> runs == store.slot.runs
  {
    if !store.hasWindow {
      return [];
    }
    match store.slot
    case Saved(saved) => runs := saved;
    case _ => runs := [];
  }

  /**
   * `saveRun`: on the server nothing changes; otherwise the new run followed by the
   * previously loaded runs, cut to the capacity, is stored and is what the next load returns.
   */
  method SaveRun(store: LocalStorage, run: BenchRun)
    modifies store
    ensures !store.hasWindow ==> store.slot == old(store.slot)
    ensures store.hasWindow ==> store.slot == Saved(Newest(run, old(store.Loaded()), Capacity))
    ensures store.hasWindow ==> store.Loaded() == Newest(run, old(store.Loaded()), Capacity)
  {
    if !store.hasWindow {
      return;
    }
    var prev := LoadRuns(store);
    store.slot := Saved(Newest(run, prev, Capacity));
  }

  /** `clearRuns`: removes the entry (on the server nothing changes); afterwards a load returns `[]`. */
  method ClearRuns(store: LocalStorage)
    modifies store
    ensures !store.hasWindow ==> store.slot == old(store.slot)
    ensures store.hasWindow ==> store.slot == Absent
    ensures store.Loaded() == []
  {
    if !store.hasWindow {
      return;
    }
    store.slot := Absent;
  }
}
