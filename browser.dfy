/**
 * The browser's `localStorage` entry "cw_benchmark_runs", where every saved run list lives,
 * and the reading of it that `loadRuns` (lib/storage.ts, lib/leaderboardStore.ts) and
 * `readRuns` (app/page.tsx) perform. JSON text is not modelled: the entry is described by
 * what `JSON.parse` makes of it.
 */
module Browser {
  import opened Models

  /** The key under which the runs are stored. */
  const RunsKey: string := "cw_benchmark_runs"

  /** The value stored under `RunsKey`. */
  datatype Slot =
      /** `getItem` returns `null` or "" (both falsy). */
    | Absent
      /** `JSON.parse` throws. */
    | Unparsable
      /** Parses to something that is not an array. */
    | NotAnArray
      /** Parses to an array of runs, newest first. */
    | Saved(runs: seq<BenchRun>)

  /** The page's view of storage: whether `window` exists, and the stored entry. */
  class LocalStorage {
    /** `typeof window !== "undefined"`: false while rendering on the server, where `localStorage` does not exist. */
    const hasWindow: bool

    var slot: Slot

    constructor(hasWindow: bool, slot: Slot)
      ensures this.hasWindow == hasWindow && this.slot == slot
    {
      this.hasWindow := hasWindow;
      this.slot := slot;
    }

    /**
     * The run list a load returns: without `window`, or for an absent, unparsable
     * or non-array entry, the empty list.
     */
    function Loaded(): seq<BenchRun>
      reads this
    {
      if hasWindow && slot.Saved? then slot.runs else []
    }
  }

  /** The error a use of `localStorage` throws where `window` does not exist. */
  const NoStorageError: string := "localStorage is not defined"
}
