/** The bounded-history update shared by the result stores
    (app/stores/AnalyzedResultsStore.ts, app/stores/spectrogram/AnalyzedResultsStore.ts,
    app/stores/spectrogram/PlaybackDataStore.ts): append the new entry and,
    when the list then exceeds five entries, drop its first (oldest) element. */
module History {
  import RingBuffers

  const MaxAnalyzedResults: nat := 5

  /** `[...list, entry]`, without its head when it is longer than five. */
  function AppendCapped<T>(list: seq<T>, entry: T): (r: seq<T>)
    ensures |r| > 0 && r[|r| - 1] == entry
    ensures |list| < MaxAnalyzedResults ==> r == list + [entry]
    ensures |list| >= MaxAnalyzedResults ==> r == list[1..] + [entry]
  {
    var updated := list + [entry];
    if |updated| > MaxAnalyzedResults then updated[1..] else updated
  }

  /** Adding never takes a list of at most five entries past five. */
  lemma AppendCappedBounded<T>(list: seq<T>, entry: T)
    requires |list| <= MaxAnalyzedResults
    ensures |AppendCapped(list, entry)| <= MaxAnalyzedResults
    ensures |AppendCapped(list, entry)| == if |list| == MaxAnalyzedResults then |list| else |list| + 1
  {
  }

  /** On a list within the cap, the update is a push into a ring buffer of
      capacity five: it keeps the last five entries of everything added. */
  lemma AppendCappedIsRingPush<T>(list: seq<T>, entry: T)
    requires |list| <= MaxAnalyzedResults
    ensures AppendCapped(list, entry) == RingBuffers.Pushed(list, entry, MaxAnalyzedResults)
    ensures AppendCapped(list, entry) == RingBuffers.LastN(list + [entry], MaxAnalyzedResults)
  {
    RingBuffers.PushedIsLastN(list, entry, MaxAnalyzedResults);
  }

  /** The list after adding each of `entries` in turn. */
  function AppendAll<T>(list: seq<T>, entries: seq<T>): seq<T>
    decreases |entries|
  {
    if entries == [] then list else AppendAll(AppendCapped(list, entries[0]), entries[1..])
  }

  /** Starting from an empty history, the history holds the last five entries added. */
  lemma {:induction false} AppendAllKeepsLastFive<T>(list: seq<T>, entries: seq<T>)
    requires |list| <= MaxAnalyzedResults
    ensures AppendAll(list, entries) == RingBuffers.PushAll(list, entries, MaxAnalyzedResults)
    ensures AppendAll(list, entries) == RingBuffers.LastN(list + entries, MaxAnalyzedResults)
    decreases |entries|
  {
    if entries != [] {
      AppendCappedIsRingPush(list, entries[0]);
      AppendCappedBounded(list, entries[0]);
      AppendAllKeepsLastFive(AppendCapped(list, entries[0]), entries[1..]);
    }
    RingBuffers.PushAllKeepsLast(list, entries, MaxAnalyzedResults);
  }
}
