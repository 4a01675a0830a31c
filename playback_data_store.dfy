/** The playback history of app/stores/spectrogram/PlaybackDataStore.ts: the
    last five analysed recordings, oldest first. */
module PlaybackDataStore {
  import History
  import SpectrogramResultsStore

  datatype State = State(analyzedResults: seq<SpectrogramResultsStore.AnalyzedResult>)
  {
    function AddAnalyzedResult(entry: SpectrogramResultsStore.AnalyzedResult): (r: State)
      ensures r.analyzedResults == History.AppendCapped(analyzedResults, entry)
    {
      State(History.AppendCapped(analyzedResults, entry))
    }
  }

  const Initial: State := State([])

  /** The history after a run of additions. */
  function AddAll(s: State, entries: seq<SpectrogramResultsStore.AnalyzedResult>): State
    decreases |entries|
  {
    if entries == [] then s else AddAll(s.AddAnalyzedResult(entries[0]), entries[1..])
  }

  /** The history never holds more than five entries, and holds the last
      five added, in the order they were added. */
  lemma {:induction false} HistoryIsLastFive(entries: seq<SpectrogramResultsStore.AnalyzedResult>)
    ensures AddAll(Initial, entries).analyzedResults == History.AppendAll([], entries)
    ensures |AddAll(Initial, entries).analyzedResults| <= History.MaxAnalyzedResults
    ensures AddAll(Initial, entries).analyzedResults
            == if |entries| <= History.MaxAnalyzedResults then entries
               else entries[|entries| - History.MaxAnalyzedResults..]
  {
    AddAllIsAppendAll(Initial, entries);
    History.AppendAllKeepsLastFive([], entries);
    assert [] + entries == entries;
  }

  lemma {:induction false} AddAllIsAppendAll(s: State, entries: seq<SpectrogramResultsStore.AnalyzedResult>)
    ensures AddAll(s, entries).analyzedResults == History.AppendAll(s.analyzedResults, entries)
    decreases |entries|
  {
    if entries != [] {
      AddAllIsAppendAll(s.AddAnalyzedResult(entries[0]), entries[1..]);
    }
  }
}
