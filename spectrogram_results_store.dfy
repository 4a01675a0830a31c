/** The in-memory result store of app/stores/spectrogram/AnalyzedResultsStore.ts:
    the last five analysed recordings and up to five saved ones. Unlike the
    persisted store, saving does not check for duplicates. */
module SpectrogramResultsStore {
  import Dsp
  import History
  import RingBuffers

  datatype AnalyzedResult = AnalyzedResult(
    samples: seq<real>, sampleRate: real, formants: seq<Dsp.WordWithFormants>)

  datatype State = State(analyzedResults: seq<AnalyzedResult>, savedResults: seq<AnalyzedResult>)
  {
    function AddAnalyzedResult(entry: AnalyzedResult): (r: State)
      ensures r.analyzedResults == History.AppendCapped(analyzedResults, entry)
      ensures r.savedResults == savedResults
    {
      this.(analyzedResults := History.AppendCapped(analyzedResults, entry))
    }

    function SaveResult(entry: AnalyzedResult): (r: State)
      ensures r.savedResults == History.AppendCapped(savedResults, entry)
      ensures r.analyzedResults == analyzedResults
    {
      this.(savedResults := History.AppendCapped(savedResults, entry))
    }
  }

  const Initial: State := State([], [])

  /** Without a duplicate check, saving the same entry twice stores it twice. */
  lemma SaveTwiceStoresTwice(s: State, entry: AnalyzedResult)
    requires |s.savedResults| + 2 <= History.MaxAnalyzedResults
    ensures s.SaveResult(entry).SaveResult(entry).savedResults == s.savedResults + [entry, entry]
  {
    assert s.savedResults + [entry] + [entry] == s.savedResults + [entry, entry];
  }

  /** From the initial state, the saved list holds the last five saves,
      duplicates included. */
  lemma SavesKeepLastFive(entries: seq<AnalyzedResult>)
    ensures History.AppendAll(Initial.savedResults, entries) == RingBuffers.LastN(entries, History.MaxAnalyzedResults)
  {
    var empty: seq<AnalyzedResult> := [];
    History.AppendAllKeepsLastFive(empty, entries);
    assert empty + entries == entries;
  }
}
