/** The persisted result store of app/stores/AnalyzedResultsStore.ts: the
    currently shown result, the last five analysed recordings and up to five
    saved favourites. Each action is a pure state update. */
module AnalyzedResultsStore {
  import opened Wrappers
  import Seqs
  import Dsp
  import History

  datatype AnalyzedResult = AnalyzedResult(
    samples: seq<real>, sampleRate: real, formants: seq<Dsp.WordWithFormants>, id: string)

  /** The entries whose id differs from `id`, in order. */
  function WithoutId(list: seq<AnalyzedResult>, id: string): (r: seq<AnalyzedResult>)
    ensures forall i :: 0 <= i < |r| ==> r[i].id != id && r[i] in list
    ensures forall i :: 0 <= i < |list| && list[i].id != id ==> list[i] in r
  {
    Seqs.Filter((it: AnalyzedResult) => it.id != id, list)
  }

  datatype State = State(
    currentAnalyzedResult: Option<AnalyzedResult>,
    analyzedResults: seq<AnalyzedResult>,
    savedResults: seq<AnalyzedResult>)
  {
    function SetCurrentAnalyzedResult(result: AnalyzedResult): (r: State)
      ensures r.currentAnalyzedResult == Some(result)
      ensures r.analyzedResults == analyzedResults && r.savedResults == savedResults
    {
      this.(currentAnalyzedResult := Some(result))
    }

    function AddAnalyzedResult(entry: AnalyzedResult): (r: State)
      ensures r.analyzedResults == History.AppendCapped(analyzedResults, entry)
      ensures r.currentAnalyzedResult == currentAnalyzedResult && r.savedResults == savedResults
    {
      this.(analyzedResults := History.AppendCapped(analyzedResults, entry))
    }

    function RemoveSavedResult(result: AnalyzedResult): (r: State)
      ensures r.savedResults == WithoutId(savedResults, result.id)
      ensures r.currentAnalyzedResult == currentAnalyzedResult && r.analyzedResults == analyzedResults
    {
      this.(savedResults := WithoutId(savedResults, result.id))
    }

    function RemoveAnalyzedResult(result: AnalyzedResult): (r: State)
      ensures r.analyzedResults == WithoutId(analyzedResults, result.id)
      ensures r.currentAnalyzedResult == currentAnalyzedResult && r.savedResults == savedResults
    {
      this.(analyzedResults := WithoutId(analyzedResults, result.id))
    }

    /** Saving an entry that is already saved changes nothing; otherwise it
        is appended under the five-entry cap. */
    function SaveResult(entry: AnalyzedResult): (r: State)
      ensures entry in savedResults ==> r == this
      ensures entry !in savedResults ==> r.savedResults == History.AppendCapped(savedResults, entry)
      ensures r.currentAnalyzedResult == currentAnalyzedResult && r.analyzedResults == analyzedResults
      ensures entry in r.savedResults
    {
      if entry in savedResults then this
      else this.(savedResults := History.AppendCapped(savedResults, entry))
    }
  }

  /** The store's initial state. */
  const Initial: State := State(None, [], [])

  /** Saving is idempotent. */
  lemma SaveResultIdempotent(s: State, entry: AnalyzedResult)
    ensures s.SaveResult(entry).SaveResult(entry) == s.SaveResult(entry)
  {
  }

  predicate NoDuplicates<T(==)>(list: seq<T>)
  {
    forall i, j :: 0 <= i < j < |list| ==> list[i] != list[j]
  }

  /** Saved favourites never hold the same entry twice. */
  lemma SaveResultKeepsDistinct(s: State, entry: AnalyzedResult)
    requires NoDuplicates(s.savedResults)
    ensures NoDuplicates(s.SaveResult(entry).savedResults)
  {
    var saved := s.savedResults;
    if entry !in saved {
      var kept := if |saved| >= History.MaxAnalyzedResults then saved[1..] else saved;
      assert s.SaveResult(entry).savedResults == kept + [entry];
      assert forall i :: 0 <= i < |kept| ==> kept[i] in saved;
    }
  }

  /** Removal drops exactly the entries with the given id and keeps the rest in order. */
  lemma {:induction false} WithoutIdExact(list: seq<AnalyzedResult>, id: string)
    ensures forall x :: x in WithoutId(list, id) <==> x in list && x.id != id
    ensures forall a, b :: WithoutId(a + b, id) == WithoutId(a, id) + WithoutId(b, id)
    ensures (forall i :: 0 <= i < |list| ==> list[i].id != id) ==> WithoutId(list, id) == list
  {
    var keep := (it: AnalyzedResult) => it.id != id;
    forall a, b
      ensures WithoutId(a + b, id) == WithoutId(a, id) + WithoutId(b, id)
    {
      Seqs.FilterConcat(keep, a, b);
    }
    if forall i :: 0 <= i < |list| ==> list[i].id != id {
      Seqs.FilterKeepsAll(keep, list);
    }
  }
}
