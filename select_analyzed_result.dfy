/** The result picker of app/ui/spectrogram/controls/SelectAnalyzedResult.tsx:
    the saved results listed as favourites, the other analysed results as
    history, each described by its words, and the label of the button that
    opens the picker. */
module ResultSelection {
  import opened Wrappers
  import Text
  import Seqs
  import Dsp
  import SpectrogramResultsStore

  type AnalyzedResult = SpectrogramResultsStore.AnalyzedResult

  const DefaultMaxLength: nat := 3
  const Ellipsis: string := "..."
  /** The favourite marker, a star and a space. */
  const Star: string := "⭐ "

  /** `shorten`: empty text gives `''`; text of at most `maxLength`
      space-separated words is kept; longer text is cut to its first
      `maxLength` words, followed by `...`. */
  function Shorten(text: string, maxLength: nat): (r: string)
    ensures text == [] ==> r == []
    ensures |Text.Split(text, ' ')| <= maxLength ==> r == text
    ensures text != [] && |Text.Split(text, ' ')| > maxLength ==>
      && |r| >= |Ellipsis| && r[|r| - |Ellipsis|..] == Ellipsis
      && r[..|r| - |Ellipsis|] <= text
      && (maxLength > 0 ==> Text.Split(r[..|r| - |Ellipsis|], ' ') == Text.Split(text, ' ')[..maxLength])
  {
    if text == [] then []
    else
      var words := Text.Split(text, ' ');
      if |words| > maxLength then
        var kept := Text.Join(words[..maxLength], " ");
        ShortenedPrefix(text, words, maxLength);
        assert (kept + Ellipsis)[..|kept|] == kept;
        kept + Ellipsis
      else text
  }

  /** The kept words are a prefix of the text and split back into those words. */
  lemma ShortenedPrefix(text: string, words: seq<string>, maxLength: nat)
    requires words == Text.Split(text, ' ') && maxLength <= |words|
    ensures Text.Join(words[..maxLength], " ") <= text
    ensures maxLength > 0 ==> Text.Split(Text.Join(words[..maxLength], " "), ' ') == words[..maxLength]
  {
    Text.JoinSplit(text, ' ');
    Text.JoinPrefix(words, " ", maxLength);
    if maxLength > 0 {
      Text.SplitJoin(words[..maxLength], ' ');
    }
  }

  /** The words of a result, in order. */
  function Words(formants: seq<Dsp.WordWithFormants>): (r: seq<string>)
    ensures |r| == |formants|
    ensures forall i :: 0 <= i < |r| ==> r[i] == formants[i].word
  {
    seq(|formants|, i requires 0 <= i < |formants| => formants[i].word)
  }

  /** A result's description: its words joined by spaces. */
  function Description(result: AnalyzedResult): (r: string)
    ensures |result.formants| > 0 && (forall i :: 0 <= i < |result.formants| ==> ' ' !in result.formants[i].word) ==>
      Text.Split(r, ' ') == Words(result.formants)
  {
    var words := Words(result.formants);
    if |words| > 0 && (forall i :: 0 <= i < |words| ==> ' ' !in words[i]) then
      Text.SplitJoin(words, ' ');
      Text.Join(words, " ")
    else Text.Join(words, " ")
  }

  datatype Item = Item(result: AnalyzedResult, description: string)

  function Describe(results: seq<AnalyzedResult>): (r: seq<Item>)
    ensures |r| == |results|
    ensures forall i :: 0 <= i < |r| ==> r[i] == Item(results[i], Description(results[i]))
  {
    seq(|results|, i requires 0 <= i < |results| => Item(results[i], Description(results[i])))
  }

  /** The favourites: every saved result, in order, with its description. */
  function FavoriteItems(savedResults: seq<AnalyzedResult>): (r: seq<Item>)
    ensures |r| == |savedResults|
    ensures forall i :: 0 <= i < |r| ==> r[i].result == savedResults[i] && r[i].description == Description(savedResults[i])
  {
    Describe(savedResults)
  }

  /** `item => !savedResults.includes(item)`. */
  function Unsaved(savedResults: seq<AnalyzedResult>): AnalyzedResult -> bool
  {
    (item: AnalyzedResult) => item !in savedResults
  }

  lemma DescribeConcat(x: seq<AnalyzedResult>, y: seq<AnalyzedResult>)
    ensures Describe(x + y) == Describe(x) + Describe(y)
  {
    assert forall i :: 0 <= i < |x + y| ==> Describe(x + y)[i] == (Describe(x) + Describe(y))[i];
  }

  /** The history: the analysed results that are not saved, in order. */
  function HistoryItems(analyzedResults: seq<AnalyzedResult>, savedResults: seq<AnalyzedResult>): (r: seq<Item>)
    ensures |r| <= |analyzedResults|
    ensures forall i :: 0 <= i < |r| ==> r[i].result in analyzedResults && r[i].result !in savedResults
    ensures forall i :: 0 <= i < |analyzedResults| && analyzedResults[i] !in savedResults ==>
      Item(analyzedResults[i], Description(analyzedResults[i])) in r
  {
    var kept := Seqs.Filter(Unsaved(savedResults), analyzedResults);
    var r := Describe(kept);
    assert forall i :: 0 <= i < |kept| ==> r[i] == Item(kept[i], Description(kept[i]));
    r
  }

  /** Every analysed result is listed over the two lists: as a favourite
      when saved, in the history otherwise; and nothing saved is in the history. */
  lemma HistoryPartition(analyzedResults: seq<AnalyzedResult>, savedResults: seq<AnalyzedResult>, x: AnalyzedResult)
    requires x in analyzedResults
    ensures x in savedResults ==> Item(x, Description(x)) in FavoriteItems(savedResults)
    ensures x !in savedResults ==> Item(x, Description(x)) in HistoryItems(analyzedResults, savedResults)
    ensures forall item :: item in HistoryItems(analyzedResults, savedResults) ==> item.result !in savedResults
  {
    var history := HistoryItems(analyzedResults, savedResults);
    if x in savedResults {
      var j :| 0 <= j < |savedResults| && savedResults[j] == x;
      assert FavoriteItems(savedResults)[j] == Item(x, Description(x));
    } else {
      var j :| 0 <= j < |analyzedResults| && analyzedResults[j] == x;
    }
    forall item | item in history
      ensures item.result !in savedResults
    {
      var j :| 0 <= j < |history| && history[j] == item;
    }
  }

  /** The history keeps the order of the analysed results: the history of
      two runs of results is the history of the first followed by that of the second. */
  lemma HistoryConcat(a: seq<AnalyzedResult>, b: seq<AnalyzedResult>, savedResults: seq<AnalyzedResult>)
    ensures HistoryItems(a + b, savedResults) == HistoryItems(a, savedResults) + HistoryItems(b, savedResults)
  {
    var keep := Unsaved(savedResults);
    Seqs.FilterConcat(keep, a, b);
    DescribeConcat(Seqs.Filter(keep, a), Seqs.Filter(keep, b));
  }

  /** The label of the picker button: a starred (when saved) shortened
      description of the current result, or a prompt when nothing is chosen. */
  function CurrentItemDisplayName(currentAnalyzedResult: Option<AnalyzedResult>, analyzedResults: seq<AnalyzedResult>,
                                  savedResults: seq<AnalyzedResult>): (r: string)
    ensures currentAnalyzedResult.Some? && currentAnalyzedResult.value in savedResults ==>
      r == Star + Shorten(Description(currentAnalyzedResult.value), DefaultMaxLength)
    ensures currentAnalyzedResult.Some? && currentAnalyzedResult.value !in savedResults ==>
      r == Shorten(Description(currentAnalyzedResult.value), DefaultMaxLength)
    ensures currentAnalyzedResult.None? ==>
      (r == "Select a result" <==> |FavoriteItems(savedResults)| > 0 || |HistoryItems(analyzedResults, savedResults)| > 0)
    ensures currentAnalyzedResult.None? ==> r == "Select a result" || r == "No results available"
  {
    match currentAnalyzedResult
    case Some(current) =>
      (if current in savedResults then Star else "") + Shorten(Description(current), DefaultMaxLength)
    case None =>
      if |FavoriteItems(savedResults)| > 0 || |HistoryItems(analyzedResults, savedResults)| > 0 then "Select a result"
      else "No results available"
  }

  /** A shortened text starts like the text itself, or with the ellipsis
      when the first kept word is empty. */
  lemma ShortenFirst(text: string, maxLength: nat)
    ensures var r := Shorten(text, maxLength);
      r == [] || (text != [] && r[0] == text[0]) || r[0] == '.'
  {
    var r := Shorten(text, maxLength);
    if text != [] && |Text.Split(text, ' ')| > maxLength {
      var kept := r[..|r| - |Ellipsis|];
      if kept != [] {
        assert r[0] == kept[0];
        assert kept[0] == text[0];
      } else {
        assert r[0] == Ellipsis[0];
      }
    }
  }

  /** The label starts with the star exactly when the current result is saved,
      provided its description does not itself start with the star. */
  lemma StarIffSaved(current: AnalyzedResult, analyzedResults: seq<AnalyzedResult>, savedResults: seq<AnalyzedResult>)
    requires var d := Description(current); d == [] || d[0] != Star[0]
    ensures var r := CurrentItemDisplayName(Some(current), analyzedResults, savedResults);
      (|r| > 0 && r[0] == Star[0]) <==> current in savedResults
  {
    ShortenFirst(Description(current), DefaultMaxLength);
  }
}
