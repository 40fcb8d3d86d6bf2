/** The FreshSkinCoach dashboard of one analysis: the score bar chart, the
    interpretation request, and the split of each suggestion into a title
    and a detail. */
module DashboardScreen {
  import opened Wrappers
  import opened Text
  import opened Labels
  import opened Analysis
  import opened ClientApi
  import Ordering

  const BAR_ITEM_WIDTH: nat := 60

  /** `b.value - a.value` as a sort comparator. */
  predicate ByValueDesc(a: ScoreEntry, b: ScoreEntry) { a.value >= b.value }

  /** `entries`: every score in percent, highest first; ties keep their order. */
  function Entries(scores: seq<ScoreEntry>): seq<ScoreEntry> {
    Ordering.SortBy(Ordering.Map(scores, (e: ScoreEntry) => ScoreEntry(e.name, e.value * 100.0)), ByValueDesc)
  }

  /** `Math.round`: the nearest integer, halves rounded up. */
  function Round(x: real): (n: int)
    ensures n as real - 0.5 <= x < n as real + 0.5
  {
    (x + 0.5).Floor
  }

  /** The bar chart: a wrapped, translated label and a rounded percentage per
      score, in descending score order. */
  datatype Chart = Chart(labels: seq<string>, data: seq<int>, width: nat)

  function ScoreChart(fr: map<string, string>, scores: seq<ScoreEntry>): (c: Chart)
    ensures |c.labels| == |c.data| == |scores|
    ensures c.width == |scores| * BAR_ITEM_WIDTH + 40
    ensures forall i :: 0 <= i < |scores| ==>
      c.labels[i] == ChartLabel(fr, Entries(scores)[i].name) && c.data[i] == Round(Entries(scores)[i].value)
  {
    var entries := Entries(scores);
    Chart(Ordering.Map(entries, (e: ScoreEntry) => ChartLabel(fr, e.name)),
          Ordering.Map(entries, (e: ScoreEntry) => Round(e.value)),
          |entries| * BAR_ITEM_WIDTH + 40)
  }

  /** The chart lists every score once, in descending percent. */
  lemma EntriesSortedPermutation(scores: seq<ScoreEntry>)
    ensures Ordering.SortedBy(Entries(scores), ByValueDesc)
    ensures multiset(Entries(scores)) ==
      multiset(Ordering.Map(scores, (e: ScoreEntry) => ScoreEntry(e.name, e.value * 100.0)))
  {
    assert Ordering.TotalPreorder(ByValueDesc);
    Ordering.SortBySorted(Ordering.Map(scores, (e: ScoreEntry) => ScoreEntry(e.name, e.value * 100.0)), ByValueDesc);
  }

  /** A recommendation row: the text before the first colon, trimmed, and
      everything after it, trimmed (empty when there is no colon). */
  datatype Recommendation = Recommendation(title: string, detail: string)

  predicate IsColon(c: char) { c == ':' }

  function SplitSuggestion(s: string): (r: Recommendation)
    ensures ':' !in s ==> r == Recommendation(JsTrim(s), "")
    ensures forall i :: 0 <= i < |s| && s[i] == ':' && ':' !in s[..i] ==>
      r == Recommendation(JsTrim(s[..i]), JsTrim(s[i + 1..]))
  {
    match Ordering.FirstIndex(s, IsColon)
    case None => Recommendation(JsTrim(s), "")
    case Some(i) =>
      assert forall j :: 0 <= j < |s| && s[j] == ':' && ':' !in s[..j] ==> j == i by {
        assert s[i] == ':';
      }
      Recommendation(JsTrim(s[..i]), JsTrim(s[i + 1..]))
  }

  /** A suggestion written "title: detail" splits back into its trimmed parts,
      colons inside the detail included. */
  lemma SplitSuggestionInverse(title: string, detail: string)
    requires ':' !in title
    ensures SplitSuggestion(title + ":" + detail) == Recommendation(JsTrim(title), JsTrim(detail))
  {
    var s := title + ":" + detail;
    assert s[|title|] == ':';
    assert s[..|title|] == title;
    assert s[|title| + 1..] == detail;
  }

  /** The body of POST /interpret/. */
  datatype Interpretation = Interpretation(interpretation: string, suggestions: seq<string>)

  class Dashboard {
    var interpretation: string
    var suggestions: seq<string>
    var loadingInterpretation: bool
    var events: seq<Event>

    constructor ()
      ensures interpretation == "" && suggestions == [] && loadingInterpretation && events == []
    {
      interpretation := "";
      suggestions := [];
      loadingInterpretation := true;
      events := [];
    }

    /** The effect on mount: post the scores; on success show the answer, on
        failure keep what was shown; the loader is off either way. */
    method LoadInterpretation(scores: seq<ScoreEntry>, reply: Reply<Interpretation>)
      modifies this
      ensures events == old(events) + [Http(PostInterpret(scores))]
      ensures !loadingInterpretation
      ensures reply.Answered? ==>
        interpretation == reply.body.interpretation && suggestions == reply.body.suggestions
      ensures reply.Failed? ==>
        interpretation == old(interpretation) && suggestions == old(suggestions)
    {
      loadingInterpretation := true;
      events := events + [Http(PostInterpret(scores))];
      if reply.Answered? {
        interpretation := reply.body.interpretation;
        suggestions := reply.body.suggestions;
      }
      loadingInterpretation := false;
    }

    /** What the card area shows once loaded: the interpretation when it is
        not empty, and one row per suggestion. */
    function Rows(): (r: seq<Recommendation>)
      reads this
      ensures |r| == |suggestions|
      ensures forall i :: 0 <= i < |r| ==> r[i] == SplitSuggestion(suggestions[i])
    {
      Ordering.Map(suggestions, SplitSuggestion)
    }
  }
}
