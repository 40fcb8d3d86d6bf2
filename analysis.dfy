/** The analysis record exchanged between the server and the mobile clients:
    a score per condition label and one annotation per detected box. */
module Analysis {
  import opened Wrappers

  /** One `label: score` pair (field `name`, since `label` is a Dafny keyword) of the `scores` object, kept in insertion order
      (Python dicts and `Object.entries` both preserve it). Scores are kept
      as reals: only their order and their sign matter to the application. */
  datatype ScoreEntry = ScoreEntry(name: string, value: real)

  /** A box in coordinates relative to the image size. */
  datatype Box = Box(x: real, y: real, width: real, height: real)

  datatype Annotation = Annotation(box: Box, name: string)

  /** `scores[name]` on a JSON object: the value of the first entry with that key. */
  function ScoreOf(scores: seq<ScoreEntry>, name: string): (r: Option<real>)
    ensures r.Some? ==> ScoreEntry(name, r.value) in scores
    ensures r.None? ==> forall i :: 0 <= i < |scores| ==> scores[i].name != name
  {
    if scores == [] then None
    else if scores[0].name == name then Some(scores[0].value)
    else ScoreOf(scores[1..], name)
  }

  function Names(scores: seq<ScoreEntry>): (r: seq<string>)
    ensures |r| == |scores| && forall i :: 0 <= i < |scores| ==> r[i] == scores[i].name
  {
    seq(|scores|, i requires 0 <= i < |scores| => scores[i].name)
  }

  /** One entry of the statistics' `by_label` list (field `name` stands for `label`). */
  datatype LabelStat = LabelStat(name: string, count: nat, percent: real)

  datatype StatsResponse = StatsResponse(totalSessions: nat, byLabel: seq<LabelStat>)
}
