/** The skin analyzer: from the detector's predictions, a score per known
    class and one normalised annotation per prediction. Reading the image,
    the remote inference and the drawing are inputs or left out. */
module SkinAnalyzer {
  import opened Wrappers
  import opened Analysis
  import Storage
  import Ordering

  const ALL_CLASSES: seq<string> := [
    "Acne", "Dark-Circle", "Dry-Skin", "EyeBags", "Normal-Skin",
    "Oily-Skin", "Pores", "Spots", "Wrinkles"
  ]

  /** One detection: its class, its confidence and its box in pixels (centre, size). */
  datatype Prediction = Prediction(className: string, confidence: real, x: real, y: real, width: real, height: real)

  type Pixels = n: int | n >= 1 witness 1

  /** The size of a readable image. */
  datatype Image = Image(width: Pixels, height: Pixels)

  datatype SkinAnalysis = SkinAnalysis(scores: seq<ScoreEntry>, annotations: seq<Annotation>, annotatedPath: string)

  const UNREADABLE_IMAGE: string := "Impossible de lire l'image pour normalisation"

  lemma ClassesDistinct()
    ensures forall i, j :: 0 <= i < j < |ALL_CLASSES| ==> ALL_CLASSES[i] != ALL_CLASSES[j]
  {
    forall i, j | 0 <= i < j < |ALL_CLASSES| ensures ALL_CLASSES[i] != ALL_CLASSES[j] {
      if |ALL_CLASSES[i]| == |ALL_CLASSES[j]| {
        assert ALL_CLASSES[i][0] != ALL_CLASSES[j][0];
      }
    }
  }

  /** The index of the last prediction of class `name`, if any. */
  function LastOfClass(preds: seq<Prediction>, name: string): (r: Option<nat>)
    ensures r.Some? ==> r.value < |preds| && preds[r.value].className == name
    ensures r.Some? ==> forall j :: r.value < j < |preds| ==> preds[j].className != name
    ensures r.None? ==> forall j :: 0 <= j < |preds| ==> preds[j].className != name
  {
    if preds == [] then None
    else if preds[|preds| - 1].className == name then Some(|preds| - 1)
    else LastOfClass(preds[..|preds| - 1], name)
  }

  /** The score a class ends with: the confidence of its last prediction, 0.0 when it has none. */
  function ScoreFor(preds: seq<Prediction>, name: string): (r: real)
    ensures (forall j :: 0 <= j < |preds| ==> preds[j].className != name) ==> r == 0.0
    ensures r == 0.0 || exists j :: 0 <= j < |preds| && preds[j].className == name && preds[j].confidence == r
  {
    match LastOfClass(preds, name)
    case None => 0.0
    case Some(i) => preds[i].confidence
  }

  /** The `scores` dictionary: every class starts at 0.0, and each prediction
      of a known class overwrites its class's score. */
  method BuildScores(preds: seq<Prediction>) returns (scores: seq<ScoreEntry>)
    ensures |scores| == |ALL_CLASSES|
    ensures forall k :: 0 <= k < |ALL_CLASSES| ==>
      scores[k] == ScoreEntry(ALL_CLASSES[k], ScoreFor(preds, ALL_CLASSES[k]))
  {
    scores := seq(|ALL_CLASSES|, k requires 0 <= k < |ALL_CLASSES| => ScoreEntry(ALL_CLASSES[k], 0.0));
    var i := 0;
    while i < |preds|
      invariant 0 <= i <= |preds|
      invariant ScoresAfter(scores, preds[..i])
    {
      var p := preds[i];
      var known := Ordering.FirstIndex(ALL_CLASSES, (c: string) => c == p.className);
      var next := if known.Some? then scores[known.value := ScoreEntry(p.className, p.confidence)] else scores;
      ScoresStep(scores, preds, i, known, next);
      scores := next;
      i := i + 1;
    }
    assert preds[..|preds|] == preds;
  }

  /** `scores` holds, for every class in order, its score after `preds`. */
  predicate ScoresAfter(scores: seq<ScoreEntry>, preds: seq<Prediction>) {
    |scores| == |ALL_CLASSES| &&
    forall k :: 0 <= k < |ALL_CLASSES| ==> scores[k] == ScoreEntry(ALL_CLASSES[k], ScoreFor(preds, ALL_CLASSES[k]))
  }

  lemma ScoresStep(scores: seq<ScoreEntry>, preds: seq<Prediction>, i: nat, known: Option<nat>, next: seq<ScoreEntry>)
    requires i < |preds| && ScoresAfter(scores, preds[..i])
    requires known == Ordering.FirstIndex(ALL_CLASSES, (c: string) => c == preds[i].className)
    requires next == if known.Some? then scores[known.value := ScoreEntry(preds[i].className, preds[i].confidence)] else scores
    ensures ScoresAfter(next, preds[..i + 1])
  {
    forall k | 0 <= k < |ALL_CLASSES|
      ensures next[k] == ScoreEntry(ALL_CLASSES[k], ScoreFor(preds[..i + 1], ALL_CLASSES[k]))
    {
      ScoreForStep(preds, i, ALL_CLASSES[k]);
      if known.Some? && k != known.value {
        ClassesDistinct();
        assert ALL_CLASSES[k] != ALL_CLASSES[known.value];
      }
    }
  }

  /** One more prediction changes only its own class's score. */
  lemma ScoreForStep(preds: seq<Prediction>, i: nat, name: string)
    requires i < |preds|
    ensures ScoreFor(preds[..i + 1], name) ==
      if preds[i].className == name then preds[i].confidence else ScoreFor(preds[..i], name)
  {
    assert preds[..i + 1][..i] == preds[..i];
  }

  /** The score keys are exactly the known classes, in their order. */
  lemma ScoreKeys(preds: seq<Prediction>, scores: seq<ScoreEntry>)
    requires |scores| == |ALL_CLASSES|
    requires forall k :: 0 <= k < |ALL_CLASSES| ==>
      scores[k] == ScoreEntry(ALL_CLASSES[k], ScoreFor(preds, ALL_CLASSES[k]))
    ensures Names(scores) == ALL_CLASSES
    ensures forall name :: ScoreOf(scores, name).Some? <==> name in ALL_CLASSES
  {
    assert Names(scores) == ALL_CLASSES;
    forall name ensures ScoreOf(scores, name).Some? <==> name in ALL_CLASSES {
      if name in ALL_CLASSES {
        var k :| 0 <= k < |ALL_CLASSES| && ALL_CLASSES[k] == name;
        assert scores[k].name == name;
      }
    }
  }

  /** A box in pixels made relative to the image size. */
  function Normalize(p: Prediction, image: Image): Annotation {
    Annotation(Box(p.x / image.width as real, p.y / image.height as real,
                   p.width / image.width as real, p.height / image.height as real), p.className)
  }

  /** Scaling a normalised box back by the image size gives the pixel box. */
  lemma NormalizeInverse(p: Prediction, image: Image)
    ensures Normalize(p, image).box.x * image.width as real == p.x
    ensures Normalize(p, image).box.y * image.height as real == p.y
    ensures Normalize(p, image).box.width * image.width as real == p.width
    ensures Normalize(p, image).box.height * image.height as real == p.height
    ensures Normalize(p, image).name == p.className
  {
  }

  /** The `annotations` list, appended to once per prediction. */
  method BuildAnnotations(preds: seq<Prediction>, image: Image) returns (annotations: seq<Annotation>)
    ensures |annotations| == |preds|
    ensures forall i :: 0 <= i < |preds| ==> annotations[i] == Normalize(preds[i], image)
  {
    annotations := [];
    var i := 0;
    while i < |preds|
      invariant 0 <= i <= |preds|
      invariant |annotations| == i
      invariant forall k :: 0 <= k < i ==> annotations[k] == Normalize(preds[k], image)
    {
      annotations := annotations + [Normalize(preds[i], image)];
      i := i + 1;
    }
  }

  /** `analyze_image`: an unreadable image fails before the detector is
      asked; a detector failure propagates; an answer without a
      "predictions" entry counts as no predictions. `inferred` tells whether
      the detector was called. */
  method AnalyzeImage(image: Option<Image>, inference: Result<Option<seq<Prediction>>, string>,
                      saveDir: string, base: string)
    returns (r: Result<SkinAnalysis, string>, inferred: bool)
    ensures image.None? ==> r == Err(UNREADABLE_IMAGE) && !inferred
    ensures image.Some? ==> inferred
    ensures image.Some? && inference.Err? ==> r == Err(inference.error)
    ensures image.Some? && inference.Ok? ==> r.Ok?
    ensures r.Ok? ==>
      var preds := if inference.value.Some? then inference.value.value else [];
      |r.value.scores| == |ALL_CLASSES| &&
      (forall k :: 0 <= k < |ALL_CLASSES| ==>
        r.value.scores[k] == ScoreEntry(ALL_CLASSES[k], ScoreFor(preds, ALL_CLASSES[k]))) &&
      |r.value.annotations| == |preds| &&
      (forall i :: 0 <= i < |preds| ==> r.value.annotations[i] == Normalize(preds[i], image.value)) &&
      r.value.annotatedPath == Storage.PathJoin(saveDir, base + "_annotated.jpg")
  {
    if image.None? {
      return Err(UNREADABLE_IMAGE), false;
    }
    inferred := true;
    if inference.Err? {
      return Err(inference.error), inferred;
    }
    var preds := if inference.value.Some? then inference.value.value else [];
    var scores := BuildScores(preds);
    var annotations := BuildAnnotations(preds, image.value);
    r := Ok(SkinAnalysis(scores, annotations, Storage.PathJoin(saveDir, base + "_annotated.jpg")));
  }
}
