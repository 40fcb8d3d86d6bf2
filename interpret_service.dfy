/** The interpretation service: the prompt sent to the language model for a
    set of scores, and the parsing of its answer into an interpretation and a
    list of suggestions. The model call itself is an input. */
module InterpretService {
  import opened Wrappers
  import opened Text
  import opened Analysis

  const HEADER: seq<string> := [
    "Vous \U{ea}tes un expert en soin de la peau pour l'institut SBeauty (Mons, Belgique).",
    "Les prestations disponibles sont : microneedling, hydrafacial 5en1, BB Glow, radiofr\U{e9}quence, lifting cor\U{e9}en non chirurgical, dermaplanning.",
    "Voici les scores d'analyse :"
  ]

  const FOOTER: seq<string> := [
    "",
    "1) Donnez une interpr\U{e9}tation concise de ces r\U{e9}sultats.",
    "2) En tenant compte des prestations SBeauty list\U{e9}es, proposez EXACTEMENT 3 prestations les plus adapt\U{e9}es."
  ]

  const SUGGESTIONS_MARKER: string := "Suggestions:"
  const INTERPRETATION_MARKER: string := "Interpr\U{e9}tation:"

  /** `f"- {cls} : {val*100:.0f}%"`; `percent` renders the rounded percentage. */
  function ScoreLine(e: ScoreEntry, percent: real -> string): string {
    "- " + e.name + " : " + percent(e.value * 100.0) + "%"
  }

  /** The prompt's lines: the header, one line per score in order, the footer. */
  function PromptLines(scores: seq<ScoreEntry>, percent: real -> string): (r: seq<string>)
    ensures |r| == |HEADER| + |scores| + |FOOTER|
    ensures r[..|HEADER|] == HEADER && r[|HEADER| + |scores|..] == FOOTER
    ensures forall i :: 0 <= i < |scores| ==> r[|HEADER| + i] == ScoreLine(scores[i], percent)
  {
    HEADER + seq(|scores|, i requires 0 <= i < |scores| => ScoreLine(scores[i], percent)) + FOOTER
  }

  /** Builds `prompt_lines` by appending, then joins them with newlines. */
  method BuildPrompt(scores: seq<ScoreEntry>, percent: real -> string) returns (prompt: string)
    ensures prompt == Join(PromptLines(scores, percent), "\n")
  {
    var lines := HEADER;
    var i := 0;
    while i < |scores|
      invariant 0 <= i <= |scores|
      invariant lines == HEADER + seq(i, k requires 0 <= k < i => ScoreLine(scores[k], percent))
    {
      lines := lines + [ScoreLine(scores[i], percent)];
      i := i + 1;
    }
    lines := lines + FOOTER;
    prompt := Join(lines, "\n");
  }

  /** The characters `lstrip` removes from the head of a suggestion line. */
  predicate IsBulletChar(c: char) {
    c == '\U{2022}' || ('0' <= c <= '9') || c == '.' || c == ')' || c == ' '
  }

  /** `line.strip().lstrip("•0123456789.) ").strip()` */
  function CleanLine(line: string): (r: string)
    ensures Stripped(r, IsPySpace)
  {
    PyStrip(TrimStart(PyStrip(line), IsBulletChar))
  }

  /** A line worth keeping: not empty, and with no blank at either end. */
  predicate Kept(text: string) {
    text != [] && Stripped(text, IsPySpace)
  }

  /** The suggestions kept from a list of lines: each cleaned line that is not empty, in order. */
  function SuggestionsOf(lines: seq<string>): (r: seq<string>)
    ensures |r| <= |lines|
    ensures forall k :: 0 <= k < |r| ==> Kept(r[k])
  {
    if lines == [] then []
    else
      var cleaned := CleanLine(lines[|lines| - 1]);
      var before := SuggestionsOf(lines[..|lines| - 1]);
      if cleaned != [] then before + [cleaned] else before
  }

  /** `interpretation`: the text before the first marker, with every
      "Interprétation:" removed, stripped. */
  function InterpretationOf(content: string): (r: string)
    ensures Stripped(r, IsPySpace)
    ensures Find(PyStrip(content), SUGGESTIONS_MARKER).None? ==>
      r == PyStrip(ReplaceAll(PyStrip(content), INTERPRETATION_MARKER, ""))
    ensures Find(PyStrip(content), SUGGESTIONS_MARKER).Some? ==>
      var stripped := PyStrip(content);
      r == PyStrip(ReplaceAll(stripped[..Find(stripped, SUGGESTIONS_MARKER).value], INTERPRETATION_MARKER, ""))
  {
    PyStrip(ReplaceAll(SplitOn(PyStrip(content), SUGGESTIONS_MARKER)[0], INTERPRETATION_MARKER, ""))
  }

  /** The text the suggestions come from: what lies between the first and the
      second marker, if there is a first. */
  function SuggestionSection(content: string): (r: Option<string>)
    ensures r.None? <==> Find(PyStrip(content), SUGGESTIONS_MARKER).None?
    ensures r.Some? ==> forall j :: !OccursAt(r.value, SUGGESTIONS_MARKER, j)
    ensures Find(PyStrip(content), SUGGESTIONS_MARKER).Some? ==>
      var stripped := PyStrip(content);
      var rest := stripped[Find(stripped, SUGGESTIONS_MARKER).value + |SUGGESTIONS_MARKER|..];
      r == Some(match Find(rest, SUGGESTIONS_MARKER) case None => rest case Some(j) => rest[..j])
  {
    var stripped := PyStrip(content);
    var parts := SplitOn(stripped, SUGGESTIONS_MARKER);
    if |parts| > 1 then
      SplitOnSecond(stripped, SUGGESTIONS_MARKER, Find(stripped, SUGGESTIONS_MARKER).value);
      Some(parts[1])
    else None
  }

  /** Parses the model's answer: the interpretation, then the suggestions
      gathered line by line from the section after the marker. */
  method ParseAnswer(content: string) returns (interpretation: string, suggestions: seq<string>)
    ensures interpretation == InterpretationOf(content)
    ensures SuggestionSection(content).None? ==> suggestions == []
    ensures SuggestionSection(content).Some? ==>
      suggestions == SuggestionsOf(SplitWhere(SuggestionSection(content).value, IsPyLineBreak))
  {
    var stripped := PyStrip(content);
    var parts := SplitOn(stripped, SUGGESTIONS_MARKER);
    interpretation := PyStrip(ReplaceAll(parts[0], INTERPRETATION_MARKER, ""));
    suggestions := [];
    if |parts| > 1 {
      suggestions := CollectSuggestions(SplitWhere(parts[1], IsPyLineBreak));
    }
  }

  /** The loop over the section's lines, appending each non-empty cleaned line. */
  method CollectSuggestions(lines: seq<string>) returns (suggestions: seq<string>)
    ensures suggestions == SuggestionsOf(lines)
  {
    suggestions := [];
    var i := 0;
    while i < |lines|
      invariant 0 <= i <= |lines|
      invariant suggestions == SuggestionsOf(lines[..i])
    {
      var text := CleanLine(lines[i]);
      SuggestionsStep(lines, i);
      if text != [] {
        suggestions := suggestions + [text];
      }
      i := i + 1;
    }
    assert lines[..|lines|] == lines;
  }

  /** One more line adds its cleaned text, if any, after the others. */
  lemma SuggestionsStep(lines: seq<string>, i: nat)
    requires i < |lines|
    ensures SuggestionsOf(lines[..i + 1]) ==
      var text := CleanLine(lines[i]);
      if text == [] then SuggestionsOf(lines[..i]) else SuggestionsOf(lines[..i]) + [text]
  {
    assert lines[..i + 1][..i] == lines[..i];
  }

  /** A numbered or bulleted list item gives back its text: `"1. "` or `"• "`
      followed by a text that starts with a letter and ends without blank. */
  lemma ListItemCleans(bullet: string, text: string)
    requires forall i :: 0 <= i < |bullet| ==> IsBulletChar(bullet[i])
    requires bullet == [] || !IsPySpace(bullet[0])
    requires text != [] && !IsBulletChar(text[0]) && Stripped(text, IsPySpace)
    ensures CleanLine(bullet + text) == text
  {
    var line := bullet + text;
    assert line[|line| - 1] == text[|text| - 1];
    assert line[0] == if bullet == [] then text[0] else bullet[0];
    assert Stripped(line, IsPySpace);
    TrimStartPrefix(bullet, text, IsBulletChar);
  }
}
