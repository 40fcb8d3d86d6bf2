/** The French label dictionary of the clients (`translateLabel`). */
module Labels {
  import opened Text

  /** `fr[key] || key`: the translation, or the key itself when the entry is
      missing or empty (an empty string is falsy). */
  function Translate(fr: map<string, string>, key: string): (r: string)
    ensures key in fr && fr[key] != "" ==> r == fr[key]
    ensures key !in fr || fr[key] == "" ==> r == key
    ensures r != "" || key == ""
  {
    if key in fr && fr[key] != "" then fr[key] else key
  }

  /** A chart label: the translation with every space turned into a line
      break (`label.split(" ").join("\n")`). */
  function ChartLabel(fr: map<string, string>, key: string): (r: string)
    ensures |r| == |Translate(fr, key)| && ' ' !in r
    ensures forall i :: 0 <= i < |r| ==>
      r[i] == (if Translate(fr, key)[i] == ' ' then '\n' else Translate(fr, key)[i])
  {
    ReplaceChar(Translate(fr, key), ' ', '\n')
  }
}
