/** The keyword line under each image: `keywords.slice(0, 5).join(', ')`
    followed by "...", whatever the number of keywords. */
module KeywordSummary {
  import opened Text

  const MaxShown := 5
  const Separator := ", "
  const Ellipsis := "..."

  /** `keywords.slice(0, 5)` */
  function Shown(keywords: seq<string>): (r: seq<string>)
    ensures |r| <= MaxShown && |r| <= |keywords|
    ensures r == keywords[..|r|]
    ensures |r| == MaxShown || r == keywords
  {
    if |keywords| <= MaxShown then keywords else keywords[..MaxShown]
  }

  /** The text shown after "Keywords:"; it always ends in the ellipsis. */
  function Summary(keywords: seq<string>): (r: string)
    ensures |r| >= |Ellipsis| && r[|r| - |Ellipsis|..] == Ellipsis
  {
    Join(Shown(keywords), Separator) + Ellipsis
  }

  /** Keywords after the fifth never reach the summary. */
  lemma SummaryIgnoresRest(keywords: seq<string>, more: seq<string>)
    requires |keywords| >= MaxShown
    ensures Summary(keywords + more) == Summary(keywords)
  {
    assert (keywords + more)[..MaxShown] == keywords[..MaxShown];
  }

  /** Each of the first five keywords is shown, after the earlier ones and one
      separator per earlier keyword. */
  lemma SummaryShowsKeyword(keywords: seq<string>, i: nat)
    requires i < |keywords| && i < MaxShown
    ensures OccursAt(Summary(keywords), keywords[i], SumLengths(keywords[..i]) + i * |Separator|)
  {
    var shown := Shown(keywords);
    JoinPartAt(shown, Separator, i);
    assert shown[..i] == keywords[..i];
    assert Summary(keywords)[..|Join(shown, Separator)|] == Join(shown, Separator);
  }

  /** The summary is the shown keywords, the separators between them and the
      ellipsis, nothing more. */
  lemma SummaryLength(keywords: seq<string>)
    ensures var n := |Shown(keywords)|;
            |Summary(keywords)| ==
              (if n == 0 then 0 else SumLengths(keywords[..n]) + (n - 1) * |Separator|) + |Ellipsis|
  {
    var shown := Shown(keywords);
    if |shown| > 0 {
      JoinLength(shown, Separator);
    }
  }

  /** The ellipsis is appended even when there is nothing left out. */
  lemma SummaryOfFewKeywords()
    ensures Summary([]) == Ellipsis
    ensures forall k :: Summary([k]) == k + Ellipsis
  {
  }
}
