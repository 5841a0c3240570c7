/**
 * The parse-with-fallback step of `processTrade` (script.js:49-58): the
 * reply is parsed as JSON directly; when that throws, the first match of
 * the regular expression `/\{[\s\S]*\}/` is parsed instead; when there is
 * no match, the step fails with "Failed to parse AI response as JSON".
 *
 * `JSON.parse` is not specified here: it is the parameter `parse`, whose
 * None stands for a thrown SyntaxError.
 */
module JsonExtract {
  import opened Wrappers

  const OpenBrace: char := '{'
  const CloseBrace: char := '}'

  /** Why extraction failed. */
  datatype ExtractError =
    | SpanSyntaxError  // a brace span was found, but `JSON.parse` threw on it
    | NoJsonFound      // no brace span: "Failed to parse AI response as JSON"

  /** The pattern `\{[\s\S]*\}` matches `s[i..j]`: a `{`, anything, a `}`. */
  ghost predicate PatternMatchesAt(s: string, i: int, j: int)
  {
    0 <= i && i + 2 <= j <= |s| && s[i] == OpenBrace && s[j - 1] == CloseBrace
  }

  /**
   * `s[i..j]` is the match `String.prototype.match` reports for a pattern
   * without the g flag: the leftmost start, and from there the longest
   * match, since `[\s\S]*` is greedy.
   */
  ghost predicate IsReportedMatch(s: string, i: int, j: int)
  {
    && PatternMatchesAt(s, i, j)
    && (forall i', j' :: PatternMatchesAt(s, i', j') ==> i <= i')
    && (forall j' :: PatternMatchesAt(s, i, j') ==> j' <= j)
  }

  /** Index of the first `c` in `s`. */
  function FirstIndex(s: string, c: char): (r: Option<nat>)
    ensures r.None? ==> forall k :: 0 <= k < |s| ==> s[k] != c
    ensures r.Some? ==> r.value < |s| && s[r.value] == c
    ensures r.Some? ==> forall k :: 0 <= k < r.value ==> s[k] != c
  {
    if s == [] then None
    else if s[0] == c then Some(0)
    else
      match FirstIndex(s[1..], c)
      case None => None
      case Some(i) => Some(i + 1)
  }

  /** Index of the last `c` in `s`. */
  function LastIndex(s: string, c: char): (r: Option<nat>)
    ensures r.None? ==> forall k :: 0 <= k < |s| ==> s[k] != c
    ensures r.Some? ==> r.value < |s| && s[r.value] == c
    ensures r.Some? ==> forall k :: r.value < k < |s| ==> s[k] != c
  {
    if s == [] then None
    else if s[|s| - 1] == c then Some(|s| - 1)
    else LastIndex(s[..|s| - 1], c)
  }

  /**
   * Where the regular expression matches: from the first `{` through the
   * last `}`, when that `}` lies after that `{`.
   */
  function MatchSpan(s: string): (r: Option<(nat, nat)>)
    ensures r.Some? ==> IsReportedMatch(s, r.value.0, r.value.1)
    ensures r.None? <==> forall i, j :: !PatternMatchesAt(s, i, j)
  {
    match FirstIndex(s, OpenBrace)
    case None => None
    case Some(i) =>
      match LastIndex(s, CloseBrace)
      case None => None
      case Some(k) =>
        if i < k then Some((i, k + 1))
        else
          None
  }

  /** The text the regular expression matches, if any. */
  function BraceSpan(s: string): (r: Option<string>)
    ensures r.Some? ==> |r.value| >= 2 && r.value[0] == OpenBrace && r.value[|r.value| - 1] == CloseBrace
    ensures r.Some? ==> exists i, j :: IsReportedMatch(s, i, j) && r.value == s[i..j]
    ensures r.None? <==> forall i, j :: !PatternMatchesAt(s, i, j)
  {
    match MatchSpan(s)
    case None => None
    case Some((i, j)) => Some(s[i..j])
  }

  /** The leftmost-longest match is unique, so `BraceSpan` gives the one text `match` reports. */
  lemma ReportedMatchUnique(s: string, i: int, j: int, i': int, j': int)
    requires IsReportedMatch(s, i, j) && IsReportedMatch(s, i', j')
    ensures i == i' && j == j'
  {
    assert i <= i' && i' <= i;
  }

  /**
   * Direct parse first; on failure the brace span; on no span the
   * "Failed to parse AI response as JSON" error.
   */
  function Extract<V>(text: string, parse: string -> Option<V>): (r: Result<V, ExtractError>)
    ensures parse(text).Some? ==> r == Ok(parse(text).value)
    ensures r == Err(NoJsonFound) <==> parse(text).None? && forall i, j :: !PatternMatchesAt(text, i, j)
    ensures r == Err(SpanSyntaxError) <==>
      parse(text).None? && exists i, j :: IsReportedMatch(text, i, j) && parse(text[i..j]).None?
    ensures r.Ok? && parse(text).None? ==>
      exists i, j :: IsReportedMatch(text, i, j) && parse(text[i..j]) == Some(r.value)
  {
    match parse(text)
    case Some(v) => Ok(v)
    case None =>
      match BraceSpan(text)
      case None => Err(NoJsonFound)
      case Some(span) =>
        assert forall i, j :: IsReportedMatch(text, i, j) ==> text[i..j] == span by {
          forall i, j | IsReportedMatch(text, i, j) ensures text[i..j] == span {
            var i', j' :| IsReportedMatch(text, i', j') && span == text[i'..j'];
            ReportedMatchUnique(text, i, j, i', j');
          }
        }
        match parse(span)
        case Some(v) => Ok(v)
        case None => Err(SpanSyntaxError)
  }
}
