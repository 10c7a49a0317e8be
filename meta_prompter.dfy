// The pure helpers of the meta prompter: prompt lookup and the
// assembly of issue prompts and solution listings.

module MetaPrompter {
  import opened Wrappers
  import opened Text
  import opened Json

  /** The two general meta-prompting prompts the meta prompter hands out. */
  datatype GeneralPrompts = GeneralPrompts(feedbackGeneration: string, incorporateFeedback: string)

  /** `return_prompt`: `feedback` and `incorporate` name a prompt; any other type gives `None`. */
  function MetaReturnPrompt(p: GeneralPrompts, typePrompt: string): (r: Option<string>)
    ensures r.Some? <==> typePrompt == "feedback" || typePrompt == "incorporate"
    ensures typePrompt == "feedback" ==> r == Some(p.feedbackGeneration)
    ensures typePrompt == "incorporate" ==> r == Some(p.incorporateFeedback)
  {
    if typePrompt == "feedback" then Some(p.feedbackGeneration)
    else if typePrompt == "incorporate" then Some(p.incorporateFeedback)
    else None
  }

  const ExamplesHeading: string := "## Examples"

  /**
   * `combine_issue_prompt_w_examples`: the extraction prompt from its first
   * `## Examples` heading to the end is appended to the issue prompt after a
   * newline. Without such a heading the failed search yields `None`, whose
   * `.group` is an `AttributeError`.
   */
  function CombineIssuePromptWithExamples(issuePrompt: string, extractingPrompt: string): (r: Result<string>)
    ensures r.Ok? <==> Contains(extractingPrompt, ExamplesHeading)
    ensures r.Err? ==> r.error == AttributeError
    ensures r.Ok? ==> exists i: nat ::
                        && StartsAt(extractingPrompt, i, ExamplesHeading)
                        && (forall j: nat :: j < i ==> !StartsAt(extractingPrompt, j, ExamplesHeading))
                        && r.value == issuePrompt + "\n" + extractingPrompt[i..]
  {
    ContainsIff(extractingPrompt, ExamplesHeading);
    match Find(extractingPrompt, ExamplesHeading, 0)
    case Some(i) => Ok(issuePrompt + "\n" + extractingPrompt[i..])
    case None => Err(AttributeError)
  }

  /** The combined prompt opens with the issue prompt and ends with the examples section. */
  lemma CombinedPromptShape(issuePrompt: string, extractingPrompt: string)
    requires CombineIssuePromptWithExamples(issuePrompt, extractingPrompt).Ok?
    ensures var c := CombineIssuePromptWithExamples(issuePrompt, extractingPrompt).value;
            && c[..|issuePrompt|] == issuePrompt
            && c[|issuePrompt|] == '\n'
            && StartsAt(c, |issuePrompt| + 1, ExamplesHeading)
            && |c| <= |issuePrompt| + 1 + |extractingPrompt|
  {
    var c := CombineIssuePromptWithExamples(issuePrompt, extractingPrompt).value;
    var i: nat :| StartsAt(extractingPrompt, i, ExamplesHeading) && c == issuePrompt + "\n" + extractingPrompt[i..];
    var n := |issuePrompt| + 1;
    assert c[n..n + |ExamplesHeading|] == extractingPrompt[i..i + |ExamplesHeading|];
  }

  const SolutionSeparator: string := "\n\n---\n\n"

  /** Every item is a string, as `str.join` demands. */
  predicate AllStrings(items: seq<Json>)
  {
    forall i :: 0 <= i < |items| ==> items[i].JStr?
  }

  function Strings(items: seq<Json>): (r: seq<string>)
    requires AllStrings(items)
    ensures |r| == |items| && forall i :: 0 <= i < |items| ==> r[i] == items[i].s
  {
    if items == [] then [] else [items[0].s] + Strings(items[1..])
  }

  function Rendered(items: seq<Json>, dumps: Render): (r: seq<string>)
    ensures |r| == |items| && forall i :: 0 <= i < |items| ==> r[i] == dumps(items[i])
  {
    if items == [] then [] else [dumps(items[0])] + Rendered(items[1..], dumps)
  }

  /**
   * `combine_solutions_to_string`: the iterated solutions joined by the
   * separator; for issue handling each is rendered with `json.dumps` first,
   * otherwise every one must already be a string (`TypeError` otherwise, as
   * for a value that cannot be iterated).
   */
  function CombineSolutionsToString(solutions: Json, issueHandling: bool, dumps: Render): (r: Result<string>)
    ensures r.Ok? <==> Iterate(solutions).Ok? && (issueHandling || AllStrings(Iterate(solutions).value))
    ensures r.Err? ==> r.error == TypeError
    ensures r.Ok? && issueHandling ==> r.value == Join(SolutionSeparator, Rendered(Iterate(solutions).value, dumps))
    ensures r.Ok? && !issueHandling ==> r.value == Join(SolutionSeparator, Strings(Iterate(solutions).value))
  {
    var items :- Iterate(solutions);
    if issueHandling then Ok(Join(SolutionSeparator, Rendered(items, dumps)))
    else if AllStrings(items) then Ok(Join(SolutionSeparator, Strings(items)))
    else Err(TypeError)
  }

  /** A single string passed as the solutions is iterated character by character. */
  lemma StringSolutionsInterleave(dumps: Render)
    ensures CombineSolutionsToString(JStr("ab"), false, dumps) == Ok("a" + SolutionSeparator + "b")
  {
    var items := Iterate(JStr("ab")).value;
    assert items == [JStr("a"), JStr("b")];
    assert Strings(items) == ["a", "b"];
  }

  /** One listed string comes back unchanged; joining adds separators only between items. */
  lemma SingleSolutionUnchanged(solution: string, dumps: Render)
    ensures CombineSolutionsToString(JArr([JStr(solution)]), false, dumps) == Ok(solution)
  {
    assert Strings([JStr(solution)]) == [solution];
  }
}
