// The dynamic meta-expert conversation of `MetaExpertConversation` and its
// independent-PII subclass: a phase state machine driven by a queue of
// `{"Next": <step>}` decisions, a per-type "must generate" flag seeded from
// the prompt cache, and the solution lists the phases append to.

module DynamicConversation {
  import opened Wrappers
  import opened Text
  import opened Dicts
  import opened Json
  import opened Llm
  import NextStep
  import PromptCreator
  import IndependentSolutions
  import Utils

  /** The prompt types and the step names the meta expert may choose. */
  const Extracting: string := "extracting"
  const Verifying: string := "verifying"
  const Issue: string := "issue"
  const Verification: string := "verification"
  const IssuesSolving: string := "issues_solving"
  const End: string := "end"

  /** The three kinds of generated prompt, in the order they are loaded. */
  const PromptTypes: seq<string> := [Extracting, Issue, Verifying]
  const PromptTypeSet: set<string> := {Extracting, Issue, Verifying}

  /** The steps `take_next_step` knows besides `end`. */
  const Phases: set<string> := {Extracting, Verification, IssuesSolving}

  /** The three per-type entries of `prompts_generated` and `generate_prompt_dict`. */
  datatype PerType<T> = PerType(extracting: T, issue: T, verifying: T)
  {
    function At(t: string): T
      requires t in PromptTypeSet
    {
      if t == Extracting then extracting else if t == Issue then issue else verifying
    }

    function With(t: string, v: T): (r: PerType<T>)
      requires t in PromptTypeSet
      ensures r.At(t) == v
      ensures forall u :: u in PromptTypeSet && u != t ==> r.At(u) == At(u)
    {
      if t == Extracting then this.(extracting := v)
      else if t == Issue then this.(issue := v)
      else this.(verifying := v)
    }
  }

  function Last<T>(s: seq<T>): T
    requires |s| > 0
  {
    s[|s| - 1]
  }

  /** Occurrences of `w` in `s`. */
  function Count(s: seq<string>, w: string): (r: nat)
    ensures r <= |s|
  {
    if s == [] then 0 else (if s[0] == w then 1 else 0) + Count(s[1..], w)
  }

  lemma {:induction false} CountSnoc(s: seq<string>, x: string, w: string)
    ensures Count(s + [x], w) == Count(s, w) + (if x == w then 1 else 0)
  {
    if s == [] {
      assert [x][1..] == [];
    } else {
      assert (s + [x])[1..] == s[1..] + [x];
      CountSnoc(s[1..], x, w);
    }
  }

  /**
   * Everything outside the controller: the chat endpoint, the JSON codec,
   * the id generator, the feedback prompts, the PII configuration and the
   * renderings of request texts. `extractionText` renders the extraction
   * request for the PII's entry and description, `verificationRequest` the
   * request for one solution and the description, `issueRequest` the
   * request for the correct and the wrong solutions and the description;
   * the text and the PII's name they embed are fixed for a conversation.
   */
  datatype Services = Services(
    chat: Chat,
    loads: Loads,
    dumps: Render,
    uuid: IndependentSolutions.Uuids,
    feedback: PromptCreator.Prompts,
    yml: Json,
    describe: Json -> string,
    createPrompt: (Json, string) -> string,
    extractionText: (Json, Json) -> string,
    verificationRequest: (Json, Json) -> string,
    issueRequest: (Dict<Json>, Dict<Json>, Json) -> string,
    metaExpertPrompt: string,
    metaExpertNextStepPrompt: string,
    nextInstructionMetaPrompt: string,
    nextStepMetaPrompt: string)

  // ---------------------------------------------------------------------
  // Prompt refinement and the two broken call sites

  /**
   * `final` is what `process_feedback_loop` makes of `created`: itself
   * without refinement, otherwise the last improved prompt of a finished
   * feedback run.
   */
  ghost predicate RefinementOf(s: Services, refine: bool, created: string, final: string)
  {
    && (!refine ==> final == created)
    && (refine ==> exists responses :: PromptCreator.FeedbackRun(s.chat, s.feedback, created, responses)
                                       && final == responses[|responses| - 2])
  }

  /** Python's `a, b = s` on a string: the two characters, or `ValueError` for any other length. */
  function UnpackPair(s: string): (r: Result<(string, string)>)
    ensures r.Ok? <==> |s| == 2
    ensures r.Ok? ==> r.value.0 + r.value.1 == s && |r.value.0| == 1
    ensures r.Err? ==> r.error == ValueError
  {
    if |s| == 2 then Ok(([s[0]], [s[1]])) else Err(ValueError)
  }

  /**
   * `create_verifying_prompt` as written: the string returned by
   * `process_feedback_loop` is unpacked into two names, so the stored prompt
   * is its first character when it has exactly two, and any other refined
   * prompt raises `ValueError`.
   */
  function VerifyingPromptAsWritten(created: string, refined: string, refine: bool): (r: Result<string>)
    ensures !refine ==> r == Ok(created)
    ensures refine ==> (r.Err? <==> |refined| != 2)
  {
    if !refine then Ok(created)
    else
      var pair :- UnpackPair(refined);
      Ok(pair.0)
  }

  /** With refinement on, the prompt as written never keeps the refined prompt. */
  lemma VerifyingPromptAsWrittenLosesRefinement(created: string, refined: string)
    ensures VerifyingPromptAsWritten(created, refined, true) != Ok(refined)
    ensures |refined| != 2 ==> VerifyingPromptAsWritten(created, refined, true) == Err(ValueError)
  {
  }

  /** A refined prompt of ordinary length, for the record: the unpacking fails. */
  lemma VerifyingPromptAsWrittenExample()
    ensures VerifyingPromptAsWritten("Check the names.", "Check every name.", true) == Err(ValueError)
  {
  }

  /**
   * `create_issue_prompt` as written: `process_feedback_loop` is called with
   * the keyword `generated_prompt`, which it does not have, so refinement
   * always ends in `TypeError` before any request is sent.
   */
  function IssuePromptAsWritten(created: string, refine: bool): (r: Result<string>)
    ensures r.Ok? <==> !refine
    ensures r.Ok? ==> r.value == created
    ensures r.Err? ==> r.error == TypeError
  {
    if refine then Err(TypeError) else Ok(created)
  }

  // ---------------------------------------------------------------------
  // Texts built for the meta expert

  /** `str.replace(old, x)` needs a string `x`; any other value is a `TypeError`. */
  function ReplacementText(v: Json): (r: Result<string>)
    ensures r.Ok? <==> v.JStr?
    ensures r.Ok? ==> r.value == v.s
    ensures r.Err? ==> r.error == TypeError
  {
    if v.JStr? then Ok(v.s) else Err(TypeError)
  }

  const InstructionHead: string := "{\"job description\": "

  /**
   * `utils.extract_instruction`: the lazy match of `\{"job description": .*?\}`
   * is the first head followed by a `}`, up to that `}`; it is decoded. Without
   * a match the function returns `None`.
   */
  function ExtractInstruction(text: string, loads: Loads): (r: Result<Json>)
    ensures r.Err? ==> r.error == JsonDecodeError
    ensures Find(text, InstructionHead, 0).None? ==> r == Ok(JNull)
  {
    match Find(text, InstructionHead, 0)
    case None => Ok(JNull)
    case Some(i) =>
      match Find(text, "}", i + |InstructionHead|)
      case None => Ok(JNull)
      case Some(j) => Decode(loads, text[i..j + 1])
  }

  /**
   * The expert named in the meta expert's last message: its decoded
   * `job description`; a missing key falls back to
   * `["Instructions"]["job description"]`; a value that cannot be indexed by
   * a string falls back to `extract_instruction`. A decode error is not caught.
   */
  function Expert(content: string, loads: Loads): (r: Result<string>)
    ensures loads(content).None? ==> r == Err(JsonDecodeError)
    ensures loads(content).Some? && Subscript(loads(content).value, "job description").Ok? ==>
              r == ReplacementText(Subscript(loads(content).value, "job description").value)
    ensures r.Ok? && loads(content).Some? && !loads(content).value.JObj? ==>
              ExtractInstruction(content, loads) == Ok(JStr(r.value))
    ensures r.Ok? && loads(content).Some? && loads(content).value.JObj? ==>
              (var p := loads(content).value;
               || Subscript(p, "job description") == Ok(JStr(r.value))
               || (&& Subscript(p, "job description") == Err(KeyError) && Subscript(p, "Instructions").Ok?
                   && Subscript(Subscript(p, "Instructions").value, "job description") == Ok(JStr(r.value))))
  {
    var parsed :- Decode(loads, content);
    match Subscript(parsed, "job description")
    case Ok(v) => ReplacementText(v)
    case Err(e) =>
      if e == KeyError then
        var inner :- Subscript(parsed, "Instructions");
        var v :- Subscript(inner, "job description");
        ReplacementText(v)
      else
        var v :- ExtractInstruction(content, loads);
        ReplacementText(v)
  }

  /** The next-instruction prompt: the three placeholders replaced in turn. */
  function NextInstruction(template: string, expert: string, previousStep: string, response: string): string
  {
    ReplaceAll(ReplaceAll(ReplaceAll(template, "{{expert}}", expert), "{{previous_step}}", previousStep), "{{response}}", response)
  }

  /** A replacement whose pattern does not occur leaves the text as it is. */
  lemma ReplaceAbsent(s: string, pat: string, rep: string)
    requires |pat| > 0 && !Contains(s, pat)
    ensures ReplaceAll(s, pat, rep) == s
  {
  }

  /** A template without placeholders is sent as it is. */
  lemma NextInstructionPlain(template: string, expert: string, previousStep: string, response: string)
    requires !Contains(template, "{{expert}}") && !Contains(template, "{{previous_step}}") && !Contains(template, "{{response}}")
    ensures NextInstruction(template, expert, previousStep, response) == template
  {
    ReplaceAbsent(template, "{{expert}}", expert);
    ReplaceAbsent(template, "{{previous_step}}", previousStep);
    ReplaceAbsent(template, "{{response}}", response);
  }

  const ResponseOpen: string := "<response>"
  const ResponseClose: string := "</response>"

  /**
   * `re.search(r"<response>(.*?)</response>", text, re.DOTALL).group(1)`:
   * the text between the first opening tag and the first closing tag after it.
   */
  function ResponseTag(text: string): (r: Option<string>)
    ensures r.Some? ==> exists i: nat, j: nat ::
                          && Find(text, ResponseOpen, 0) == Some(i)
                          && Find(text, ResponseClose, i + |ResponseOpen|) == Some(j)
                          && r.value == text[i + |ResponseOpen|..j]
    ensures r.None? <==> (Find(text, ResponseOpen, 0).None?
                          || Find(text, ResponseClose, Find(text, ResponseOpen, 0).value + |ResponseOpen|).None?)
  {
    match Find(text, ResponseOpen, 0)
    case None => None
    case Some(i) =>
      match Find(text, ResponseClose, i + |ResponseOpen|)
      case None => None
      case Some(j) => Some(text[i + |ResponseOpen|..j])
  }

  /**
   * `construct_last_step`: the tagged response of the last message put into
   * the next-step prompt. Without a tag `response` is never bound and the
   * replacement raises `UnboundLocalError`.
   */
  function ConstructLastStep(template: string, previousStep: string, lastContent: string): (r: Result<string>)
    ensures r.Ok? <==> ResponseTag(lastContent).Some?
    ensures r.Err? ==> r.error == UnboundLocalError
    ensures r.Ok? ==> r.value == ReplaceAll(ReplaceAll(template, "{{previous_step}}", previousStep),
                                            "{{response}}", ResponseTag(lastContent).value)
  {
    match ResponseTag(lastContent)
    case None => Err(UnboundLocalError)
    case Some(response) => Ok(ReplaceAll(ReplaceAll(template, "{{previous_step}}", previousStep), "{{response}}", response))
  }

  /**
   * `create_next_step`: the next-step prompt is sent alone to the meta expert
   * with its next-step system prompt, and the `{"Next": ...}` token of the
   * reply decoded.
   */
  function NextDecision(s: Services, previousStep: string, lastContent: string): (r: Result<string>)
    ensures r.Ok? ==> |r.value| > 0 && forall m :: 0 <= m < |r.value| ==> IsWordChar(r.value[m])
    ensures ConstructLastStep(s.nextStepMetaPrompt, previousStep, lastContent).Err? ==> r == Err(UnboundLocalError)
  {
    var userPrompt :- ConstructLastStep(s.nextStepMetaPrompt, previousStep, lastContent);
    NextStep.DecideNextStep(s.chat(Request(s.metaExpertNextStepPrompt, [User(userPrompt)])))
  }

  /**
   * `end_conversation`: `{}` when no verification ran; otherwise the last
   * proposal decoded, a list kept as it is and a dict turned into a list of
   * one-entry dicts.
   */
  function EndConversation(verifySolutions: seq<string>, proposedSolutions: seq<string>, loads: Loads): (r: Result<Json>)
    ensures verifySolutions == [] ==> r == Ok(JObj([]))
    ensures verifySolutions != [] && proposedSolutions == [] ==> r == Err(IndexError)
    ensures verifySolutions != [] && proposedSolutions != [] ==>
              match loads(Last(proposedSolutions))
              case None => r == Err(JsonDecodeError)
              case Some(p) =>
                && (p.JArr? ==> r == Ok(p))
                && (p.JObj? ==> r.Ok? && r.value.JArr? && |r.value.items| == |p.fields|
                                && forall i :: 0 <= i < |p.fields| ==> r.value.items[i] == Single(p.fields[i].0, p.fields[i].1))
                && (!p.JArr? && !p.JObj? ==> r == Err(AttributeError))
  {
    if verifySolutions == [] then Ok(JObj([]))
    else if proposedSolutions == [] then Err(IndexError)
    else
      var last :- Decode(loads, Last(proposedSolutions));
      var listed :- IndependentSolutions.Listed(last);
      Ok(JArr(listed))
  }

  /**
   * The flattened result holds the proposal's entries in order: reading the
   * first entry of each one-entry dict back gives the proposal's dict.
   */
  lemma EndConversationKeepsEntries(verifySolutions: seq<string>, proposedSolutions: seq<string>, loads: Loads)
    requires verifySolutions != [] && proposedSolutions != []
    requires loads(Last(proposedSolutions)).Some? && loads(Last(proposedSolutions)).value.JObj?
    ensures var fields := loads(Last(proposedSolutions)).value.fields;
            var r := EndConversation(verifySolutions, proposedSolutions, loads);
            && r.Ok? && r.value.JArr?
            && seq(|r.value.items|, i requires 0 <= i < |r.value.items| =>
                 if r.value.items[i].JObj? && |r.value.items[i].fields| > 0 then r.value.items[i].fields[0] else ("", JNull))
               == fields
  {
  }

  // ---------------------------------------------------------------------
  // The agent calls the controller makes

  /** A tagged solution table as `add_uuid_to_solution` returns it: a list of one-entry dicts. */
  function Listing(d: Dict<Json>): (r: seq<Json>)
    ensures |r| == |d|
    ensures forall i :: 0 <= i < |d| ==> r[i] == Single(d[i].0, d[i].1)
  {
    seq(|d|, i requires 0 <= i < |d| => Single(d[i].0, d[i].1))
  }

  /** Reading a listing back as the end of the conversation does gives the listing itself. */
  lemma ListingListed(d: Dict<Json>)
    ensures IndependentSolutions.Listed(JArr(Listing(d))) == Ok(Listing(d))
  {
  }

  /**
   * `start_meta_expert`: the PII's entry is described to the meta expert,
   * and the JSON of its reply is returned with the description.
   */
  function StartMetaExpert(s: Services, pii: string): (r: Result<(Json, string)>)
    ensures r.Ok? <==> Utils.GetPropertyInformation(s.yml, pii).Ok?
                       && ExtractJsonFromResponse(s.chat(Request(s.metaExpertPrompt,
                            [User(s.describe(Utils.GetPropertyInformation(s.yml, pii).value))])), s.loads).Ok?
    ensures r.Err? ==> r.error in {KeyError, TypeError, JsonDecodeError}
    ensures r.Ok? ==> r.value.1 == s.describe(Single(pii, Subscript(s.yml, pii).value))
  {
    var info :- Utils.GetPropertyInformation(s.yml, pii);
    var userPrompt := s.describe(info);
    var extracted :- ExtractJsonFromResponse(s.chat(Request(s.metaExpertPrompt, [User(userPrompt)])), s.loads);
    Ok((AsJson(extracted), userPrompt))
  }

  /**
   * `extract_with_prompt` of the independent agent: the text and the PII's
   * entry and description are sent with the generated prompt, and the JSON
   * of the reply is returned rendered.
   */
  function ExtractWithPrompt(s: Services, pii: string, prompt: string): (r: Result<string>)
    ensures Utils.GetPropertyInformation(s.yml, pii).Err? ==> r == Err(Utils.GetPropertyInformation(s.yml, pii).error)
    ensures Utils.GetPropertyInformation(s.yml, pii).Ok? && Subscript(Subscript(s.yml, pii).value, "description").Err? ==>
              r == Err(Subscript(Subscript(s.yml, pii).value, "description").error)
    ensures r.Err? ==> r.error in {KeyError, TypeError, JsonDecodeError}
    ensures r.Ok? ==> exists v :: r.value == s.dumps(v)
  {
    var info :- Utils.GetPropertyInformation(s.yml, pii);
    var entry := info.fields[0].1;
    var description :- Subscript(entry, "description");
    var extracted :- ExtractJsonFromResponse(s.chat(Request(prompt, [User(s.extractionText(entry, description))])), s.loads);
    Ok(s.dumps(AsJson(extracted)))
  }

  /** `get_property_information(...)[pii]["description"]`: the PII's description from the configuration. */
  function Description(s: Services, pii: string): (r: Result<Json>)
    ensures Utils.GetPropertyInformation(s.yml, pii).Err? ==> r == Err(Utils.GetPropertyInformation(s.yml, pii).error)
    ensures Utils.GetPropertyInformation(s.yml, pii).Ok? ==> r == Subscript(Subscript(s.yml, pii).value, "description")
  {
    var info :- Utils.GetPropertyInformation(s.yml, pii);
    Subscript(info.fields[0].1, "description")
  }

  /** The verification agent's reply to one solution. */
  function VerificationReply(s: Services, prompt: string, solution: Json, description: Json): string
  {
    s.chat(Request(prompt, [User(s.verificationRequest(solution, description))]))
  }

  /**
   * The replies `send_solutions_for_verification` gathers: the proposal is
   * decoded and every solution it iterates to is sent on its own request,
   * the replies kept in the order of the solutions.
   */
  function VerificationReplies(s: Services, prompt: string, proposal: string, description: Json): (r: Result<seq<string>>)
    ensures Decode(s.loads, proposal).Err? ==> r == Err(JsonDecodeError)
    ensures Decode(s.loads, proposal).Ok? ==> (r.Ok? <==> Iterate(Decode(s.loads, proposal).value).Ok?)
    ensures r.Ok? ==> var solutions := Iterate(Decode(s.loads, proposal).value).value;
                      && |r.value| == |solutions|
                      && forall i :: 0 <= i < |solutions| ==> r.value[i] == VerificationReply(s, prompt, solutions[i], description)
  {
    var decoded :- Decode(s.loads, proposal);
    var solutions :- Iterate(decoded);
    Ok(seq(|solutions|, i requires 0 <= i < |solutions| => VerificationReply(s, prompt, solutions[i], description)))
  }

  /** `send_solutions_for_verification`: one request per solution of the proposal, in order. */
  method SendSolutionsForVerification(s: Services, prompt: string, proposal: string, description: Json)
    returns (r: Result<seq<string>>)
    ensures r == VerificationReplies(s, prompt, proposal, description)
  {
    var decoded :- Decode(s.loads, proposal);
    var solutions :- Iterate(decoded);
    var replies: seq<string> := [];
    for i := 0 to |solutions|
      invariant |replies| == i
      invariant forall j :: 0 <= j < i ==> replies[j] == VerificationReply(s, prompt, solutions[j], description)
    {
      var reply := SendPrompt(s.chat, prompt, [User(s.verificationRequest(solutions[i], description))]);
      replies := replies + [reply];
    }
    assert replies == VerificationReplies(s, prompt, proposal, description).value;
    r := Ok(replies);
  }

  /**
   * The verdict table `verify_solution` records: the last proposal's
   * solutions are sent with the last verifying prompt, and the replies
   * merged and annotated from the proposal. The configuration is read
   * before the proposal list is indexed.
   */
  function VerificationOutcome(s: Services, pii: string, prompts: seq<string>, proposals: seq<string>): (r: Result<Dict<Json>>)
    requires |prompts| > 0
    ensures Utils.GetPropertyInformation(s.yml, pii).Err? ==> r == Err(Utils.GetPropertyInformation(s.yml, pii).error)
    ensures Utils.GetPropertyInformation(s.yml, pii).Ok? && proposals == [] ==> r == Err(IndexError)
    ensures proposals != [] && Description(s, pii).Ok? && Decode(s.loads, Last(proposals)).Err? ==> r == Err(JsonDecodeError)
  {
    var info :- Utils.GetPropertyInformation(s.yml, pii);
    if proposals == [] then Err(IndexError)
    else
      var description :- Subscript(info.fields[0].1, "description");
      var replies :- VerificationReplies(s, Last(prompts), Last(proposals), description);
      var unverified := Decode(s.loads, Last(proposals)).value;
      IndependentSolutions.ProcessedVerdicts(replies, unverified, s.loads)
  }

  /**
   * The steps of `verify_solution` between the prompt and the record: the
   * description is read, the last proposal's solutions sent for
   * verification and the replies processed into the verdict table.
   */
  method VerifyProposal(s: Services, pii: string, prompts: seq<string>, proposals: seq<string>) returns (r: Result<Dict<Json>>)
    requires |prompts| > 0
    ensures r == VerificationOutcome(s, pii, prompts, proposals)
  {
    var info :- Utils.GetPropertyInformation(s.yml, pii);
    var entry := info.fields[0].1;
    if proposals == [] {
      return Err(IndexError);
    }
    var description :- Subscript(entry, "description");
    var results :- SendSolutionsForVerification(s, Last(prompts), Last(proposals), description);
    var unverified := Decode(s.loads, Last(proposals)).value;
    r := IndependentSolutions.ProcessVerificationResults(results, unverified, s.loads);
  }

  /** The issue agent's reply to the correct and the wrong solutions. */
  function IssueReply(s: Services, prompt: string, correct: Dict<Json>, wrong: Dict<Json>, description: Json): string
  {
    s.chat(Request(prompt, [User(s.issueRequest(correct, wrong, description))]))
  }

  /**
   * `proposal` is what `solve_issues` makes of the last verdicts: they are a
   * table of judged entries, and for a proper table the issue agent's reply
   * to its correct and wrong sides, tagged from the id `next` on, merged
   * with the correct side gives `proposal`.
   */
  ghost predicate IssueSolved(s: Services, pii: string, prompt: string, verifySolutions: seq<string>, next: nat, proposal: Dict<Json>)
  {
    && verifySolutions != [] && Decode(s.loads, Last(verifySolutions)).Ok?
    && Decode(s.loads, Last(verifySolutions)).value.JObj?
    && Description(s, pii).Ok?
    && var entries := Decode(s.loads, Last(verifySolutions)).value.fields;
       && IndependentSolutions.AllJudged(entries)
       && (Wf(entries) ==>
             var correct := IndependentSolutions.WithVerdict(entries, true);
             var wrong := IndependentSolutions.WithVerdict(entries, false);
             IndependentSolutions.IssueSolutions(IssueReply(s, prompt, correct, wrong, Description(s, pii).value),
                                                 correct, s.loads, s.uuid, next) == Ok(proposal))
  }

  /**
   * A solved proposal keeps every solution the verdicts judged correct,
   * without its `bool` field, and no value in it has a `bool` field.
   */
  lemma IssueSolvedKeepsCorrect(s: Services, pii: string, prompt: string, verifySolutions: seq<string>, next: nat,
                                proposal: Dict<Json>, k: string)
    requires IssueSolved(s, pii, prompt, verifySolutions, next, proposal)
    requires Wf(Decode(s.loads, Last(verifySolutions)).value.fields)
    ensures var entries := Decode(s.loads, Last(verifySolutions)).value.fields;
            && Wf(proposal)
            && (HasKey(entries, k) && IndependentSolutions.IsCorrect(Get(entries, k).value) ==>
                  Get(proposal, k) == Some(IndependentSolutions.Unflagged(Get(entries, k).value)))
            && (Get(proposal, k).Some? ==> Get(proposal, k).value.JObj? && !HasKey(Get(proposal, k).value.fields, BoolKey))
  {
    var entries := Decode(s.loads, Last(verifySolutions)).value.fields;
    var correct := IndependentSolutions.WithVerdict(entries, true);
    var wrong := IndependentSolutions.WithVerdict(entries, false);
    var reply := IssueReply(s, prompt, correct, wrong, Description(s, pii).value);
    IndependentSolutions.IssueSolutionsTable(reply, correct, s.loads, s.uuid, next, k);
    IndependentSolutions.WithVerdictGet(entries, true, k);
    if HasKey(entries, k) && IndependentSolutions.IsCorrect(Get(entries, k).value) {
      IndependentSolutions.WithVerdictCovers(entries, k);
      if HasKey(wrong, k) {
        IndependentSolutions.WithVerdictAgrees(entries, false, k);
      }
    }
  }

  /**
   * `solve_issues` once the issue prompt exists: the last verdicts are
   * split into correct and wrong solutions, the PII's description looked
   * up, the issue request sent, and the reply's solutions tagged with fresh
   * ids and merged with the correct ones; `drawn` ids are used.
   */
  method SolveIssuesFor(s: Services, pii: string, prompt: string, verifySolutions: seq<string>, next: nat)
    returns (r: Result<Dict<Json>>, drawn: nat)
    ensures verifySolutions == [] ==> r == Err(IndexError)
    ensures verifySolutions != [] && Decode(s.loads, Last(verifySolutions)).Err? ==> r == Err(JsonDecodeError)
    ensures r.Ok? ==> IssueSolved(s, pii, prompt, verifySolutions, next, r.value)
  {
    drawn := 0;
    if verifySolutions == [] {
      r := Err(IndexError);
      return;
    }
    var parts :- IndependentSolutions.CategorizeSolutions(Last(verifySolutions), s.loads);
    var description :- Description(s, pii);
    var reply := SendPrompt(s.chat, prompt, [User(s.issueRequest(parts.0, parts.1, description))]);
    r, drawn := IndependentSolutions.SendIssuePrompt(reply, parts.0, s.loads, s.uuid, next);
  }

  // ---------------------------------------------------------------------
  // The controller

  /** The cached prompt of one type, when the cache was read and holds its file. */
  function CachedPrompt(cache: map<string, string>, path: string, loaded: bool): (r: seq<string>)
    ensures |r| <= 1
    ensures |r| == 1 <==> loaded && path in cache
  {
    if loaded && path in cache then [cache[path]] else []
  }

  class Conversation {
    const services: Services
    const pii: string
    const refinePrompts: bool
    var generateNewPrompt: bool
    var conversation: seq<Message>
    var responses: seq<string>
    var stepQueue: seq<string>
    var proposedSolutions: seq<string>
    var verifySolutions: seq<string>
    var generatedPrompts: PerType<seq<string>>
    var toGenerate: PerType<bool>
    /** How many ids the generator has handed out. */
    var idsDrawn: nat

    /**
     * Every prompt type is either still to be generated or has a prompt, and
     * once the conversation has started an extraction prompt exists.
     */
    predicate Valid()
      reads this
    {
      && (toGenerate.extracting || |generatedPrompts.extracting| > 0)
      && (toGenerate.issue || |generatedPrompts.issue| > 0)
      && (toGenerate.verifying || |generatedPrompts.verifying| > 0)
      && (|stepQueue| > 0 ==> |generatedPrompts.extracting| > 0)
    }

    /** The cache file of prompt type `t`. */
    function CacheFile(folder: string, category: string, t: string): string
    {
      Utils.CachePath(folder, category, pii, t, "md")
    }

    /**
     * `__init__`: with `generate_new_prompt` every flag is set; otherwise
     * the cached prompts are loaded and a flag is set exactly for a type
     * whose file is missing. `cache` maps the readable files to their text.
     */
    constructor (services: Services, folder: string, category: string, pii: string,
                 generateNewPrompt: bool, refinePrompts: bool, cache: map<string, string>)
      ensures Valid()
      ensures this.services == services && this.pii == pii && this.refinePrompts == refinePrompts
      ensures this.generateNewPrompt == generateNewPrompt
      ensures conversation == [] && responses == [] && stepQueue == []
      ensures proposedSolutions == [] && verifySolutions == [] && idsDrawn == 0
      ensures toGenerate == PerType(generateNewPrompt || CacheFile(folder, category, Extracting) !in cache,
                                    generateNewPrompt || CacheFile(folder, category, Issue) !in cache,
                                    generateNewPrompt || CacheFile(folder, category, Verifying) !in cache)
      ensures generatedPrompts == PerType(CachedPrompt(cache, CacheFile(folder, category, Extracting), !generateNewPrompt),
                                          CachedPrompt(cache, CacheFile(folder, category, Issue), !generateNewPrompt),
                                          CachedPrompt(cache, CacheFile(folder, category, Verifying), !generateNewPrompt))
    {
      this.services := services;
      this.pii := pii;
      this.refinePrompts := refinePrompts;
      this.generateNewPrompt := generateNewPrompt;
      conversation := [];
      responses := [];
      stepQueue := [];
      proposedSolutions := [];
      verifySolutions := [];
      idsDrawn := 0;
      generatedPrompts := PerType([], [], []);
      toGenerate := PerType(generateNewPrompt, generateNewPrompt, generateNewPrompt);
      new;
      if !generateNewPrompt {
        LoadGeneratedPrompts(folder, category, cache);
      }
    }

    /**
     * `load_generated_prompts`: each cached prompt file that can be read is
     * appended to its type's prompts; an unreadable one sets its flag.
     */
    method LoadGeneratedPrompts(folder: string, category: string, cache: map<string, string>)
      requires toGenerate == PerType(false, false, false) && generatedPrompts == PerType([], [], [])
      modifies this`toGenerate, this`generatedPrompts
      ensures toGenerate == PerType(CacheFile(folder, category, Extracting) !in cache,
                                    CacheFile(folder, category, Issue) !in cache,
                                    CacheFile(folder, category, Verifying) !in cache)
      ensures generatedPrompts == PerType(CachedPrompt(cache, CacheFile(folder, category, Extracting), true),
                                          CachedPrompt(cache, CacheFile(folder, category, Issue), true),
                                          CachedPrompt(cache, CacheFile(folder, category, Verifying), true))
    {
      var p0, p1, p2 := CacheFile(folder, category, Extracting), CacheFile(folder, category, Issue), CacheFile(folder, category, Verifying);
      var i := 0;
      while i < |PromptTypes|
        invariant 0 <= i <= |PromptTypes|
        invariant toGenerate == PerType(i > 0 && p0 !in cache, i > 1 && p1 !in cache, i > 2 && p2 !in cache)
        invariant generatedPrompts == PerType(CachedPrompt(cache, p0, i > 0), CachedPrompt(cache, p1, i > 1), CachedPrompt(cache, p2, i > 2))
      {
        var t := PromptTypes[i];
        var path := CacheFile(folder, category, t);
        if path in cache {
          assert generatedPrompts.At(t) + [cache[path]] == CachedPrompt(cache, path, true);
          generatedPrompts := generatedPrompts.With(t, generatedPrompts.At(t) + [cache[path]]);
        } else {
          toGenerate := toGenerate.With(t, true);
        }
        i := i + 1;
      }
    }

    /**
     * `add_next_step_meta_to_conversation`: the next-instruction prompt,
     * naming the expert of the last message, the step just taken and its
     * response, joins the conversation as a user message.
     */
    method AddNextStepMeta(response: string) returns (r: Result<()>)
      requires |stepQueue| > 0
      modifies this`conversation
      ensures r.Ok? <==> old(conversation) != [] && Expert(Last(old(conversation)).content, services.loads).Ok?
      ensures r.Err? ==> conversation == old(conversation)
      ensures r.Ok? ==> conversation == old(conversation) + [User(NextInstruction(services.nextInstructionMetaPrompt,
                          Expert(Last(old(conversation)).content, services.loads).value, Last(stepQueue), response))]
    {
      if conversation == [] {
        return Err(IndexError);
      }
      var expert :- Expert(Last(conversation).content, services.loads);
      var prompt := NextInstruction(services.nextInstructionMetaPrompt, expert, Last(stepQueue), response);
      conversation := conversation + [User(prompt)];
      r := Ok(());
    }

    /**
     * The first half of `start_conversation`: the meta expert's first
     * instructions are obtained and the description and the instructions
     * join the conversation.
     */
    method OpenConversation() returns (r: Result<Json>)
      modifies this`conversation
      ensures r.Ok? <==> StartMetaExpert(services, pii).Ok?
      ensures r.Err? ==> conversation == old(conversation)
      ensures r.Ok? ==> && r.value == StartMetaExpert(services, pii).value.0
                        && conversation == old(conversation) + [User(services.dumps(JStr(StartMetaExpert(services, pii).value.1))),
                                                                Assistant(services.dumps(r.value))]
    {
      var started :- StartMetaExpert(services, pii);
      conversation := conversation + [User(services.dumps(JStr(started.1)))];
      conversation := conversation + [Assistant(services.dumps(started.0))];
      r := Ok(started.0);
    }

    /**
     * A prompt of type `t` is generated from `instructions`, refined when
     * refinement is on, and appended to the type's prompts.
     */
    method AddGeneratedPrompt(t: string, instructions: Json) returns (prompt: string)
      requires Valid() && t in PromptTypeSet
      modifies this`generatedPrompts
      ensures Valid()
      ensures generatedPrompts.At(t) == old(generatedPrompts.At(t)) + [prompt]
      ensures forall u :: u in PromptTypeSet && u != t ==> generatedPrompts.At(u) == old(generatedPrompts.At(u))
      ensures RefinementOf(services, refinePrompts, services.createPrompt(instructions, t), prompt)
    {
      var created := services.createPrompt(instructions, t);
      ghost var responses;
      prompt, responses := PromptCreator.ProcessFeedbackLoop(services.chat, services.feedback, refinePrompts, created);
      generatedPrompts := generatedPrompts.With(t, generatedPrompts.At(t) + [prompt]);
    }

    /**
     * `start_conversation`: the conversation is opened, the extraction
     * prompt generated when its flag is set, and `extracting` queued.
     */
    method StartConversation() returns (r: Result<()>)
      requires Valid()
      modifies this`conversation, this`generatedPrompts, this`stepQueue
      ensures Valid()
      ensures r.Ok? ==> stepQueue == old(stepQueue) + [Extracting]
      ensures r.Ok? ==> |conversation| == old(|conversation|) + 2 && conversation[..old(|conversation|)] == old(conversation)
      ensures r.Ok? ==> |generatedPrompts.extracting| == old(|generatedPrompts.extracting|) + (if toGenerate.extracting then 1 else 0)
      ensures r.Err? ==> stepQueue == old(stepQueue)
      ensures generatedPrompts.issue == old(generatedPrompts.issue) && generatedPrompts.verifying == old(generatedPrompts.verifying)
    {
      var instructions :- OpenConversation();
      if toGenerate.extracting {
        var prompt := AddGeneratedPrompt(Extracting, instructions);
      }
      stepQueue := stepQueue + [Extracting];
      r := Ok(());
    }

    /**
     * The extraction half of `run_prompt("extracting")`: the reply to the
     * last extraction prompt is kept as a response, and its solutions,
     * tagged with fresh ids, become a new proposal.
     */
    method RecordExtraction() returns (r: Result<Dict<Json>>)
      requires |generatedPrompts.extracting| > 0
      modifies this`responses, this`proposedSolutions, this`idsDrawn
      ensures ExtractWithPrompt(services, pii, Last(generatedPrompts.extracting)).Err? ==>
                r.Err? && responses == old(responses) && proposedSolutions == old(proposedSolutions)
      ensures r.Ok? ==> && ExtractWithPrompt(services, pii, Last(generatedPrompts.extracting)).Ok?
                        && responses == old(responses) + [ExtractWithPrompt(services, pii, Last(generatedPrompts.extracting)).value]
      ensures r.Ok? ==> && proposedSolutions == old(proposedSolutions) + [services.dumps(JArr(Listing(r.value)))]
                        && idsDrawn == old(idsDrawn) + |r.value|
      ensures r.Ok? ==> && Decode(services.loads, Last(responses)).Ok?
                        && IndependentSolutions.SolutionItems(Decode(services.loads, Last(responses)).value).Ok?
                        && r.value == IndependentSolutions.FreshlyTagged(
                             IndependentSolutions.SolutionItems(Decode(services.loads, Last(responses)).value).value,
                             services.uuid, old(idsDrawn))
    {
      var response :- ExtractWithPrompt(services, pii, Last(generatedPrompts.extracting));
      responses := responses + [response];
      var decoded :- Decode(services.loads, response);
      var tagged :- IndependentSolutions.AddUuidToSolution(decoded, services.uuid, idsDrawn);
      idsDrawn := idsDrawn + |tagged|;
      proposedSolutions := proposedSolutions + [services.dumps(JArr(Listing(tagged)))];
      r := Ok(tagged);
    }

    /** `run_prompt("extracting")`: the extraction is recorded and the meta expert told about its response. */
    method RunExtraction() returns (r: Result<()>)
      requires Valid() && |stepQueue| > 0
      modifies this`responses, this`proposedSolutions, this`idsDrawn, this`conversation
      ensures Valid()
      ensures r.Ok? ==> |responses| == old(|responses|) + 1 && responses[..old(|responses|)] == old(responses)
      ensures r.Ok? ==> |proposedSolutions| == old(|proposedSolutions|) + 1 && proposedSolutions[..old(|proposedSolutions|)] == old(proposedSolutions)
      ensures r.Ok? ==> |conversation| == old(|conversation|) + 1 && conversation[..old(|conversation|)] == old(conversation)
    {
      var recorded :- RecordExtraction();
      r := AddNextStepMeta(Last(responses));
    }

    /**
     * `create_verifying_prompt` and `create_issue_prompt`, corrected: the
     * meta expert's last message is decoded as the instructions, and a
     * prompt of type `t` generated and refined from it.
     */
    method CreatePromptFromConversation(t: string) returns (r: Result<()>)
      requires Valid() && t in {Verifying, Issue}
      modifies this`generatedPrompts
      ensures Valid()
      ensures r.Ok? <==> conversation != [] && services.loads(Last(conversation).content).Some?
      ensures r.Err? ==> generatedPrompts == old(generatedPrompts)
      ensures r.Ok? ==> && |generatedPrompts.At(t)| == old(|generatedPrompts.At(t)|) + 1
                        && generatedPrompts.At(t)[..old(|generatedPrompts.At(t)|)] == old(generatedPrompts.At(t))
                        && RefinementOf(services, refinePrompts,
                                        services.createPrompt(services.loads(Last(conversation).content).value, t),
                                        Last(generatedPrompts.At(t)))
      ensures forall u :: u in PromptTypeSet && u != t ==> generatedPrompts.At(u) == old(generatedPrompts.At(u))
    {
      if conversation == [] {
        return Err(IndexError);
      }
      var instructions :- Decode(services.loads, Last(conversation).content);
      var prompt := AddGeneratedPrompt(t, instructions);
      r := Ok(());
    }

    /**
     * The opening of `verify_solution` and `solve_issues`: the prompt of
     * type `t` is generated from the conversation when its flag is set, so
     * that afterwards one exists.
     */
    method GenerateIfFlagged(t: string) returns (r: Result<()>)
      requires Valid() && t in {Verifying, Issue}
      modifies this`generatedPrompts
      ensures Valid()
      ensures r.Ok? ==> |generatedPrompts.At(t)| > 0
      ensures !toGenerate.At(t) || r.Err? ==> generatedPrompts == old(generatedPrompts)
      ensures forall u :: u in PromptTypeSet && u != t ==> generatedPrompts.At(u) == old(generatedPrompts.At(u))
    {
      if toGenerate.At(t) {
        r := CreatePromptFromConversation(t);
      } else {
        r := Ok(());
      }
    }

    /**
     * The verification half of `verify_solution`: every solution of the last
     * proposal is sent with the last verifying prompt, and the annotated
     * verdicts recorded.
     */
    method RecordVerification() returns (r: Result<Dict<Json>>)
      requires |generatedPrompts.verifying| > 0
      modifies this`verifySolutions
      ensures proposedSolutions == [] ==> r.Err?
      ensures r.Err? ==> verifySolutions == old(verifySolutions)
      ensures r.Ok? ==> && proposedSolutions != [] && Decode(services.loads, Last(proposedSolutions)).Ok?
                        && IndependentSolutions.Listed(Decode(services.loads, Last(proposedSolutions)).value).Ok?
      ensures r.Ok? ==> verifySolutions == old(verifySolutions) + [services.dumps(JObj(r.value))]
    {
      var processed :- VerifyProposal(services, pii, generatedPrompts.verifying, proposedSolutions);
      verifySolutions := verifySolutions + [services.dumps(JObj(processed))];
      r := Ok(processed);
    }

    /**
     * `verify_solution`: the verifying prompt is generated if flagged, the
     * verdicts recorded, and the meta expert told about them.
     */
    method VerifySolution() returns (r: Result<()>)
      requires Valid() && |stepQueue| > 0
      modifies this`generatedPrompts, this`verifySolutions, this`conversation
      ensures Valid()
      ensures proposedSolutions == [] ==> r.Err?
      ensures r.Ok? ==> |verifySolutions| == old(|verifySolutions|) + 1 && verifySolutions[..old(|verifySolutions|)] == old(verifySolutions)
      ensures r.Ok? ==> |conversation| == old(|conversation|) + 1 && conversation[..old(|conversation|)] == old(conversation)
    {
      var created :- GenerateIfFlagged(Verifying);
      var recorded :- RecordVerification();
      r := AddNextStepMeta(Last(verifySolutions));
    }

    /**
     * The solving half of `solve_issues`: the last verdicts are split into
     * correct and wrong solutions, the issue agent's reply is tagged and
     * merged with the correct ones, and the merged table becomes a new
     * proposal.
     */
    method RecordIssueSolutions() returns (r: Result<Dict<Json>>)
      requires |generatedPrompts.issue| > 0
      modifies this`proposedSolutions, this`idsDrawn
      ensures verifySolutions == [] ==> r == Err(IndexError)
      ensures verifySolutions != [] && Decode(services.loads, Last(verifySolutions)).Err? ==> r == Err(JsonDecodeError)
      ensures r.Err? ==> proposedSolutions == old(proposedSolutions)
      ensures r.Ok? ==> proposedSolutions == old(proposedSolutions) + [services.dumps(JObj(r.value))]
    {
      var results, drawn := SolveIssuesFor(services, pii, Last(generatedPrompts.issue), verifySolutions, idsDrawn);
      idsDrawn := idsDrawn + drawn;
      var merged :- results;
      proposedSolutions := proposedSolutions + [services.dumps(JObj(merged))];
      r := Ok(merged);
    }

    /**
     * `solve_issues`: the issue prompt is generated if flagged, the issue
     * solutions recorded, and the meta expert told about the new proposal.
     */
    method SolveIssues() returns (r: Result<()>)
      requires Valid() && |stepQueue| > 0
      modifies this`generatedPrompts, this`proposedSolutions, this`idsDrawn, this`conversation
      ensures Valid()
      ensures verifySolutions == [] ==> r.Err?
      ensures r.Ok? ==> |proposedSolutions| == old(|proposedSolutions|) + 1 && proposedSolutions[..old(|proposedSolutions|)] == old(proposedSolutions)
      ensures r.Ok? ==> |conversation| == old(|conversation|) + 1 && conversation[..old(|conversation|)] == old(conversation)
    {
      var created :- GenerateIfFlagged(Issue);
      var recorded :- RecordIssueSolutions();
      r := AddNextStepMeta(Last(proposedSolutions));
    }

    /**
     * `take_next_step`: the last queued step is carried out. `end` returns
     * the conversation's result and changes nothing; any step outside the
     * known ones is a `ValueError` and changes nothing.
     */
    method TakeNextStep() returns (r: Result<Option<Json>>)
      requires Valid()
      modifies this`generatedPrompts, this`responses, this`proposedSolutions, this`verifySolutions, this`idsDrawn, this`conversation
      ensures Valid()
      ensures stepQueue == [] ==> r == Err(IndexError)
      ensures stepQueue != [] && Last(stepQueue) !in Phases + {End} ==> r == Err(ValueError)
      ensures r.Ok? && r.value.Some? ==> stepQueue != [] && Last(stepQueue) == End
      ensures stepQueue != [] && Last(stepQueue) == End ==>
                r == (match EndConversation(verifySolutions, proposedSolutions, services.loads)
                      case Ok(v) => Ok(Some(v))
                      case Err(e) => Err(e))
      ensures stepQueue == [] || Last(stepQueue) !in Phases ==>
                && conversation == old(conversation) && responses == old(responses)
                && proposedSolutions == old(proposedSolutions) && verifySolutions == old(verifySolutions)
      ensures r.Ok? && r.value.None? ==>
                var step := Last(stepQueue);
                && step in Phases
                && |conversation| == old(|conversation|) + 1 && conversation[..old(|conversation|)] == old(conversation)
                && |proposedSolutions| == old(|proposedSolutions|) + (if step in {Extracting, IssuesSolving} then 1 else 0)
                && proposedSolutions[..old(|proposedSolutions|)] == old(proposedSolutions)
                && |verifySolutions| == old(|verifySolutions|) + (if step == Verification then 1 else 0)
                && verifySolutions[..old(|verifySolutions|)] == old(verifySolutions)
    {
      if stepQueue == [] {
        return Err(IndexError);
      }
      var step := Last(stepQueue);
      if step == Extracting {
        var done :- RunExtraction();
        r := Ok(None);
      } else if step == Verification {
        var done :- VerifySolution();
        r := Ok(None);
      } else if step == IssuesSolving {
        var done :- SolveIssues();
        r := Ok(None);
      } else if step == End {
        var result :- EndConversation(verifySolutions, proposedSolutions, services.loads);
        r := Ok(Some(result));
      } else {
        r := Err(ValueError);
      }
    }

    /**
     * `create_next_step`: the step the meta expert names for the last
     * message is queued.
     */
    method QueueNextStep() returns (r: Result<()>)
      requires |stepQueue| > 0
      modifies this`stepQueue
      ensures r.Ok? <==> conversation != [] && NextDecision(services, Last(old(stepQueue)), Last(conversation).content).Ok?
      ensures r.Ok? ==> stepQueue == old(stepQueue) + [NextDecision(services, Last(old(stepQueue)), Last(conversation).content).value]
      ensures r.Err? ==> stepQueue == old(stepQueue)
    {
      if conversation == [] {
        return Err(IndexError);
      }
      var decision :- NextDecision(services, Last(stepQueue), Last(conversation).content);
      stepQueue := stepQueue + [decision];
      r := Ok(());
    }

    /**
     * The instruction half of `generate_next_step`: the meta expert answers
     * the last six messages, and the JSON of its reply joins the
     * conversation as an assistant message.
     */
    method AppendInstructions() returns (r: Result<()>)
      modifies this`conversation
      ensures r.Ok? <==> ExtractJsonFromResponse(services.chat(Request(services.metaExpertPrompt, LastN(old(conversation), 6))), services.loads).Ok?
      ensures r.Err? ==> conversation == old(conversation)
      ensures r.Ok? ==> conversation == old(conversation) + [Assistant(services.dumps(AsJson(
                          ExtractJsonFromResponse(services.chat(Request(services.metaExpertPrompt, LastN(old(conversation), 6))), services.loads).value)))]
    {
      var reply := SendPrompt(services.chat, services.metaExpertPrompt, LastN(conversation, 6));
      var extracted :- ExtractJsonFromResponse(reply, services.loads);
      conversation := conversation + [Assistant(services.dumps(AsJson(extracted)))];
      r := Ok(());
    }

    /**
     * `generate_next_step`: after any step but `end`, the next step is
     * queued and the meta expert's next instructions recorded.
     */
    method GenerateNextStep() returns (r: Result<()>)
      requires Valid() && |stepQueue| > 0
      modifies this`stepQueue, this`conversation
      ensures Valid()
      ensures Last(old(stepQueue)) == End ==> r == Ok(()) && stepQueue == old(stepQueue) && conversation == old(conversation)
      ensures Last(old(stepQueue)) != End && r.Ok? ==>
                && |stepQueue| == old(|stepQueue|) + 1 && stepQueue[..old(|stepQueue|)] == old(stepQueue)
                && |conversation| == old(|conversation|) + 1 && conversation[..old(|conversation|)] == old(conversation)
                && Last(conversation).role == "assistant"
    {
      if Last(stepQueue) == End {
        return Ok(());
      }
      var queued :- QueueNextStep();
      r := AppendInstructions();
    }

    /**
     * One round of `conversation_loop`: the queued step is taken and the
     * next one decided.
     */
    method Round() returns (r: Result<()>)
      requires Valid() && |stepQueue| > 0 && Last(stepQueue) != End
      modifies this`generatedPrompts, this`responses, this`proposedSolutions, this`verifySolutions, this`idsDrawn,
               this`conversation, this`stepQueue
      ensures Valid()
      ensures r.Ok? ==>
                var step := Last(old(stepQueue));
                && step in Phases
                && |stepQueue| == old(|stepQueue|) + 1 && stepQueue[..old(|stepQueue|)] == old(stepQueue)
                && |proposedSolutions| == old(|proposedSolutions|) + (if step in {Extracting, IssuesSolving} then 1 else 0)
                && |verifySolutions| == old(|verifySolutions|) + (if step == Verification then 1 else 0)
                && |conversation| == old(|conversation|) + 2
    {
      var taken :- TakeNextStep();
      r := GenerateNextStep();
    }

    /** The last call of `conversation_loop`: `take_next_step` on `end` yields the result and changes nothing. */
    method FinishConversation() returns (r: Result<Json>)
      requires Valid() && |stepQueue| > 0 && Last(stepQueue) == End
      modifies this`generatedPrompts, this`responses, this`proposedSolutions, this`verifySolutions, this`idsDrawn, this`conversation
      ensures Valid()
      ensures r == EndConversation(verifySolutions, proposedSolutions, services.loads)
      ensures conversation == old(conversation) && responses == old(responses)
      ensures proposedSolutions == old(proposedSolutions) && verifySolutions == old(verifySolutions)
    {
      var outcome := TakeNextStep();
      match outcome
      case Err(e) =>
        r := Err(e);
      case Ok(v) =>
        r := Ok(v.value);
    }

    /**
     * The loop of `conversation_loop`: rounds are run until `end` is queued,
     * at most `fuel` of them. The steps from the one pending at the start
     * up to `end` are known steps, and each round added what its step adds.
     */
    method RunRounds(fuel: nat) returns (r: Result<()>)
      requires Valid() && |stepQueue| > 0
      modifies this`generatedPrompts, this`responses, this`proposedSolutions, this`verifySolutions, this`idsDrawn,
               this`conversation, this`stepQueue
      ensures Valid()
      ensures r.Ok? ==> |stepQueue| >= old(|stepQueue|) && stepQueue[..old(|stepQueue|)] == old(stepQueue)
      ensures r.Ok? ==>
                var steps := stepQueue[old(|stepQueue|) - 1..];
                && |steps| <= fuel + 1 && Last(steps) == End
                && (forall i :: 0 <= i < |steps| - 1 ==> steps[i] in Phases)
                && |proposedSolutions| == old(|proposedSolutions|) + Count(steps, Extracting) + Count(steps, IssuesSolving)
                && |verifySolutions| == old(|verifySolutions|) + Count(steps, Verification)
                && |conversation| == old(|conversation|) + 2 * (|steps| - 1)
    {
      ghost var q0 := |stepQueue| - 1;
      ghost var start := stepQueue;
      ghost var p0 := |proposedSolutions|;
      ghost var v0 := |verifySolutions|;
      ghost var c0 := |conversation|;
      ghost var taken: seq<string> := [];
      var n := 0;
      while Last(stepQueue) != End
        invariant Valid() && |taken| == n && n <= fuel && |stepQueue| == q0 + 1 + n
        invariant stepQueue[..q0 + 1] == start
        invariant stepQueue[q0..] == taken + [Last(stepQueue)]
        invariant forall i :: 0 <= i < |taken| ==> taken[i] in Phases
        invariant |proposedSolutions| == p0 + Count(taken, Extracting) + Count(taken, IssuesSolving)
        invariant |verifySolutions| == v0 + Count(taken, Verification)
        invariant |conversation| == c0 + 2 * |taken|
        decreases fuel - n
      {
        if n == fuel {
          return Err(StepBoundReached);
        }
        ghost var pending := Last(stepQueue);
        ghost var queued := stepQueue;
        var done :- Round();
        assert stepQueue == queued + [Last(stepQueue)];
        assert stepQueue[q0..] == queued[q0..] + [Last(stepQueue)];
        CountSnoc(taken, pending, Extracting);
        CountSnoc(taken, pending, IssuesSolving);
        CountSnoc(taken, pending, Verification);
        taken := taken + [pending];
        n := n + 1;
      }
      assert stepQueue[q0..] == taken + [End];
      CountSnoc(taken, End, Extracting);
      CountSnoc(taken, End, IssuesSolving);
      CountSnoc(taken, End, Verification);
      r := Ok(());
    }

    /**
     * `conversation_loop`: start, run the rounds until `end` is queued, and
     * return what `end` yields. `fuel` bounds the number of rounds. On
     * success the steps queued by this run start with `extracting`, end
     * with `end`, are known steps in between, and each extraction or issue
     * round added one proposal, each verification one verdict table, and
     * each step two messages.
     */
    method ConversationLoop(fuel: nat) returns (r: Result<Json>)
      requires Valid()
      modifies this`generatedPrompts, this`responses, this`proposedSolutions, this`verifySolutions, this`idsDrawn,
               this`conversation, this`stepQueue
      ensures Valid()
      ensures r.Ok? ==> |stepQueue| > old(|stepQueue|)
      ensures r.Ok? ==>
                var steps := stepQueue[old(|stepQueue|)..];
                && |steps| <= fuel + 1
                && steps[0] == Extracting && Last(steps) == End
                && (forall i :: 0 <= i < |steps| - 1 ==> steps[i] in Phases)
                && |proposedSolutions| == old(|proposedSolutions|) + Count(steps, Extracting) + Count(steps, IssuesSolving)
                && |verifySolutions| == old(|verifySolutions|) + Count(steps, Verification)
                && |conversation| == old(|conversation|) + 2 * |steps|
                && r == EndConversation(verifySolutions, proposedSolutions, services.loads)
    {
      ghost var q0 := |stepQueue|;
      var started :- StartConversation();
      assert stepQueue[q0] == Extracting;
      var ran :- RunRounds(fuel);
      assert stepQueue[q0] == Extracting;
      r := FinishConversation();
    }
  }

}
