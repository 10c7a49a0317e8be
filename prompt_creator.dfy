/**
 * `PromptCreater` of `src/module/llm_agents.py`: prompt selection, the
 * `N/10` score gate and the bounded feedback-refinement loop.
 */
module PromptCreator {
  import opened Wrappers
  import opened Text
  import opened Llm

  /** The prompt texts `select_prompt_from_config` copies out of the prompt configuration. */
  datatype Prompts = Prompts(
    generation: string,
    exampleGeneration: string,
    verifyingGeneration: string,
    exampleVerifyingGeneration: string,
    issueSolving: string,
    examplesIssue: string,
    feedbackGeneration: string,
    incorporateFeedback: string)

  /**
   * `return_prompt(type_prompt, example)`: the guarded `match`; an unknown
   * type falls through every case and yields `None`. `example` stands for the
   * truthiness of the argument (the default `None` is false).
   */
  function ReturnPrompt(p: Prompts, typePrompt: string, example: bool): (r: Option<string>)
    ensures r.Some? <==> typePrompt in {"extracting", "verifying", "issue", "feedback", "incorporate"}
    ensures typePrompt == "extracting" ==> r == Some(if example then p.exampleGeneration else p.generation)
    ensures typePrompt == "verifying" ==> r == Some(if example then p.exampleVerifyingGeneration else p.verifyingGeneration)
    ensures typePrompt == "issue" ==> r == Some(if example then p.examplesIssue else p.issueSolving)
    ensures typePrompt == "feedback" ==> r == Some(p.feedbackGeneration)
    ensures typePrompt == "incorporate" ==> r == Some(p.incorporateFeedback)
  {
    if typePrompt == "extracting" && !example then Some(p.generation)
    else if typePrompt == "extracting" && example then Some(p.exampleGeneration)
    else if typePrompt == "verifying" && !example then Some(p.verifyingGeneration)
    else if typePrompt == "verifying" && example then Some(p.exampleVerifyingGeneration)
    else if typePrompt == "issue" && !example then Some(p.issueSolving)
    else if typePrompt == "issue" && example then Some(p.examplesIssue)
    else if typePrompt == "feedback" then Some(p.feedbackGeneration)
    else if typePrompt == "incorporate" then Some(p.incorporateFeedback)
    else None
  }

  /** The example argument only matters for the three prompt kinds that have an example variant. */
  lemma ReturnPromptIgnoresExample(p: Prompts, typePrompt: string)
    requires typePrompt !in {"extracting", "verifying", "issue"}
    ensures ReturnPrompt(p, typePrompt, true) == ReturnPrompt(p, typePrompt, false)
  {
  }

  /** End of the run of ASCII digits starting at `i`. */
  function DigitRunEnd(s: string, i: nat): (e: nat)
    requires i <= |s|
    ensures i <= e <= |s| && (e < |s| ==> !IsDigit(s[e]))
    ensures forall k :: i <= k < e ==> IsDigit(s[k])
    decreases |s| - i
  {
    if i < |s| && IsDigit(s[i]) then DigitRunEnd(s, i + 1) else i
  }

  /**
   * `\b\d+/10\b` matches at `i`: a digit run that does not follow a word
   * character, then "/10", then no word character. The greedy `\d+` can
   * only succeed with the whole run, since a shorter run is followed by a digit.
   */
  predicate ScoreAt(s: string, i: nat)
  {
    i < |s| && IsDigit(s[i]) && (i == 0 || !IsWordChar(s[i - 1]))
    && var e := DigitRunEnd(s, i);
       StartsAt(s, e, "/10") && (e + 3 == |s| || !IsWordChar(s[e + 3]))
  }

  /** The number before "/10" of the match at `i`. */
  function ScoreValue(s: string, i: nat): nat
    requires ScoreAt(s, i)
  {
    DecimalValue(s[i..DigitRunEnd(s, i)])
  }

  /** `re.findall(r'\b\d+/10\b', s[from:])` read as numbers, scanning left to right without overlaps. */
  function ScoresFrom(s: string, from: nat): (r: seq<nat>)
    decreases |s| - from
  {
    if from >= |s| then []
    else if ScoreAt(s, from) then [ScoreValue(s, from)] + ScoresFrom(s, DigitRunEnd(s, from) + 3)
    else ScoresFrom(s, from + 1)
  }

  function Scores(text: string): seq<nat>
  {
    ScoresFrom(text, 0)
  }

  /** Every number found really stands before "/10" at a match of the pattern. */
  lemma {:induction false} ScoresSound(s: string, from: nat, k: nat)
    requires k < |ScoresFrom(s, from)|
    ensures exists i :: from <= i < |s| && ScoreAt(s, i) && ScoresFrom(s, from)[k] == ScoreValue(s, i)
    decreases |s| - from
  {
    if ScoreAt(s, from) {
      if k > 0 {
        ScoresSound(s, DigitRunEnd(s, from) + 3, k - 1);
      }
    } else {
      ScoresSound(s, from + 1, k);
    }
  }

  /** `all(int(N) >= cutoff for each match)`. */
  function AllAtLeast(scores: seq<nat>, cutoff: int): bool
  {
    if |scores| == 0 then true else scores[0] >= cutoff && AllAtLeast(scores[1..], cutoff)
  }

  /** `check_score(text, cutoff)`. */
  function CheckScore(text: string, cutoff: int): bool
  {
    AllAtLeast(Scores(text), cutoff)
  }

  lemma {:induction false} AllAtLeastIff(scores: seq<nat>, cutoff: int)
    ensures AllAtLeast(scores, cutoff) <==> forall k :: 0 <= k < |scores| ==> scores[k] >= cutoff
  {
    if |scores| > 0 {
      AllAtLeastIff(scores[1..], cutoff);
      assert forall k :: 1 <= k < |scores| ==> scores[k] == scores[1..][k - 1];
    }
  }

  /** The gate passes exactly when every score found reaches the cutoff; a text without scores passes. */
  lemma CheckScoreIff(text: string, cutoff: int)
    ensures CheckScore(text, cutoff) <==> forall k :: 0 <= k < |Scores(text)| ==> Scores(text)[k] >= cutoff
    ensures Scores(text) == [] ==> CheckScore(text, cutoff)
  {
    AllAtLeastIff(Scores(text), cutoff);
  }

  /** A score below the cutoff anywhere in the findings fails the gate. */
  lemma CheckScoreFails(text: string, cutoff: int, k: nat)
    requires k < |Scores(text)| && Scores(text)[k] < cutoff
    ensures !CheckScore(text, cutoff)
  {
    CheckScoreIff(text, cutoff);
  }

  /** A worked instance: the critique "9/10 7/10" holds the scores 9 and 7 and fails the default cutoff 8. */
  lemma CheckScoreExample()
    ensures Scores("9/10 7/10") == [9, 7]
    ensures !CheckScore("9/10 7/10", 8)
  {
    var s := "9/10 7/10";
    assert DigitRunEnd(s, 0) == 1;
    assert s[1..4] == "/10";
    assert ScoreAt(s, 0);
    assert s[0..1] == "9";
    assert DecimalValue("9") == 9 by {
      assert "9"[..0] == "";
    }
    assert !ScoreAt(s, 4);
    assert DigitRunEnd(s, 5) == 6;
    assert s[6..9] == "/10";
    assert ScoreAt(s, 5);
    assert s[5..6] == "7";
    assert DecimalValue("7") == 7 by {
      assert "7"[..0] == "";
    }
    assert ScoresFrom(s, 9) == [];
    assert ScoresFrom(s, 5) == [7];
    assert ScoresFrom(s, 4) == [7];
    assert ScoresFrom(s, 0) == [9, 7];
    CheckScoreFails(s, 8, 1);
  }

  /** The follow-up the loop sends after every improved prompt. */
  const UserFeedback: string := "Please provide feedback on the new prompt."

  /** The user turn that follows reply `k`: the incorporate instruction after a critique, the feedback request after an improved prompt. */
  function FollowUp(inc: string, k: nat): string
  {
    if k % 2 == 0 then inc else UserFeedback
  }

  /** The opening user turn of the feedback conversation. */
  function PromptTurn(generatedPrompt: string): Message
  {
    User("<prompt>" + generatedPrompt + "</prompt>")
  }

  /**
   * The conversation sent before the reply following `replies`: the prompt,
   * then each earlier reply as an assistant turn, followed by the
   * incorporate instruction after a critique (even index) and the feedback
   * request after an improved prompt (odd index).
   */
  function FeedbackConversation(generatedPrompt: string, incorporate: string, replies: seq<string>): (c: seq<Message>)
    ensures |c| == 1 + 2 * |replies|
    decreases |replies|
  {
    if |replies| == 0 then [PromptTurn(generatedPrompt)]
    else
      var k := |replies| - 1;
      FeedbackConversation(generatedPrompt, incorporate, replies[..k])
      + [Assistant(replies[k]), User(FollowUp(incorporate, k))]
  }

  /** Each assistant turn of the conversation is the reply at the same position. */
  lemma {:induction false} FeedbackConversationTurns(g: string, inc: string, replies: seq<string>, j: nat)
    requires j < |replies|
    ensures FeedbackConversation(g, inc, replies)[1 + 2 * j] == Assistant(replies[j])
    ensures FeedbackConversation(g, inc, replies)[2 + 2 * j] == User(FollowUp(inc, j))
    decreases |replies|
  {
    var k := |replies| - 1;
    var prefix := replies[..k];
    var c := FeedbackConversation(g, inc, prefix);
    var tail := [Assistant(replies[k]), User(FollowUp(inc, k))];
    assert FeedbackConversation(g, inc, replies) == c + tail;
    if j < k {
      FeedbackConversationTurns(g, inc, prefix, j);
      assert prefix[j] == replies[j];
      assert (c + tail)[1 + 2 * j] == c[1 + 2 * j] && (c + tail)[2 + 2 * j] == c[2 + 2 * j];
    } else {
      assert (c + tail)[1 + 2 * j] == tail[0] && (c + tail)[2 + 2 * j] == tail[1];
    }
  }

  /** Reply `k` is the chat model's answer to the feedback conversation built from the replies before it. */
  predicate AnswerAt(chat: Chat, developerPrompt: string, g: string, inc: string, responses: seq<string>, k: nat)
    requires k < |responses|
  {
    responses[k] == chat(Request(developerPrompt, FeedbackConversation(g, inc, responses[..k])))
  }

  /** Every reply is the chat model's answer to the feedback conversation before it. */
  predicate ChatReplies(chat: Chat, developerPrompt: string, g: string, inc: string, responses: seq<string>)
  {
    forall k :: 0 <= k < |responses| ==> AnswerAt(chat, developerPrompt, g, inc, responses, k)
  }

  lemma ChatRepliesExtend(chat: Chat, developerPrompt: string, g: string, inc: string, responses: seq<string>, reply: string)
    requires ChatReplies(chat, developerPrompt, g, inc, responses)
    requires reply == chat(Request(developerPrompt, FeedbackConversation(g, inc, responses)))
    ensures ChatReplies(chat, developerPrompt, g, inc, responses + [reply])
  {
    var next := responses + [reply];
    forall k | 0 <= k < |next|
      ensures AnswerAt(chat, developerPrompt, g, inc, next, k)
    {
      if k < |responses| {
        assert AnswerAt(chat, developerPrompt, g, inc, responses, k);
        assert next[..k] == responses[..k];
      } else {
        assert next[..k] == responses;
      }
    }
  }

  /** The conversation after one more reply. */
  lemma FeedbackConversationAppend(g: string, inc: string, responses: seq<string>, reply: string)
    ensures FeedbackConversation(g, inc, responses + [reply])
         == FeedbackConversation(g, inc, responses)
            + [Assistant(reply), User(FollowUp(inc, |responses|))]
  {
    assert (responses + [reply])[..|responses|] == responses;
  }

  /**
   * What a finished `feedback_loop` run looks like: one to five rounds, each
   * reply the chat model's answer to the conversation so far, every critique
   * before the last one failing the gate, and the last one passing it unless
   * the round limit stopped the loop.
   */
  predicate FeedbackRun(chat: Chat, p: Prompts, generatedPrompt: string, responses: seq<string>)
  {
    && |responses| in {3, 5, 7, 9, 11}
    && (forall r :: 1 <= r < |responses| && 2 * r < |responses| - 1 ==> !CheckScore(responses[2 * r], 8))
    && (|responses| < 11 ==> CheckScore(responses[|responses| - 1], 8))
    && ChatReplies(chat, p.feedbackGeneration, generatedPrompt, p.incorporateFeedback, responses)
  }

  /**
   * The state of `feedback_loop` after `round` rounds: the replies so far,
   * each answering the conversation before it, the conversation holding all
   * but the last reply, and every critique before the last one failing the gate.
   */
  predicate LoopState(chat: Chat, p: Prompts, g: string, conversation: seq<Message>, responses: seq<string>, round: nat)
  {
    && |responses| == 1 + 2 * round
    && conversation == FeedbackConversation(g, p.incorporateFeedback, responses[..|responses| - 1])
    && ChatReplies(chat, p.feedbackGeneration, g, p.incorporateFeedback, responses)
    && (forall r :: 1 <= r < round ==> !CheckScore(responses[2 * r], 8))
  }

  /** A loop that stops after one to five rounds, with a passing critique unless the limit was hit, is a finished run. */
  lemma LoopStateDone(chat: Chat, p: Prompts, g: string, conversation: seq<Message>, responses: seq<string>, round: nat)
    requires LoopState(chat, p, g, conversation, responses, round)
    requires 1 <= round <= 5 && (round < 5 ==> CheckScore(responses[|responses| - 1], 8))
    ensures FeedbackRun(chat, p, g, responses)
  {
  }

  /** Before an incorporate instruction: the last critique joins the conversation. */
  lemma ConversationResume(g: string, inc: string, responses: seq<string>, round: nat)
    requires |responses| == 1 + 2 * round
    ensures FeedbackConversation(g, inc, responses[..|responses| - 1])
            + [Assistant(responses[|responses| - 1]), User(inc)]
         == FeedbackConversation(g, inc, responses)
  {
    var n := |responses| - 1;
    assert n % 2 == 0;
    assert responses[..n] + [responses[n]] == responses;
    FeedbackConversationAppend(g, inc, responses[..n], responses[n]);
  }

  /** Before a feedback request: the improved prompt joins the conversation. */
  lemma ConversationImproved(g: string, inc: string, responses: seq<string>, round: nat, improved: string)
    requires |responses| == 1 + 2 * round
    ensures FeedbackConversation(g, inc, responses) + [Assistant(improved), User(UserFeedback)]
         == FeedbackConversation(g, inc, responses + [improved])
  {
    assert |responses| % 2 == 1;
    FeedbackConversationAppend(g, inc, responses, improved);
  }

  /** The critique of every finished round failed the gate when the loop goes on. */
  lemma CritiquesStep(responses: seq<string>, round: nat, improved: string, critique: string)
    requires |responses| == 1 + 2 * round
    requires forall r :: 1 <= r < round ==> !CheckScore(responses[2 * r], 8)
    requires round > 0 ==> !CheckScore(responses[|responses| - 1], 8)
    ensures forall r :: 1 <= r < round + 1 ==> !CheckScore((responses + [improved, critique])[2 * r], 8)
  {
    var next := responses + [improved, critique];
    forall r | 1 <= r < round + 1
      ensures !CheckScore(next[2 * r], 8)
    {
      assert next[2 * r] == responses[2 * r];
    }
  }

  /**
   * One pass of the `feedback_loop` body: the incorporate instruction after
   * the last critique, the improved prompt, the feedback request, the new critique.
   */
  method FeedbackRound(chat: Chat, p: Prompts, g: string, conversation: seq<Message>, responses: seq<string>, ghost round: nat)
    returns (extended: seq<Message>, improved: string, critique: string)
    requires LoopState(chat, p, g, conversation, responses, round)
    requires round > 0 ==> !CheckScore(responses[|responses| - 1], 8)
    ensures LoopState(chat, p, g, extended, responses + [improved, critique], round + 1)
  {
    var developerPrompt := p.feedbackGeneration;
    var inc := p.incorporateFeedback;
    ConversationResume(g, inc, responses, round);
    extended := conversation + [Assistant(responses[|responses| - 1]), User(inc)];
    improved := SendPrompt(chat, developerPrompt, extended);
    ChatRepliesExtend(chat, developerPrompt, g, inc, responses, improved);
    ConversationImproved(g, inc, responses, round, improved);
    extended := extended + [Assistant(improved), User(UserFeedback)];
    critique := SendPrompt(chat, developerPrompt, extended);
    ChatRepliesExtend(chat, developerPrompt, g, inc, responses + [improved], critique);
    CritiquesStep(responses, round, improved, critique);
    assert responses + [improved] + [critique] == responses + [improved, critique];
    assert (responses + [improved, critique])[..|responses| + 1] == responses + [improved];
  }

  /**
   * `feedback_loop`: one critique, then rounds of "incorporate" and
   * "critique" until a critique passes `check_score` with cutoff 8 or five
   * rounds have run. Returns the last improved prompt and all replies.
   */
  method FeedbackLoop(chat: Chat, p: Prompts, generatedPrompt: string) returns (best: string, responses: seq<string>)
    ensures FeedbackRun(chat, p, generatedPrompt, responses)
    ensures best == responses[|responses| - 2]
  {
    var developerPrompt := p.feedbackGeneration;
    var conversation := [PromptTurn(generatedPrompt)];
    responses := [];
    var satisfied := false;
    var round := 0;
    var reply := SendPrompt(chat, developerPrompt, conversation);
    ChatRepliesExtend(chat, developerPrompt, generatedPrompt, p.incorporateFeedback, responses, reply);
    responses := responses + [reply];
    while !satisfied && round < 5
      invariant round <= 5 && LoopState(chat, p, generatedPrompt, conversation, responses, round)
      invariant satisfied == (round > 0 && CheckScore(responses[|responses| - 1], 8))
      decreases 5 - round
    {
      var improved, critique;
      conversation, improved, critique := FeedbackRound(chat, p, generatedPrompt, conversation, responses, round);
      responses := responses + [improved, critique];
      satisfied := CheckScore(critique, 8);
      round := round + 1;
    }
    LoopStateDone(chat, p, generatedPrompt, conversation, responses, round);
    best := responses[|responses| - 2];
  }

  /** `process_feedback_loop`: the refined prompt when refinement is switched on, the prompt itself otherwise. */
  method ProcessFeedbackLoop(chat: Chat, p: Prompts, refinePrompts: bool, prompt: string) returns (r: string, ghost responses: seq<string>)
    ensures !refinePrompts ==> r == prompt
    ensures refinePrompts ==> FeedbackRun(chat, p, prompt, responses) && r == responses[|responses| - 2]
  {
    r := prompt;
    responses := [];
    if refinePrompts {
      r, responses := FeedbackLoop(chat, p, prompt);
    }
  }
}
