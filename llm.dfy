/**
 * The chat-completion agent of `src/module/llm.py`: how a request's message
 * list is assembled, and the four-tier search for JSON in a reply.
 * The chat endpoint itself is a function from message lists to replies.
 */
module Llm {
  import opened Wrappers
  import opened Text
  import opened Json

  datatype Message = Message(role: string, content: string)

  function System(content: string): Message { Message("system", content) }
  function User(content: string): Message { Message("user", content) }
  function Assistant(content: string): Message { Message("assistant", content) }

  /** The chat endpoint: the reply the model gives to a list of messages. */
  type Chat = seq<Message> -> string

  /** The message list `send_prompt` sends: the developer prompt as system message, then the conversation. */
  function Request(developerPrompt: string, conversation: seq<Message>): seq<Message>
  {
    [System(developerPrompt)] + conversation
  }

  /** `send_prompt_async`: the message list is built by appending the conversation entries one by one. */
  method SendPromptMessages(developerPrompt: string, conversation: seq<Message>) returns (messages: seq<Message>)
    ensures |messages| == 1 + |conversation|
    ensures messages[0] == System(developerPrompt)
    ensures forall i :: 0 <= i < |conversation| ==> messages[i + 1] == conversation[i]
    ensures messages == Request(developerPrompt, conversation)
  {
    messages := [System(developerPrompt)];
    var i := 0;
    while i < |conversation|
      invariant 0 <= i <= |conversation|
      invariant messages == [System(developerPrompt)] + conversation[..i]
    {
      messages := messages + [conversation[i]];
      i := i + 1;
    }
    assert conversation[..i] == conversation;
  }

  /** `send_prompt_simple`: one user message per prompt, in order, after the system message. */
  method SendPromptSimpleMessages(systemPrompt: string, userPrompts: seq<string>) returns (messages: seq<Message>)
    ensures |messages| == 1 + |userPrompts|
    ensures messages[0] == System(systemPrompt)
    ensures forall i :: 0 <= i < |userPrompts| ==> messages[i + 1] == User(userPrompts[i])
  {
    messages := [System(systemPrompt)];
    var i := 0;
    while i < |userPrompts|
      invariant 0 <= i <= |userPrompts|
      invariant |messages| == 1 + i && messages[0] == System(systemPrompt)
      invariant forall j :: 0 <= j < i ==> messages[j + 1] == User(userPrompts[j])
    {
      messages := messages + [User(userPrompts[i])];
      i := i + 1;
    }
  }

  /** `send_prompt`: the reply to the assembled request. */
  method SendPrompt(chat: Chat, developerPrompt: string, conversation: seq<Message>) returns (reply: string)
    ensures reply == chat(Request(developerPrompt, conversation))
  {
    var messages := SendPromptMessages(developerPrompt, conversation);
    reply := chat(messages);
  }

  const Fence: string := "```"
  const JsonFence: string := "```json"

  /**
   * The two fenced-block patterns searched with lazy content:
   * `JsonOpen` is "```json" and one whitespace character (`` ```json\s([\s\S]*?)``` ``),
   * `PlainOpen` is a bare "```" (`` ```(.*?)``` `` with DOTALL).
   */
  datatype Opener = JsonOpen | PlainOpen

  function OpenLength(o: Opener): nat
  {
    match o
    case JsonOpen => 8
    case PlainOpen => 3
  }

  predicate Opens(s: string, i: nat, o: Opener)
  {
    match o
    case JsonOpen => StartsAt(s, i, JsonFence) && i + 7 < |s| && IsSpace(s[i + 7])
    case PlainOpen => StartsAt(s, i, Fence)
  }

  /** The pattern matches at `i` with its group ending at the first closing fence `j`. */
  predicate BlockAt(s: string, o: Opener, i: nat, j: nat)
  {
    Opens(s, i, o) && i + OpenLength(o) <= j && StartsAt(s, j, Fence)
    && forall k :: i + OpenLength(o) <= k < j ==> !StartsAt(s, k, Fence)
  }

  /** `re.search`: the leftmost match at or after `from`, as (start, closing fence). */
  function FirstBlock(s: string, o: Opener, from: nat): (r: Option<(nat, nat)>)
    ensures r.Some? ==> from <= r.value.0 && BlockAt(s, o, r.value.0, r.value.1)
    ensures r.Some? ==> forall i, j :: from <= i < r.value.0 ==> !BlockAt(s, o, i, j)
    ensures r.None? ==> forall i, j :: from <= i ==> !BlockAt(s, o, i, j)
    decreases |s| - from
  {
    if from >= |s| then None
    else if Opens(s, from, o) then
      match Find(s, Fence, from + OpenLength(o))
      case Some(j) => Some((from, j))
      case None => FirstBlock(s, o, from + 1)
    else FirstBlock(s, o, from + 1)
  }

  /** The captured group of the leftmost block, if the pattern matches. */
  function BlockGroup(s: string, o: Opener): (r: Option<string>)
    ensures r.Some? <==> exists i, j :: BlockAt(s, o, i, j)
    ensures r.Some? ==> exists i: nat, j: nat :: BlockAt(s, o, i, j) && r.value == s[i + OpenLength(o)..j]
                                                 && forall i', j' :: 0 <= i' < i ==> !BlockAt(s, o, i', j')
  {
    match FirstBlock(s, o, 0)
    case None => None
    case Some((i, j)) => Some(s[i + OpenLength(o)..j])
  }

  const NewlineFence: string := "\n```"

  /**
   * `` ```json\s*\n([\s\S]*?)\n``` `` matches at `i` with the greedy `\s*`
   * ending at the newline `p` and the lazy group ending at the first "\n```" at `q`.
   */
  predicate Tier2At(s: string, i: nat, p: nat, q: nat)
  {
    StartsAt(s, i, JsonFence) && i + 7 <= p < |s|
    && (forall k :: i + 7 <= k < p ==> IsSpace(s[k]))
    && s[p] == '\n' && p + 1 <= q && StartsAt(s, q, NewlineFence)
    && forall k :: p + 1 <= k < q ==> !StartsAt(s, k, NewlineFence)
  }

  /** End of the whitespace run starting at `k`. */
  function SpaceRunEnd(s: string, k: nat): (r: nat)
    requires k <= |s|
    ensures k <= r <= |s| && (r < |s| ==> !IsSpace(s[r]))
    ensures forall m :: k <= m < r ==> IsSpace(s[m])
    decreases |s| - k
  {
    if k < |s| && IsSpace(s[k]) then SpaceRunEnd(s, k + 1) else k
  }

  /** Backtracking of the greedy `\s*`: newline positions tried from `hi - 1` down to `i + 7`. */
  function Tier2Backtrack(s: string, i: nat, hi: nat): (r: Option<(nat, nat)>)
    requires StartsAt(s, i, JsonFence) && i + 7 <= hi <= |s|
    requires forall k :: i + 7 <= k < hi ==> IsSpace(s[k])
    ensures r.Some? ==> Tier2At(s, i, r.value.0, r.value.1)
                        && forall p, q :: r.value.0 < p < hi ==> !Tier2At(s, i, p, q)
    ensures r.None? ==> forall p, q :: i + 7 <= p < hi ==> !Tier2At(s, i, p, q)
    decreases hi
  {
    if hi == i + 7 then None
    else
      var p := hi - 1;
      if s[p] == '\n' then
        match Find(s, NewlineFence, p + 1)
        case Some(q) => Some((p, q))
        case None => Tier2Backtrack(s, i, p)
      else Tier2Backtrack(s, i, p)
  }

  /** Every tier-2 match at `i` ends its `\s*` before the end of the whitespace run after "```json". */
  lemma Tier2InsideRun(s: string, i: nat)
    requires StartsAt(s, i, JsonFence)
    ensures forall p: nat, q: nat :: Tier2At(s, i, p, q) ==> p < SpaceRunEnd(s, i + 7)
  {
    var w := SpaceRunEnd(s, i + 7);
    forall p: nat, q: nat | Tier2At(s, i, p, q)
      ensures p < w
    {
      assert IsSpace(s[p]);
    }
  }

  /** The leftmost tier-2 match at or after `from`, preferring the longest whitespace run. */
  function Tier2From(s: string, from: nat): (r: Option<(nat, nat, nat)>)
    ensures r.Some? ==> from <= r.value.0 && Tier2At(s, r.value.0, r.value.1, r.value.2)
    ensures r.Some? ==> forall i, p, q :: from <= i < r.value.0 ==> !Tier2At(s, i, p, q)
    ensures r.Some? ==> forall p, q :: r.value.1 < p ==> !Tier2At(s, r.value.0, p, q)
    ensures r.None? ==> forall i, p, q :: from <= i ==> !Tier2At(s, i, p, q)
    decreases |s| - from
  {
    if from >= |s| then None
    else if StartsAt(s, from, JsonFence) then
      var w := SpaceRunEnd(s, from + 7);
      Tier2InsideRun(s, from);
      match Tier2Backtrack(s, from, w)
      case Some((p, q)) => Some((from, p, q))
      case None => Tier2From(s, from + 1)
    else Tier2From(s, from + 1)
  }

  /** What `_extract_json_from_response` returns: parsed JSON, or (tier 2) a raw string. */
  datatype Extracted = Parsed(value: Json) | Raw(text: string)

  /** The value as Python sees it after the call: a raw string is a Python `str`. */
  function AsJson(e: Extracted): Json
  {
    match e
    case Parsed(v) => v
    case Raw(t) => JStr(t)
  }

  /** The tier-2 result: the group with every "```json" removed. */
  function Tier2Text(s: string): Option<string>
  {
    match Tier2From(s, 0)
    case None => None
    case Some((i, p, q)) => Some(ReplaceAll(s[p + 1..q], JsonFence, ""))
  }

  /** Tier-1 or tier-3 parse, when the block exists and its group parses. */
  function ParsedBlock(s: string, o: Opener, loads: Loads): Option<Json>
  {
    match BlockGroup(s, o)
    case None => None
    case Some(g) => loads(g)
  }

  /**
   * `_extract_json_from_response`: tier 1 (parsed "```json" block), tier 2
   * (raw "```json" block ending in "\n```"), tier 3 (any fenced block,
   * parsed), tier 4 (the whole reply, parsed); the last decode error escapes.
   */
  function ExtractJsonFromResponse(response: string, loads: Loads): (r: Result<Extracted>)
    ensures ParsedBlock(response, JsonOpen, loads).Some? ==> r == Ok(Parsed(ParsedBlock(response, JsonOpen, loads).value))
    ensures r.Ok? && r.value.Raw? ==> ParsedBlock(response, JsonOpen, loads).None?
                                      && Some(r.value.text) == Tier2Text(response)
    ensures (exists i, p, q :: Tier2At(response, i, p, q)) ==> r.Ok?
    ensures loads(response).Some? ==> r.Ok?
    ensures r.Ok? && r.value.Parsed? ==>
              Some(r.value.value) in {ParsedBlock(response, JsonOpen, loads), ParsedBlock(response, PlainOpen, loads), loads(response)}
    ensures r.Err? <==> ParsedBlock(response, JsonOpen, loads).None? && (forall i, p, q :: !Tier2At(response, i, p, q))
                        && ParsedBlock(response, PlainOpen, loads).None? && loads(response).None?
    ensures r.Err? ==> r.error == JsonDecodeError
    ensures ParsedBlock(response, JsonOpen, loads).None? && Tier2Text(response).Some? ==>
              r == Ok(Raw(Tier2Text(response).value))
    ensures ParsedBlock(response, JsonOpen, loads).None? && Tier2Text(response).None?
            && ParsedBlock(response, PlainOpen, loads).Some? ==>
              r == Ok(Parsed(ParsedBlock(response, PlainOpen, loads).value))
    ensures ParsedBlock(response, JsonOpen, loads).None? && Tier2Text(response).None?
            && ParsedBlock(response, PlainOpen, loads).None? && loads(response).Some? ==>
              r == Ok(Parsed(loads(response).value))
  {
    match ParsedBlock(response, JsonOpen, loads)
    case Some(v) => Ok(Parsed(v))
    case None =>
      match Tier2Text(response)
      case Some(t) => Ok(Raw(t))
      case None =>
        match ParsedBlock(response, PlainOpen, loads)
        case Some(v) => Ok(Parsed(v))
        case None =>
          match loads(response)
          case Some(v) => Ok(Parsed(v))
          case None => Err(JsonDecodeError)
  }

  /** A reply holding a "```json" block whose whitespace run ends in a newline and that is closed by "\n```" parses at tier 1 or 2. */
  lemma Tier2Rescues(s: string, loads: Loads, i: nat, p: nat, q: nat)
    requires Tier2At(s, i, p, q)
    ensures ExtractJsonFromResponse(s, loads).Ok?
    ensures ExtractJsonFromResponse(s, loads).value.Raw? ==> Tier2Text(s).Some?
  {
  }

  /** Removing "```json" can leave a new "```json" behind: the tier-2 text is not always free of it. */
  lemma Tier2TextMayKeepFence()
    ensures ReplaceAll("``````jsonjson", JsonFence, "") == JsonFence
  {
    var s := "``````jsonjson";
    assert s[3] == s[4] == s[5] == '`' && JsonFence[3] == 'j';
    assert s[0..7][3] != JsonFence[3] && s[1..8][3] != JsonFence[3] && s[2..9][3] != JsonFence[3];
    assert StartsAt(s, 3, JsonFence);
    assert Find(s, JsonFence, 0) == Some(3);
    var rest := s[10..];
    assert rest == "json";
    assert Find(rest, JsonFence, 0) == None;
    assert Split(rest, JsonFence) == ["json"];
    assert s[..3] == "```";
    assert Split(s, JsonFence) == [s[..3]] + Split(rest, JsonFence);
    assert Split(s, JsonFence) == ["```", "json"];
  }
}
