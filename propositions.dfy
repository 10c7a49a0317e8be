// The agentic chunker: propositions are grouped into chunks, each with an
// id, a title and a summary; a language model names the chunk a new
// proposition belongs to and writes the titles and summaries.

module Propositions {
  import opened Wrappers
  import opened Text
  import opened Dicts
  import opened Json
  import Llm
  import IndependentSolutions

  /**
   * Everything outside the chunker: the chat endpoint, the JSON parser,
   * Python's `str()` of a value and of a list of strings, the prompt files
   * of the prompt folder, and the uuid generator.
   */
  datatype ChunkerServices = ChunkerServices(
    chat: Llm.Chat,
    loads: Loads,
    format: Render,
    listRepr: seq<string> -> string,
    promptFile: string -> string,
    uuid: IndependentSolutions.Uuids)

  /** One entry of `self.chunks`; titles and summaries are whatever the model's JSON held. */
  datatype Chunk = Chunk(chunkId: string, propositions: seq<string>, title: Json, summary: Json, chunkIndex: nat)

  // The prompt files, the reply keys and the fixed parts of the prompts.
  const NewSummaryFile: string := "create_new_summary_of_chunk.txt"
  const NewTitleFile: string := "create_new_chunk_title.txt"
  const UpdateSummaryFile: string := "update_chunk_summary.txt"
  const UpdateTitleFile: string := "update_chunk_title.txt"
  const RelevantChunkFile: string := "find_relevant_chunk.txt"
  const SummaryKey: string := "summary"
  const TitleKey: string := "title"
  const UpdatedSummaryKey: string := "updated_summary"
  const UpdatedTitleKey: string := "updated_title"
  const ChunkIdKey: string := "chunk_id"
  const ChunkIdsKey: string := "chunk_ids"
  const NoChunk: string := "No chunk"
  const NewSummaryLead: string := "Determine the summary of the new chunk that this proposition will go into:\n"
  const NewTitleLead: string := "Determine the title of the chunk that this summary belongs to:\n"
  const CurrentSummaryLabel: string := "\n        Current summary of the chunk: "
  const SummaryLabel: string := "\n        Summary of the chunk: "
  const PropositionsLabel: string := "; Propositions belonging to the chunk: "
  const CurrentTitleLabel: string := "; Current title: "
  const PromptIndent: string := "\n        "
  const ChunkIdLabel: string := "Chunk ID: "
  const ChunkNameLabel: string := "\nChunk Name: "
  const ChunkSummaryLabel: string := "\nChunk Summary: "
  const EntryEnd: string := "\n\n"
  const ChunksStart: string := "Current Chunks:\n--Start of current chunks--\n"
  const ChunksEnd: string := "\n--End of current chunks--"
  const BelongsLead: string := "Determine if the following statement should belong to one of the chunks outlined:\n"
  const BackupIndent: string := "\n            "

  /** `id_truncate_limit`. */
  const IdTruncateLimit: nat := 8

  /** `s[:limit]`. */
  function Truncate(s: string, limit: nat): (r: string)
    ensures |r| == if |s| <= limit then |s| else limit
    ensures r == s[..|r|]
  {
    if |s| <= limit then s else s[..limit]
  }

  /** The id of the chunk created with the `n`-th uuid: its first eight characters. */
  function NewChunkId(svc: ChunkerServices, n: nat): string
  {
    Truncate(svc.uuid(n), IdTruncateLimit)
  }

  // ---------------------------------------------------------------------
  // Talking to the model

  /**
   * The chunker's `_extract_json_from_response`: the first "```json" block
   * parsed; `None` when there is no block (both attempts fail alike), a
   * decode error when its content is not JSON.
   */
  function ExtractJsonFromResponse(response: string, loads: Loads): (r: Result<Option<Json>>)
    ensures r == Ok(None) <==> Llm.BlockGroup(response, Llm.JsonOpen).None?
    ensures r.Err? <==> Llm.BlockGroup(response, Llm.JsonOpen).Some? && loads(Llm.BlockGroup(response, Llm.JsonOpen).value).None?
    ensures r.Err? ==> r.error == JsonDecodeError
    ensures r.Ok? && r.value.Some? ==> Some(r.value.value) == Llm.ParsedBlock(response, Llm.JsonOpen, loads)
  {
    match Llm.BlockGroup(response, Llm.JsonOpen)
    case None => Ok(None)
    case Some(g) =>
      match loads(g)
      case None => Err(JsonDecodeError)
      case Some(v) => Ok(Some(v))
  }

  /** The chunker's `send_prompt` with its one user prompt: the reply, decoded. */
  function SendPrompt(svc: ChunkerServices, systemPrompt: string, userPrompt: string): Result<Option<Json>>
  {
    ExtractJsonFromResponse(svc.chat([Llm.System(systemPrompt), Llm.User(userPrompt)]), svc.loads)
  }

  /** `answer[key]` where the answer may be `None`, which is not subscriptable. */
  function Field(answer: Option<Json>, key: string): (r: Result<Json>)
    ensures r.Ok? <==> answer.Some? && answer.value.JObj? && HasKey(answer.value.fields, key)
    ensures r.Ok? ==> Some(r.value) == Get(answer.value.fields, key)
    ensures r.Err? ==> r.error == (if answer.Some? && answer.value.JObj? then KeyError else TypeError)
  {
    match answer
    case None => Err(TypeError)
    case Some(v) => Subscript(v, key)
  }

  /** `_get_new_chunk_summary`. */
  function NewChunkSummary(svc: ChunkerServices, proposition: string): Result<Json>
  {
    var answer :- SendPrompt(svc, svc.promptFile(NewSummaryFile), NewSummaryLead + proposition);
    Field(answer, SummaryKey)
  }

  /** `_get_new_chunk_title`. */
  function NewChunkTitle(svc: ChunkerServices, summary: Json): Result<Json>
  {
    var answer :- SendPrompt(svc, svc.promptFile(NewTitleFile), NewTitleLead + svc.format(summary));
    Field(answer, TitleKey)
  }

  /** The user prompt of `_update_chunk_summary`. */
  function SummaryUpdatePrompt(svc: ChunkerServices, chunk: Chunk): string
  {
    CurrentSummaryLabel + svc.format(chunk.summary) + PropositionsLabel + svc.listRepr(chunk.propositions) + PromptIndent
  }

  /** `_update_chunk_summary`. */
  function UpdatedSummary(svc: ChunkerServices, chunk: Chunk): Result<Json>
  {
    var answer :- SendPrompt(svc, svc.promptFile(UpdateSummaryFile), SummaryUpdatePrompt(svc, chunk));
    Field(answer, UpdatedSummaryKey)
  }

  /** The title-update prompt around a given "current title" text. */
  function TitlePromptWith(svc: ChunkerServices, chunk: Chunk, currentTitle: string): string
  {
    SummaryLabel + svc.format(chunk.summary) + PropositionsLabel + svc.listRepr(chunk.propositions)
      + CurrentTitleLabel + currentTitle + PromptIndent
  }

  /** The user prompt of `_update_chunk_title` as written: the propositions stand where the title belongs. */
  function TitleUpdatePromptAsWritten(svc: ChunkerServices, chunk: Chunk): string
  {
    TitlePromptWith(svc, chunk, svc.listRepr(chunk.propositions))
  }

  /** The user prompt of `_update_chunk_title` with the chunk's current title. */
  function TitleUpdatePrompt(svc: ChunkerServices, chunk: Chunk): string
  {
    TitlePromptWith(svc, chunk, svc.format(chunk.title))
  }

  /** As written, the current title never reaches the model: two chunks differing only in title get the same prompt. */
  lemma TitleUpdatePromptIgnoresTitle(svc: ChunkerServices, chunk: Chunk, title: Json)
    ensures TitleUpdatePromptAsWritten(svc, chunk.(title := title)) == TitleUpdatePromptAsWritten(svc, chunk)
  {
  }

  /** With the correction, chunks whose titles print differently get different prompts. */
  lemma {:induction false} TitleUpdatePromptShowsTitle(svc: ChunkerServices, chunk: Chunk, title: Json)
    requires svc.format(title) != svc.format(chunk.title)
    ensures TitleUpdatePrompt(svc, chunk.(title := title)) != TitleUpdatePrompt(svc, chunk)
  {
    var other := chunk.(title := title);
    var head := SummaryLabel + svc.format(chunk.summary) + PropositionsLabel + svc.listRepr(chunk.propositions)
      + CurrentTitleLabel;
    var tail := PromptIndent;
    assert TitleUpdatePrompt(svc, chunk) == head + svc.format(chunk.title) + tail;
    assert TitleUpdatePrompt(svc, other) == head + svc.format(title) + tail;
    MiddleDiffers(head, svc.format(chunk.title), svc.format(title), tail);
  }

  /** Equal frames around different middles give different strings. */
  lemma MiddleDiffers(head: string, a: string, b: string, tail: string)
    requires a != b
    ensures head + a + tail != head + b + tail
  {
    if |a| == |b| {
      var i :| 0 <= i < |a| && a[i] != b[i];
      assert (head + a + tail)[|head| + i] == a[i];
      assert (head + b + tail)[|head| + i] == b[i];
    } else {
      assert |head + a + tail| != |head + b + tail|;
    }
  }

  /** `_update_chunk_title` (with the current title in its prompt). */
  function UpdatedTitle(svc: ChunkerServices, chunk: Chunk): Result<Json>
  {
    var answer :- SendPrompt(svc, svc.promptFile(UpdateTitleFile), TitleUpdatePrompt(svc, chunk));
    Field(answer, UpdatedTitleKey)
  }

  // ---------------------------------------------------------------------
  // The chunk table

  /** Keys are distinct, each chunk records its own key as id, and no chunk is empty. */
  predicate TableWf(chunks: Dict<Chunk>)
  {
    && Wf(chunks)
    && forall i :: 0 <= i < |chunks| ==> chunks[i].1.chunkId == chunks[i].0 && |chunks[i].1.propositions| > 0
  }

  /** The number of propositions held by all chunks. */
  function TotalPropositions(chunks: Dict<Chunk>): nat
    decreases |chunks|
  {
    if chunks == [] then 0 else |chunks[0].1.propositions| + TotalPropositions(chunks[1..])
  }

  lemma {:induction false} TotalSnoc(chunks: Dict<Chunk>, e: (string, Chunk))
    ensures TotalPropositions(chunks + [e]) == TotalPropositions(chunks) + |e.1.propositions|
    decreases |chunks|
  {
    if chunks != [] {
      assert (chunks + [e])[1..] == chunks[1..] + [e];
      TotalSnoc(chunks[1..], e);
    }
  }

  lemma {:induction false} TotalUpdate(chunks: Dict<Chunk>, i: nat, e: (string, Chunk))
    requires i < |chunks|
    ensures TotalPropositions(chunks[i := e]) + |chunks[i].1.propositions| == TotalPropositions(chunks) + |e.1.propositions|
    decreases |chunks|
  {
    if i > 0 {
      assert chunks[i := e][1..] == chunks[1..][i - 1 := e];
      TotalUpdate(chunks[1..], i - 1, e);
    } else {
      assert chunks[i := e][1..] == chunks[1..];
    }
  }

  /** `chunks[k] = c` changes the total by the difference in size between `c` and what `k` held. */
  lemma TotalPut(chunks: Dict<Chunk>, k: string, c: Chunk)
    requires Wf(chunks)
    ensures TotalPropositions(Put(chunks, k, c)) + (if HasKey(chunks, k) then |Get(chunks, k).value.propositions| else 0)
            == TotalPropositions(chunks) + |c.propositions|
  {
    if HasKey(chunks, k) {
      var i := IndexOf(chunks, k).value;
      TotalUpdate(chunks, i, (k, c));
    } else {
      TotalSnoc(chunks, (k, c));
    }
  }

  lemma PutTableWf(chunks: Dict<Chunk>, k: string, c: Chunk)
    requires TableWf(chunks) && c.chunkId == k && |c.propositions| > 0
    ensures TableWf(Put(chunks, k, c))
  {
    PutWf(chunks, k, c);
  }

  /** What an operation leaves behind: the table, the uuids drawn so far, and its outcome. */
  datatype Step = Step(chunks: Dict<Chunk>, idsDrawn: nat, result: Result<()>)

  /**
   * `_create_new_chunk`: a uuid is drawn first; the summary, then the title
   * are asked for; only then is the chunk stored, under the truncated id,
   * holding just the proposition and the table's size as its index.
   */
  function CreateStep(svc: ChunkerServices, chunks: Dict<Chunk>, drawn: nat, proposition: string): Step
  {
    var id := NewChunkId(svc, drawn);
    match NewChunkSummary(svc, proposition)
    case Err(e) => Step(chunks, drawn + 1, Err(e))
    case Ok(summary) =>
      match NewChunkTitle(svc, summary)
      case Err(e) => Step(chunks, drawn + 1, Err(e))
      case Ok(title) => Step(Put(chunks, id, Chunk(id, [proposition], title, summary, |chunks|)), drawn + 1, Ok(()))
  }

  /**
   * A created chunk holds exactly the proposition, under the new id, with
   * the old size as index, and nothing else changes; a fresh id adds one
   * entry and one proposition. A failed request leaves the table as it was.
   */
  lemma CreateStepSpec(svc: ChunkerServices, chunks: Dict<Chunk>, drawn: nat, proposition: string, k: string)
    requires TableWf(chunks)
    ensures var s := CreateStep(svc, chunks, drawn, proposition);
            var id := NewChunkId(svc, drawn);
            && s.idsDrawn == drawn + 1
            && TableWf(s.chunks)
            && (s.result.Err? ==> s.chunks == chunks)
            && (s.result.Ok? ==>
                  && Get(s.chunks, id).Some?
                  && Get(s.chunks, id).value.chunkId == id
                  && Get(s.chunks, id).value.propositions == [proposition]
                  && Get(s.chunks, id).value.chunkIndex == |chunks|
                  && (k != id ==> Get(s.chunks, k) == Get(chunks, k)))
            && (HasKey(s.chunks, k) <==> HasKey(chunks, k) || (s.result.Ok? && k == id))
            && (s.result.Ok? && !HasKey(chunks, id) ==>
                  |s.chunks| == |chunks| + 1 && TotalPropositions(s.chunks) == TotalPropositions(chunks) + 1)
  {
    var s := CreateStep(svc, chunks, drawn, proposition);
    var id := NewChunkId(svc, drawn);
    if s.result.Ok? {
      var summary := NewChunkSummary(svc, proposition).value;
      var title := NewChunkTitle(svc, summary).value;
      var c := Chunk(id, [proposition], title, summary, |chunks|);
      assert s.chunks == Put(chunks, id, c);
      PutGet(chunks, id, c, id);
      PutGet(chunks, id, c, k);
      PutHasKey(chunks, id, c, k);
      PutTableWf(chunks, id, c);
      TotalPut(chunks, id, c);
    }
  }

  /**
   * `add_proposition_to_chunk`: the proposition is appended to the chunk;
   * with metadata regeneration on and more than one proposition the
   * summary is asked for and stored, then the title. The append stays
   * when a later request fails; an unknown id raises `KeyError` first.
   */
  function AppendStep(svc: ChunkerServices, regenerate: bool, chunks: Dict<Chunk>, chunkId: string, proposition: string): (Dict<Chunk>, Result<()>)
  {
    match Get(chunks, chunkId)
    case None => (chunks, Err(KeyError))
    case Some(c) =>
      var c1 := c.(propositions := c.propositions + [proposition]);
      var d1 := Put(chunks, chunkId, c1);
      if regenerate && |c1.propositions| > 1 then
        match UpdatedSummary(svc, c1)
        case Err(e) => (d1, Err(e))
        case Ok(summary) =>
          var c2 := c1.(summary := summary);
          var d2 := Put(d1, chunkId, c2);
          match UpdatedTitle(svc, c2)
          case Err(e) => (d2, Err(e))
          case Ok(title) => (Put(d2, chunkId, c2.(title := title)), Ok(()))
      else (d1, Ok(()))
  }

  /**
   * Appending puts the proposition at the end of that chunk only: its id
   * and index stay, the other chunks and the set of keys are unchanged,
   * and the total grows by one. Without regeneration title and summary
   * stay; with it the stored summary is the model's answer to the grown
   * chunk. An unknown id changes nothing.
   */
  lemma AppendStepSpec(svc: ChunkerServices, regenerate: bool, chunks: Dict<Chunk>, chunkId: string, proposition: string, k: string)
    requires TableWf(chunks)
    ensures var (d, r) := AppendStep(svc, regenerate, chunks, chunkId, proposition);
            && TableWf(d)
            && (HasKey(d, k) <==> HasKey(chunks, k))
            && (!HasKey(chunks, chunkId) ==> d == chunks && r == Err(KeyError))
            && (HasKey(chunks, chunkId) ==>
                  && Get(d, chunkId).Some?
                  && var c := Get(chunks, chunkId).value;
                  var c' := Get(d, chunkId).value;
                  && Keys(d) == Keys(chunks)
                  && c'.propositions == c.propositions + [proposition]
                  && c'.chunkId == c.chunkId && c'.chunkIndex == c.chunkIndex
                  && TotalPropositions(d) == TotalPropositions(chunks) + 1
                  && (k != chunkId ==> Get(d, k) == Get(chunks, k))
                  && (!regenerate ==> r.Ok? && c'.title == c.title && c'.summary == c.summary)
                  && (regenerate && r.Ok? ==>
                        c'.summary == UpdatedSummary(svc, c.(propositions := c.propositions + [proposition])).value))
  {
    if HasKey(chunks, chunkId) {
      var c := Get(chunks, chunkId).value;
      var c1 := c.(propositions := c.propositions + [proposition]);
      var d1 := Put(chunks, chunkId, c1);
      PutTableWf(chunks, chunkId, c1);
      PutGet(chunks, chunkId, c1, chunkId);
      PutGet(chunks, chunkId, c1, k);
      PutHasKey(chunks, chunkId, c1, k);
      TotalPut(chunks, chunkId, c1);
      assert |c1.propositions| > 1 by {
        var i := IndexOf(chunks, chunkId).value;
        assert chunks[i].1 == c;
      }
      if regenerate && UpdatedSummary(svc, c1).Ok? {
        var c2 := c1.(summary := UpdatedSummary(svc, c1).value);
        var d2 := Put(d1, chunkId, c2);
        PutTableWf(d1, chunkId, c2);
        PutGet(d1, chunkId, c2, chunkId);
        PutGet(d1, chunkId, c2, k);
        PutHasKey(d1, chunkId, c2, k);
        TotalPut(d1, chunkId, c2);
        if UpdatedTitle(svc, c2).Ok? {
          var c3 := c2.(title := UpdatedTitle(svc, c2).value);
          PutTableWf(d2, chunkId, c3);
          PutGet(d2, chunkId, c3, chunkId);
          PutGet(d2, chunkId, c3, k);
          PutHasKey(d2, chunkId, c3, k);
          TotalPut(d2, chunkId, c3);
        }
      }
    }
  }

  /** One line of `get_chunk_outline`. */
  function OutlineEntry(svc: ChunkerServices, c: Chunk): string
  {
    ChunkIdLabel + c.chunkId + ChunkNameLabel + svc.format(c.title) + ChunkSummaryLabel + svc.format(c.summary) + EntryEnd
  }

  /** The entries of the chunks, in table order. */
  function Entries(svc: ChunkerServices, chunks: Dict<Chunk>): (r: seq<string>)
    ensures |r| == |chunks|
    ensures forall i :: 0 <= i < |chunks| ==> r[i] == OutlineEntry(svc, chunks[i].1)
  {
    seq(|chunks|, i requires 0 <= i < |chunks| => OutlineEntry(svc, chunks[i].1))
  }

  /** The parts, one after the other. */
  function Concat<T>(parts: seq<seq<T>>): seq<T>
    decreases |parts|
  {
    if parts == [] then [] else Concat(parts[..|parts| - 1]) + parts[|parts| - 1]
  }

  /** Each part stands in the concatenation right after the parts before it. */
  lemma {:induction false} ConcatHasPart<T>(parts: seq<seq<T>>, i: nat)
    requires i < |parts|
    ensures |Concat(parts[..i])| + |parts[i]| <= |Concat(parts)|
    ensures Concat(parts)[|Concat(parts[..i])|..|Concat(parts[..i])| + |parts[i]|] == parts[i]
    decreases |parts|
  {
    var n := |parts| - 1;
    var init := Concat(parts[..n]);
    assert Concat(parts) == init + parts[n];
    if i < n {
      ConcatHasPart(parts[..n], i);
      assert parts[..n][..i] == parts[..i];
      SliceOfConcat(init, parts[n], |Concat(parts[..i])|, |Concat(parts[..i])| + |parts[i]|);
    }
  }

  lemma SliceOfConcat<T>(x: seq<T>, y: seq<T>, lo: nat, hi: nat)
    requires lo <= hi <= |x|
    ensures (x + y)[lo..hi] == x[lo..hi]
  {
  }

  /** `get_chunk_outline`: the entries of the chunks in table order. */
  function Outline(svc: ChunkerServices, chunks: Dict<Chunk>): string
  {
    Concat(Entries(svc, chunks))
  }

  /** The outline is the entry of every chunk, each right after the entries of the chunks before it. */
  lemma OutlineListsChunks(svc: ChunkerServices, chunks: Dict<Chunk>, i: nat)
    requires i < |chunks|
    ensures var o := Outline(svc, chunks);
            var at := |Outline(svc, chunks[..i])|;
            var e := OutlineEntry(svc, chunks[i].1);
            at + |e| <= |o| && o[at..at + |e|] == e
  {
    assert Entries(svc, chunks[..i]) == Entries(svc, chunks)[..i];
    ConcatHasPart(Entries(svc, chunks), i);
  }

  /** The id of a model answer, as `_find_relevant_chunk` reads it: a non-dict answer is caught as `None`. */
  function AnsweredChunkId(answer: Option<Json>): (r: Result<Option<Json>>)
    ensures r.Err? <==> answer.Some? && answer.value.JObj? && !HasKey(answer.value.fields, ChunkIdKey)
    ensures r.Err? ==> r.error == KeyError
    ensures r.Ok? && r.value.Some? ==> answer.Some? && answer.value.JObj? && Some(r.value.value) == Get(answer.value.fields, ChunkIdKey)
    ensures !(answer.Some? && answer.value.JObj?) ==> r == Ok(None)
  {
    match Field(answer, ChunkIdKey)
    case Ok(v) => Ok(Some(v))
    case Err(TypeError) => Ok(None)
    case Err(e) => Err(e)
  }

  /** The first user prompt of `_find_relevant_chunk`. */
  function CurrentChunksPrompt(outline: string): string
  {
    ChunksStart + outline + ChunksEnd
  }

  /** The second user prompt of `_find_relevant_chunk`. */
  function BelongsPrompt(proposition: string): string
  {
    BelongsLead + proposition + "."
  }

  /** `_find_relevant_chunk`: the model's `chunk_id` for the outline and the proposition. */
  function RelevantChunk(svc: ChunkerServices, chunks: Dict<Chunk>, proposition: string): Result<Option<Json>>
  {
    var reply := svc.chat([Llm.System(svc.promptFile(RelevantChunkFile)),
                           Llm.User(CurrentChunksPrompt(Outline(svc, chunks))), Llm.User(BelongsPrompt(proposition))]);
    var answer :- ExtractJsonFromResponse(reply, svc.loads);
    AnsweredChunkId(answer)
  }

  /** The answers that make `add_proposition` create a chunk: none, "No chunk" or JSON `null`. */
  predicate NoChunkChosen(choice: Option<Json>)
  {
    choice.None? || choice.value == JStr(NoChunk) || choice.value == JNull
  }

  /** Where `add_proposition` puts a proposition. */
  datatype Placement = NewChunk | IntoChunk(chunkId: string) | Failed(error: Exc)

  /**
   * The choice of `add_proposition`: with no chunks, or when the model
   * names none, a new chunk; a named id, that chunk. A list or dict as id
   * is unhashable (`TypeError`), another scalar is no key (`KeyError`).
   */
  function Place(svc: ChunkerServices, chunks: Dict<Chunk>, proposition: string): Placement
  {
    if |chunks| == 0 then NewChunk
    else
      match RelevantChunk(svc, chunks, proposition)
      case Err(e) => Failed(e)
      case Ok(choice) =>
        if NoChunkChosen(choice) then NewChunk
        else match choice.value
          case JStr(id) => IntoChunk(id)
          case JArr(_) => Failed(TypeError)
          case JObj(_) => Failed(TypeError)
          case _ => Failed(KeyError)
  }

  /** `add_proposition`: the proposition goes where `Place` says. */
  function AddStep(svc: ChunkerServices, regenerate: bool, chunks: Dict<Chunk>, drawn: nat, proposition: string): Step
  {
    match Place(svc, chunks, proposition)
    case NewChunk => CreateStep(svc, chunks, drawn, proposition)
    case IntoChunk(id) =>
      var (d, r) := AppendStep(svc, regenerate, chunks, id, proposition);
      Step(d, drawn, r)
    case Failed(e) => Step(chunks, drawn, Err(e))
  }

  /** With an empty table the model is not asked: a chunk is created. */
  lemma AddStepToEmptyCreates(svc: ChunkerServices, regenerate: bool, drawn: nat, proposition: string)
    ensures AddStep(svc, regenerate, [], drawn, proposition) == CreateStep(svc, [], drawn, proposition)
  {
  }

  /**
   * With chunks present: no answer, "No chunk" or null creates a chunk; a
   * named id appends to that chunk, and an unknown one raises `KeyError`
   * without touching the table.
   */
  lemma AddStepFollowsChoice(svc: ChunkerServices, regenerate: bool, chunks: Dict<Chunk>, drawn: nat, proposition: string)
    requires |chunks| > 0 && RelevantChunk(svc, chunks, proposition).Ok?
    ensures var choice := RelevantChunk(svc, chunks, proposition).value;
            var s := AddStep(svc, regenerate, chunks, drawn, proposition);
            && (NoChunkChosen(choice) ==> s == CreateStep(svc, chunks, drawn, proposition))
            && (!NoChunkChosen(choice) && choice.value.JStr? ==>
                  s.idsDrawn == drawn
                  && (s.chunks, s.result) == AppendStep(svc, regenerate, chunks, choice.value.s, proposition))
            && (!NoChunkChosen(choice) && choice.value.JStr? && !HasKey(chunks, choice.value.s) ==>
                  s == Step(chunks, drawn, Err(KeyError)))
  {
  }

  /**
   * A successful `add_proposition` adds exactly one proposition to the
   * table, provided a chunk it creates gets an id not already in use.
   */
  lemma AddStepAddsOne(svc: ChunkerServices, regenerate: bool, chunks: Dict<Chunk>, drawn: nat, proposition: string)
    requires TableWf(chunks)
    ensures var s := AddStep(svc, regenerate, chunks, drawn, proposition);
            && TableWf(s.chunks)
            && (s.idsDrawn == drawn || s.idsDrawn == drawn + 1)
            && (s.result.Ok? && !HasKey(chunks, NewChunkId(svc, drawn)) ==>
                  TotalPropositions(s.chunks) == TotalPropositions(chunks) + 1)
  {
    var id := NewChunkId(svc, drawn);
    match Place(svc, chunks, proposition)
    case NewChunk => CreateStepSpec(svc, chunks, drawn, proposition, id);
    case IntoChunk(chunkId) => AppendStepSpec(svc, regenerate, chunks, chunkId, proposition, id);
    case Failed(_) =>
  }

  /** `add_proposition` removes no chunk, and the only key it may add is the id of the uuid it drew. */
  lemma AddStepKeys(svc: ChunkerServices, regenerate: bool, chunks: Dict<Chunk>, drawn: nat, proposition: string, k: string)
    requires TableWf(chunks)
    ensures var s := AddStep(svc, regenerate, chunks, drawn, proposition);
            && (HasKey(chunks, k) ==> HasKey(s.chunks, k))
            && (HasKey(s.chunks, k) && !HasKey(chunks, k) ==> s.idsDrawn == drawn + 1 && k == NewChunkId(svc, drawn))
  {
    match Place(svc, chunks, proposition)
    case NewChunk => CreateStepSpec(svc, chunks, drawn, proposition, k);
    case IntoChunk(chunkId) => AppendStepSpec(svc, regenerate, chunks, chunkId, proposition, k);
    case Failed(_) =>
  }

  /** `add_propositions`: each proposition in turn, stopping at the first error. */
  function AddAll(svc: ChunkerServices, regenerate: bool, chunks: Dict<Chunk>, drawn: nat, propositions: seq<string>): Step
    decreases |propositions|
  {
    if propositions == [] then Step(chunks, drawn, Ok(()))
    else
      var s := AddStep(svc, regenerate, chunks, drawn, propositions[0]);
      if s.result.Err? then s else AddAll(svc, regenerate, s.chunks, s.idsDrawn, propositions[1..])
  }

  /** `add_propositions` takes its input in order: a batch is its first part, then (unless that failed) the rest. */
  lemma {:induction false} AddAllConcat(svc: ChunkerServices, regenerate: bool, chunks: Dict<Chunk>, drawn: nat, xs: seq<string>, ys: seq<string>)
    ensures var s := AddAll(svc, regenerate, chunks, drawn, xs);
            AddAll(svc, regenerate, chunks, drawn, xs + ys)
              == if s.result.Err? then s else AddAll(svc, regenerate, s.chunks, s.idsDrawn, ys)
    decreases |xs|
  {
    if xs == [] {
      assert xs + ys == ys;
    } else {
      var s := AddStep(svc, regenerate, chunks, drawn, xs[0]);
      assert (xs + ys)[0] == xs[0];
      assert (xs + ys)[1..] == xs[1..] + ys;
      if s.result.Ok? {
        AddAllConcat(svc, regenerate, s.chunks, s.idsDrawn, xs[1..], ys);
      }
    }
  }

  /** The ids the uuids `drawn .. drawn + k - 1` give are new to the table and to each other. */
  ghost predicate FreshIds(svc: ChunkerServices, chunks: Dict<Chunk>, drawn: nat, k: nat)
  {
    forall n :: drawn <= n < drawn + k ==>
      !HasKey(chunks, NewChunkId(svc, n)) && forall m :: drawn <= m < n ==> NewChunkId(svc, m) != NewChunkId(svc, n)
  }

  /**
   * When `add_propositions` succeeds and every id it may draw is fresh, the
   * table holds exactly one more proposition per input proposition.
   */
  lemma {:induction false} AddAllCount(svc: ChunkerServices, regenerate: bool, chunks: Dict<Chunk>, drawn: nat, propositions: seq<string>)
    requires TableWf(chunks) && FreshIds(svc, chunks, drawn, |propositions|)
    ensures var s := AddAll(svc, regenerate, chunks, drawn, propositions);
            && TableWf(s.chunks)
            && drawn <= s.idsDrawn <= drawn + |propositions|
            && (s.result.Ok? ==> TotalPropositions(s.chunks) == TotalPropositions(chunks) + |propositions|)
    decreases |propositions|
  {
    if propositions != [] {
      var s := AddStep(svc, regenerate, chunks, drawn, propositions[0]);
      AddStepAddsOne(svc, regenerate, chunks, drawn, propositions[0]);
      if s.result.Ok? {
        forall n | s.idsDrawn <= n < s.idsDrawn + |propositions| - 1
          ensures !HasKey(s.chunks, NewChunkId(svc, n))
        {
          AddStepKeys(svc, regenerate, chunks, drawn, propositions[0], NewChunkId(svc, n));
        }
        AddAllCount(svc, regenerate, s.chunks, s.idsDrawn, propositions[1..]);
      }
    }
  }

  /** The chunks rendered by `get_chunks`. */
  datatype ChunksView = ChunkDict(chunks: Dict<Chunk>) | ChunkStrings(texts: seq<string>) | NoView

  /** A chunk's text for `"list_of_strings"`: its propositions joined by single spaces. */
  function ChunkText(c: Chunk): string
  {
    Join(" ", c.propositions)
  }

  /** Whether `_find_relevant_chunk_backup` accepts an id: `ChunkIdsKey in answer`, then the length check. */
  function BackupChunkId(answer: Option<Json>): (r: Result<Option<Json>>)
    ensures r.Ok? && r.value.Some? ==>
              && answer.Some? && answer.value.JObj?
              && Get(answer.value.fields, ChunkIdsKey) == Some(r.value.value)
              && JsonLength(r.value.value) == Some(IdTruncateLimit)
    ensures answer.Some? && answer.value.JObj? && Get(answer.value.fields, ChunkIdsKey).Some?
            && JsonLength(Get(answer.value.fields, ChunkIdsKey).value).Some? ==>
              r == Ok(if JsonLength(Get(answer.value.fields, ChunkIdsKey).value) == Some(IdTruncateLimit)
                      then Get(answer.value.fields, ChunkIdsKey) else None)
    ensures answer.Some? && answer.value.JObj? && !HasKey(answer.value.fields, ChunkIdsKey) ==> r == Ok(None)
    ensures answer.None? ==> r == Err(TypeError)
  {
    match answer
    case None => Err(TypeError)
    case Some(JObj(fields)) =>
      (match Get(fields, ChunkIdsKey)
       case None => Ok(None)
       case Some(v) =>
         match JsonLength(v)
         case None => Err(TypeError)
         case Some(n) => Ok(if n == IdTruncateLimit then Some(v) else None))
    case Some(JArr(items)) => if JStr(ChunkIdsKey) in items then Err(TypeError) else Ok(None)
    case Some(JStr(s)) => if Contains(s, ChunkIdsKey) then Err(TypeError) else Ok(None)
    case Some(_) => Err(TypeError)
  }

  /** `len(v)`: strings, lists and dicts have one; scalars raise `TypeError` (`None`). */
  function JsonLength(v: Json): (r: Option<nat>)
    ensures r.Some? <==> v.JStr? || v.JArr? || v.JObj?
  {
    match v
    case JStr(s) => Some(|s|)
    case JArr(items) => Some(|items|)
    case JObj(fields) => Some(|fields|)
    case _ => None
  }

  /** The user prompt of `_find_relevant_chunk_backup`. */
  function BackupPrompt(outline: string, proposition: string): string
  {
    BackupIndent + ChunksStart + outline + ChunksEnd + BackupIndent + BelongsLead + proposition + BackupIndent
  }

  // ---------------------------------------------------------------------
  // The chunker object

  class AgenticChunker {
    const services: ChunkerServices
    /** `generate_new_metadata_ind`. */
    const generateNewMetadata: bool
    var chunks: Dict<Chunk>
    /** How many uuids have been drawn. */
    var idsDrawn: nat

    predicate Valid()
      reads this
    {
      TableWf(chunks)
    }

    /** `__init__`: no chunks yet. */
    constructor (services: ChunkerServices, generateNewMetadata: bool)
      ensures Valid()
      ensures this.services == services && this.generateNewMetadata == generateNewMetadata
      ensures chunks == [] && idsDrawn == 0
    {
      this.services := services;
      this.generateNewMetadata := generateNewMetadata;
      chunks := [];
      idsDrawn := 0;
    }

    /** `_create_new_chunk`. */
    method CreateNewChunk(proposition: string) returns (r: Result<()>)
      requires Valid()
      modifies this`chunks, this`idsDrawn
      ensures Valid()
      ensures Step(chunks, idsDrawn, r) == CreateStep(services, old(chunks), old(idsDrawn), proposition)
    {
      var newChunkId := Truncate(services.uuid(idsDrawn), IdTruncateLimit);
      idsDrawn := idsDrawn + 1;
      var newChunkSummary := NewChunkSummary(services, proposition);
      if newChunkSummary.Err? {
        return Err(newChunkSummary.error);
      }
      var newChunkTitle := NewChunkTitle(services, newChunkSummary.value);
      if newChunkTitle.Err? {
        return Err(newChunkTitle.error);
      }
      CreateStepSpec(services, chunks, idsDrawn - 1, proposition, newChunkId);
      chunks := Put(chunks, newChunkId, Chunk(newChunkId, [proposition], newChunkTitle.value, newChunkSummary.value, |chunks|));
      r := Ok(());
    }

    /** `add_proposition_to_chunk`. */
    method AddPropositionToChunk(chunkId: string, proposition: string) returns (r: Result<()>)
      requires Valid()
      modifies this`chunks
      ensures Valid()
      ensures (chunks, r) == AppendStep(services, generateNewMetadata, old(chunks), chunkId, proposition)
    {
      AppendStepSpec(services, generateNewMetadata, chunks, chunkId, proposition, chunkId);
      var chunk := Get(chunks, chunkId);
      if chunk.None? {
        return Err(KeyError);
      }
      var c := chunk.value.(propositions := chunk.value.propositions + [proposition]);
      chunks := Put(chunks, chunkId, c);
      if generateNewMetadata {
        if |c.propositions| > 1 {
          var summary := UpdatedSummary(services, c);
          if summary.Err? {
            return Err(summary.error);
          }
          c := c.(summary := summary.value);
          chunks := Put(chunks, chunkId, c);
          var title := UpdatedTitle(services, c);
          if title.Err? {
            return Err(title.error);
          }
          c := c.(title := title.value);
          chunks := Put(chunks, chunkId, c);
        }
      }
      r := Ok(());
    }

    /** `get_chunk_outline`. */
    method GetChunkOutline() returns (chunkOutline: string)
      ensures chunkOutline == Outline(services, chunks)
    {
      chunkOutline := "";
      ghost var entries := Entries(services, chunks);
      for i := 0 to |chunks|
        invariant chunkOutline == Concat(entries[..i])
      {
        assert entries[..i + 1][..i] == entries[..i];
        var chunk := chunks[i].1;
        chunkOutline := chunkOutline + OutlineEntry(services, chunk);
      }
      assert entries[..|chunks|] == entries;
    }

    /** `_find_relevant_chunk`. */
    method FindRelevantChunk(proposition: string) returns (r: Result<Option<Json>>)
      ensures r == RelevantChunk(services, chunks, proposition)
    {
      var currentChunkOutline := GetChunkOutline();
      var systemPrompt := services.promptFile(RelevantChunkFile);
      var userPrompts := [CurrentChunksPrompt(currentChunkOutline), BelongsPrompt(proposition)];
      var messages := Llm.SendPromptSimpleMessages(systemPrompt, userPrompts);
      assert messages == [Llm.System(systemPrompt), Llm.User(userPrompts[0]), Llm.User(userPrompts[1])];
      var answerDict :- ExtractJsonFromResponse(services.chat(messages), services.loads);
      r := AnsweredChunkId(answerDict);
    }

    /** `add_proposition`. */
    method AddProposition(proposition: string) returns (r: Result<()>)
      requires Valid()
      modifies this`chunks, this`idsDrawn
      ensures Valid()
      ensures Step(chunks, idsDrawn, r) == AddStep(services, generateNewMetadata, old(chunks), old(idsDrawn), proposition)
    {
      AddStepAddsOne(services, generateNewMetadata, chunks, idsDrawn, proposition);
      var chunkId: Option<Json> := None;
      if |chunks| != 0 {
        var found := FindRelevantChunk(proposition);
        if found.Err? {
          return Err(found.error);
        }
        chunkId := found.value;
      }
      if !NoChunkChosen(chunkId) {
        match chunkId.value
        case JStr(id) =>
          r := AddPropositionToChunk(id, proposition);
        case JArr(_) =>
          r := Err(TypeError);
        case JObj(_) =>
          r := Err(TypeError);
        case _ =>
          r := Err(KeyError);
      } else {
        r := CreateNewChunk(proposition);
      }
    }

    /** `add_propositions`. */
    method AddPropositions(propositions: seq<string>) returns (r: Result<()>)
      requires Valid()
      modifies this`chunks, this`idsDrawn
      ensures Valid()
      ensures Step(chunks, idsDrawn, r) == AddAll(services, generateNewMetadata, old(chunks), old(idsDrawn), propositions)
    {
      for i := 0 to |propositions|
        invariant Valid()
        invariant AddAll(services, generateNewMetadata, old(chunks), old(idsDrawn), propositions)
                  == AddAll(services, generateNewMetadata, chunks, idsDrawn, propositions[i..])
      {
        assert propositions[i..][0] == propositions[i];
        assert propositions[i..][1..] == propositions[i + 1..];
        var step := AddProposition(propositions[i]);
        if step.Err? {
          return step;
        }
      }
      r := Ok(());
    }

    /** `get_chunks`: the table itself, one text per chunk, or nothing for another type. */
    method GetChunks(kind: string) returns (view: ChunksView)
      ensures kind == "dict" ==> view == ChunkDict(chunks)
      ensures kind == "list_of_strings" ==>
                view.ChunkStrings? && |view.texts| == |chunks|
                && forall i :: 0 <= i < |chunks| ==> view.texts[i] == ChunkText(chunks[i].1)
      ensures kind != "dict" && kind != "list_of_strings" ==> view == NoView
    {
      if kind == "dict" {
        return ChunkDict(chunks);
      }
      if kind == "list_of_strings" {
        var texts: seq<string> := [];
        for i := 0 to |chunks|
          invariant |texts| == i
          invariant forall k :: 0 <= k < i ==> texts[k] == ChunkText(chunks[k].1)
        {
          texts := texts + [ChunkText(chunks[i].1)];
        }
        return ChunkStrings(texts);
      }
      view := NoView;
    }

    /** `_find_relevant_chunk_backup`: the answer's `chunk_ids`, kept only with exactly eight characters. */
    method FindRelevantChunkBackup(proposition: string) returns (r: Result<Option<Json>>)
      ensures var answer := SendPrompt(services, services.promptFile(RelevantChunkFile),
                                       BackupPrompt(Outline(services, chunks), proposition));
              && (answer.Err? ==> r == Err(answer.error))
              && (answer.Ok? ==> r == BackupChunkId(answer.value))
    {
      var currentChunkOutline := GetChunkOutline();
      var systemPrompt := services.promptFile(RelevantChunkFile);
      var answerDict :- SendPrompt(services, systemPrompt, BackupPrompt(currentChunkOutline, proposition));
      r := BackupChunkId(answerDict);
    }
  }
}
