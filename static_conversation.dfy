// The person-extraction meta-expert conversation of the static controller:
// the meta expert picks every step, the first one included, through a
// `{"Next": <step>}` token in either quoting style; proposals are dicts keyed
// by person id, verdict tables are kept as JSON text.

module StaticConversation {
  import opened Wrappers
  import opened Text
  import opened Dicts
  import opened Json
  import opened Llm
  import Seqs
  import NextStep
  import IndependentSolutions
  import Utils
  import Dyn = DynamicConversation

  /**
   * Everything outside the controller: the chat endpoint, the JSON codec,
   * the id generator, Python's `str()` of a value, `textwrap.dedent`, the
   * persons of the document as the database renders them (`read_persons`)
   * and the two meta prompts read from disk.
   */
  datatype Services = Services(
    chat: Chat,
    loads: Loads,
    dumps: Render,
    uuid: IndependentSolutions.Uuids,
    repr: Json -> string,
    dedent: string -> string,
    persons: string,
    metaExpertPrompt: string,
    nextStepMetaPrompt: string)

  // ---------------------------------------------------------------------
  // The generated prompts

  /** `generated_prompts` before loading: the three prompt types, none loaded yet (`None`). */
  const InitialPrompts: map<string, Option<string>> := map[Dyn.Extracting := None, Dyn.Verifying := None, Dyn.Issue := None]

  /**
   * The prompt type a cached file's name names, `name.split("_")[1].split(".")[0]`;
   * a name without `_` has no second piece (`IndexError`).
   */
  function FileType(name: string): (r: Result<string>)
    ensures r.Ok? <==> '_' in name
    ensures r.Ok? ==> '.' !in r.value
    ensures r.Err? ==> r.error == IndexError
  {
    SplitHasSecond(name, '_');
    var pieces := Split(name, "_");
    if |pieces| < 2 then Err(IndexError)
    else
      SplitPiecesFree(pieces[1], ".", 0);
      ContainsIff(Split(pieces[1], ".")[0], ".");
      var t := Split(pieces[1], ".")[0];
      assert '.' !in t by {
        if '.' in t {
          var j :| 0 <= j < |t| && t[j] == '.';
          assert StartsAt(t, j, ".");
        }
      }
      Ok(t)
  }

  /** The names the prompt cache gives its files, `<pii>_<type>.<ending>`, are read back as their type. */
  lemma FileTypeOfCacheName(pii: string, promptType: string, ending: string)
    requires '_' !in pii && '_' !in promptType && '.' !in promptType
    ensures FileType(Utils.CacheFileName(pii, promptType, ending)) == Ok(promptType)
  {
    var name := Utils.CacheFileName(pii, promptType, ending);
    var rest := promptType + "." + ending;
    assert name == pii + ['_'] + rest;
    SplitAfterFree(pii, '_', rest);
    var tail := Split(ending, "_")[0];
    assert rest == (promptType + ".") + ending;
    SplitHeadFree(promptType + ".", '_', ending);
    assert Split(name, "_")[1] == promptType + ['.'] + tail;
    SplitAfterFree(promptType, '.', tail);
  }

  /**
   * `load_generated_prompts` over the listed files, in listing order, each
   * given with its text: every file's type gets its text; a name without `_`
   * stops the loading with `IndexError`.
   */
  function LoadFrom(prompts: map<string, Option<string>>, files: seq<(string, string)>): (r: Result<map<string, Option<string>>>)
    ensures r.Ok? ==> prompts.Keys <= r.value.Keys
    decreases |files|
  {
    if files == [] then Ok(prompts)
    else
      var t :- FileType(files[0].0);
      LoadFrom(prompts[t := Some(files[0].1)], files[1..])
  }

  /** The text of the last listed file of type `t`. */
  function LastOfType(files: seq<(string, string)>, t: string): (r: Option<string>)
    decreases |files|
  {
    if files == [] then None
    else
      match LastOfType(files[1..], t)
      case Some(x) => Some(x)
      case None => if FileType(files[0].0) == Ok(t) then Some(files[0].1) else None
  }

  /** Loading from listing position `i`: that file's type is assigned first, or its error is the outcome. */
  lemma LoadFromAt(prompts: map<string, Option<string>>, files: seq<(string, string)>, i: nat)
    requires i < |files|
    ensures FileType(files[i].0).Err? ==> LoadFrom(prompts, files[i..]) == Err(FileType(files[i].0).error)
    ensures FileType(files[i].0).Ok? ==>
              LoadFrom(prompts, files[i..]) == LoadFrom(prompts[FileType(files[i].0).value := Some(files[i].1)], files[i + 1..])
  {
    Seqs.DropIndex(files, i, 0);
    Seqs.DropDrop(files, i, 1);
  }

  /** Loading fails exactly when some listed name has no `_`. */
  lemma {:induction false} LoadFromFails(prompts: map<string, Option<string>>, files: seq<(string, string)>)
    ensures LoadFrom(prompts, files).Ok? <==> forall i :: 0 <= i < |files| ==> '_' in files[i].0
    ensures LoadFrom(prompts, files).Err? ==> LoadFrom(prompts, files).error == IndexError
    decreases |files|
  {
    if files != [] {
      if '_' in files[0].0 {
        var t := FileType(files[0].0).value;
        LoadFromFails(prompts[t := Some(files[0].1)], files[1..]);
        assert forall i :: 1 <= i < |files| ==> files[i] == files[1..][i - 1];
      }
    }
  }

  /**
   * After loading, a type holds the text of the last listed file of that
   * type; a type no file names keeps its value, and no other key appears.
   */
  lemma {:induction false} LoadFromLast(prompts: map<string, Option<string>>, files: seq<(string, string)>, t: string)
    requires LoadFrom(prompts, files).Ok?
    ensures t in LoadFrom(prompts, files).value <==> t in prompts || LastOfType(files, t).Some?
    ensures LastOfType(files, t).Some? ==> LoadFrom(prompts, files).value[t] == LastOfType(files, t)
    ensures LastOfType(files, t).None? && t in prompts ==> LoadFrom(prompts, files).value[t] == prompts[t]
    decreases |files|
  {
    if files != [] {
      var t0 := FileType(files[0].0).value;
      LoadFromLast(prompts[t0 := Some(files[0].1)], files[1..], t);
    }
  }

  /**
   * `generated_prompts[t]` as a request sends it: a prompt that was never
   * loaded is `None`, which no request can carry.
   */
  function Loaded(prompts: map<string, Option<string>>, t: string): (r: Result<string>)
    ensures r.Ok? <==> t in prompts && prompts[t].Some?
    ensures r.Ok? ==> r.value == prompts[t].value
    ensures r.Err? ==> r.error == (if t in prompts then MissingPrompt else KeyError)
  {
    if t !in prompts then Err(KeyError)
    else if prompts[t].None? then Err(MissingPrompt)
    else Ok(prompts[t].value)
  }

  // ---------------------------------------------------------------------
  // Request texts

  /** The user message of the very first decision. */
  const StartPrompt: string := "\n            Start the conversation!\n            "

  /** The extraction request before `textwrap.dedent`. */
  function ExtractionRequest(persons: string, text: string): string
  {
    "\n        <person_dict>" + persons + "</person_dict>\n        <text>" + text + "</text>\n        "
  }

  /** The request verifying one proposed person, `{key: value}` with the value as `str()` renders it. */
  function VerificationRequest(key: string, value: string, text: string): string
  {
    "\n                <proposed_solution> {" + key + ": " + value + "} <proposed_solution>\n                <text>"
    + text + "</text>\n                "
  }

  /** The issue request, with both tables as `json.dumps` renders them. */
  function IssueRequest(text: string, correct: string, wrong: string): string
  {
    "\n        <text>" + text + "</text>\n        <correct_solution>" + correct + "</correct_solution>\n        <wrong_solution>"
    + wrong + "</wrong_solution>\n        "
  }

  /** `add_next_step_meta_to_conversation`'s prompt: the template with the step just taken and its response filled in. */
  function NextStepPrompt(template: string, previousAction: string, response: string): string
  {
    ReplaceAll(ReplaceAll(template, "{{previous_action}}", previousAction), "{{response}}", response)
  }

  /** What a non-final decision leaves in the transcript: `f"Next step: {next_step}"` of the decoded dict. */
  function StepNote(step: string): string
  {
    "Next step: {'Next': '" + step + "'}"
  }

  // ---------------------------------------------------------------------
  // The next-step decision

  /**
   * The reply as `generate_next_step` holds it after deciding: the reply
   * itself when its first match decodes, otherwise the reply with its
   * quotes repaired.
   */
  function ReplyAfterDecision(reply: string): string
  {
    match NextStep.ExtractNextStepEitherQuote(reply)
    case Ok(t) => if NextStep.LoadsToken(t).Ok? then reply else NextStep.Requote(reply)
    case Err(_) => reply
  }

  /**
   * A decision taken is the double-quoted token of the reply as the
   * transcript records it, so the recorded reply always carries it in the
   * form the dynamic controller's extractor reads.
   */
  lemma RecordedReplyDecides(reply: string)
    requires NextStep.DecideNextStepRepairing(reply).Ok?
    ensures NextStep.DecideNextStep(ReplyAfterDecision(reply)) == NextStep.DecideNextStepRepairing(reply)
  {
    if !NextStep.HasToken(reply, '"') {
      NextStep.SingleQuotedMatchUndecodable(reply);
    }
    NextStep.RequotedDoubleOnly(reply);
  }

  // ---------------------------------------------------------------------
  // Persons tagged with fresh ids

  /** `json_object["Persons"]` of a reply, as the persons loop visits it. */
  function PersonsOf(response: string, loads: Loads): (r: Result<seq<Json>>)
    ensures r.Ok? <==> && ExtractJsonFromResponse(response, loads).Ok?
                       && Subscript(AsJson(ExtractJsonFromResponse(response, loads).value), "Persons").Ok?
                       && Iterate(Subscript(AsJson(ExtractJsonFromResponse(response, loads).value), "Persons").value).Ok?
    ensures r.Err? ==> r.error in {JsonDecodeError, KeyError, TypeError}
  {
    var extracted :- ExtractJsonFromResponse(response, loads);
    var persons :- Subscript(AsJson(extracted), "Persons");
    Iterate(persons)
  }

  /** `person_dict` after the persons loop: person `i` stored under the `i`-th id drawn from `next`. */
  function TaggedPersons(uuid: IndependentSolutions.Uuids, next: nat, items: seq<Json>): Dict<Json>
    decreases |items|
  {
    if items == [] then []
    else Put(TaggedPersons(uuid, next, items[..|items| - 1]), uuid(next + |items| - 1), items[|items| - 1])
  }

  /** With distinct ids every person gets an entry of its own, in order. */
  lemma {:induction false} FreshPersonsListed(uuid: IndependentSolutions.Uuids, next: nat, items: seq<Json>)
    requires forall a: nat, b: nat :: a != b ==> uuid(a) != uuid(b)
    ensures |TaggedPersons(uuid, next, items)| == |items|
    ensures forall i :: 0 <= i < |items| ==> TaggedPersons(uuid, next, items)[i] == (uuid(next + i), items[i])
    decreases |items|
  {
    if items != [] {
      var n := |items| - 1;
      var init := items[..n];
      FreshPersonsListed(uuid, next, init);
      var d := TaggedPersons(uuid, next, init);
      assert !HasKey(d, uuid(next + n)) by {
        forall j | 0 <= j < |d|
          ensures d[j].0 != uuid(next + n)
        {
          assert d[j].0 == uuid(next + j);
        }
      }
      assert forall i :: 0 <= i < n ==> items[i] == init[i];
    }
  }

  /** Every key of the tagged table is one of the ids drawn. */
  lemma TaggedPersonsKeys(uuid: IndependentSolutions.Uuids, next: nat, items: seq<Json>, k: string)
    requires HasKey(TaggedPersons(uuid, next, items), k)
    ensures exists j :: next <= j < next + |items| && k == uuid(j)
  {
    var j := TaggedPersonsKeyIndex(uuid, next, items, k);
  }

  /** The offset of the id a key of the tagged table was drawn as. */
  lemma {:induction false} TaggedPersonsKeyIndex(uuid: IndependentSolutions.Uuids, next: nat, items: seq<Json>, k: string)
    returns (j: nat)
    requires HasKey(TaggedPersons(uuid, next, items), k)
    ensures next <= j < next + |items| && k == uuid(j)
    decreases |items|
  {
    var n := |items| - 1;
    var init := items[..n];
    var d := TaggedPersons(uuid, next, init);
    PutHasKey(d, uuid(next + n), items[n], k);
    if HasKey(d, k) {
      j := TaggedPersonsKeyIndex(uuid, next, init, k);
    } else {
      j := next + n;
    }
  }

  /** The persons loop of `add_uuid_to_person`: each person is stored under the next id drawn. */
  method TagPersons(items: seq<Json>, uuid: IndependentSolutions.Uuids, next: nat) returns (personDict: Dict<Json>)
    ensures personDict == TaggedPersons(uuid, next, items)
  {
    personDict := [];
    var i := 0;
    while i < |items|
      invariant 0 <= i <= |items|
      invariant personDict == TaggedPersons(uuid, next, items[..i])
    {
      assert items[..i + 1][..i] == items[..i];
      personDict := Put(personDict, uuid(next + i), items[i]);
      i := i + 1;
    }
    assert items[..i] == items;
  }

  /**
   * `add_uuid_to_person`: the reply is parsed and every person under
   * `"Persons"` is stored under a freshly drawn id; `drawn` ids are used.
   */
  method AddUuidToPerson(response: string, loads: Loads, uuid: IndependentSolutions.Uuids, next: nat)
    returns (r: Result<Dict<Json>>, drawn: nat)
    ensures r.Ok? <==> PersonsOf(response, loads).Ok?
    ensures r.Err? ==> r.error == PersonsOf(response, loads).error && drawn == 0
    ensures r.Ok? ==> r.value == TaggedPersons(uuid, next, PersonsOf(response, loads).value)
                      && drawn == |PersonsOf(response, loads).value|
  {
    drawn := 0;
    var items :- PersonsOf(response, loads);
    var personDict := TagPersons(items, uuid, next);
    drawn := |items|;
    r := Ok(personDict);
  }

  // ---------------------------------------------------------------------
  // Verification verdicts

  /** `temp_dict["full name"]`, falling back to `temp_dict["full_name"]` on a `KeyError`. */
  function FullName(p: Json): (r: Result<Json>)
    ensures Subscript(p, "full name").Ok? ==> r == Subscript(p, "full name")
    ensures p.JObj? && !HasKey(p.fields, "full name") ==> r == Subscript(p, "full_name")
    ensures !p.JObj? ==> r == Err(TypeError)
  {
    match Subscript(p, "full name")
    case Ok(x) => Ok(x)
    case Err(e) => if e == KeyError then Subscript(p, "full_name") else Err(e)
  }

  /** The fields copied after the name. */
  const CopiedFields: seq<string> := ["abbreviations", "aliases"]

  /** The proposal's fields the verdict receives: the name, then abbreviations and aliases. */
  predicate Copyable(p: Json)
  {
    FullName(p).Ok? && Subscript(p, "abbreviations").Ok? && Subscript(p, "aliases").Ok?
  }

  /** The verdict after the three assignments. */
  function AnnotatedPerson(p: Json, verdict: Dict<Json>): Dict<Json>
    requires Copyable(p)
  {
    IndependentSolutions.Copied(p, Put(verdict, "full name", FullName(p).value), CopiedFields)
  }

  /**
   * The loop body of `process_verification_results` for one verdict key: the
   * proposal with that id is looked up, and its name, abbreviations and
   * aliases are written over the verdict (`KeyError` for an id without a
   * proposal or a proposal without the fields, `TypeError` for a verdict or
   * proposal that is not a dict).
   */
  function AnnotatePerson(proposed: Dict<Json>, key: string, verdict: Json): (r: Result<Json>)
    ensures !HasKey(proposed, key) ==> r == Err(KeyError)
    ensures r.Ok? <==> HasKey(proposed, key) && Copyable(Get(proposed, key).value) && verdict.JObj?
    ensures r.Ok? ==> r.value == JObj(AnnotatedPerson(Get(proposed, key).value, verdict.fields))
  {
    var p :- Subscript(JObj(proposed), key);
    var name :- FullName(p);
    var v :- SetItem(verdict, "full name", name);
    IndependentSolutions.CopyFrom(p, v, CopiedFields)
  }

  /** The annotated verdict holds the proposal's name and fields; every other field keeps the verdict's value. */
  lemma AnnotatedPersonFields(p: Json, verdict: Dict<Json>, k: string)
    requires Copyable(p)
    ensures Get(AnnotatedPerson(p, verdict), k) ==
              if k == "full name" then Some(FullName(p).value)
              else if k in CopiedFields then Some(Subscript(p, k).value)
              else Get(verdict, k)
  {
    IndependentSolutions.CopiedGet(p, Put(verdict, "full name", FullName(p).value), CopiedFields, k);
    PutGet(verdict, "full name", FullName(p).value, k);
  }

  /** `AnnotatePerson` for the verdict stored under each key. */
  function AnnotatePersonOf(proposed: Dict<Json>): (string, Json) -> Result<Json>
  {
    (key, verdict) => AnnotatePerson(proposed, key, verdict)
  }

  /**
   * The last loop of `process_verification_results`: for every verdict key,
   * in order, the proposal with that id is looked up and its name,
   * abbreviations and aliases written over the verdict; the first verdict
   * that cannot be annotated stops it with that verdict's error.
   */
  method AnnotatePersons(verdicts: Dict<Json>, proposed: Dict<Json>) returns (r: Result<Dict<Json>>)
    requires Wf(verdicts)
    ensures r.Ok? <==> forall i :: 0 <= i < |verdicts| ==> AnnotatePerson(proposed, verdicts[i].0, verdicts[i].1).Ok?
    ensures r.Ok? ==> |r.value| == |verdicts|
                      && forall i :: 0 <= i < |verdicts| ==>
                           r.value[i] == (verdicts[i].0, AnnotatePerson(proposed, verdicts[i].0, verdicts[i].1).value)
    ensures r.Err? ==> exists j :: && 0 <= j < |verdicts|
                                   && (forall i :: 0 <= i < j ==> AnnotatePerson(proposed, verdicts[i].0, verdicts[i].1).Ok?)
                                   && AnnotatePerson(proposed, verdicts[j].0, verdicts[j].1) == Err(r.error)
  {
    var table := verdicts;
    var i := 0;
    while i < |verdicts|
      invariant MappedUpTo(verdicts, AnnotatePersonOf(proposed), table, i)
    {
      var key := verdicts[i].0;
      var annotated := AnnotatePerson(proposed, key, verdicts[i].1);
      if annotated.Err? {
        return Err(annotated.error);
      }
      MappedStep(verdicts, AnnotatePersonOf(proposed), table, i);
      table := Put(table, key, annotated.value);
      i := i + 1;
    }
    return Ok(table);
  }

  /**
   * `process_verification_results`: the verdict replies are merged into one
   * dict and every verdict annotated from the last proposal. The result has
   * exactly the verdict keys, each value the verdict with the proposal's
   * name, abbreviations and aliases; a verdict id with no proposal fails.
   */
  method ProcessVerificationResults(replies: seq<string>, proposed: Dict<Json>, loads: Loads) returns (r: Result<Dict<Json>>)
    ensures IndependentSolutions.VerdictsFrom([], replies, loads).Err? ==>
              r == Err(IndependentSolutions.VerdictsFrom([], replies, loads).error)
    ensures r.Ok? ==> && IndependentSolutions.VerdictsFrom([], replies, loads).Ok?
                      && var verdicts := IndependentSolutions.VerdictsFrom([], replies, loads).value;
                         && Keys(r.value) == Keys(verdicts)
                         && forall i :: 0 <= i < |verdicts| ==>
                              && HasKey(proposed, verdicts[i].0) && Copyable(Get(proposed, verdicts[i].0).value)
                              && verdicts[i].1.JObj?
                              && r.value[i].1 == JObj(AnnotatedPerson(Get(proposed, verdicts[i].0).value, verdicts[i].1.fields))
    ensures IndependentSolutions.VerdictsFrom([], replies, loads).Ok? ==>
              var verdicts := IndependentSolutions.VerdictsFrom([], replies, loads).value;
              (exists i :: 0 <= i < |verdicts| && !HasKey(proposed, verdicts[i].0)) ==> r.Err?
  {
    var verdicts :- IndependentSolutions.Verdicts(replies, loads);
    IndependentSolutions.VerdictsFromWf([], replies, loads);
    r := AnnotatePersons(verdicts, proposed);
  }

  // ---------------------------------------------------------------------
  // Categorising the verdicts, solving the issues

  /** `value.pop("reasoning", None)` and then `value.pop("bool", None)`: a dict loses both fields and keeps the rest. */
  function Stripped(v: Json): (r: Json)
    ensures v.JObj? ==> && r.JObj? && !HasKey(r.fields, ReasoningKey) && !HasKey(r.fields, BoolKey)
                        && forall k :: k != ReasoningKey && k != BoolKey ==> Get(r.fields, k) == Get(v.fields, k)
    ensures !v.JObj? ==> r == v
  {
    match v
    case JObj(fields) =>
      var f := Remove(Remove(fields, ReasoningKey), BoolKey);
      assert forall k :: k != ReasoningKey && k != BoolKey ==> Get(f, k) == Get(fields, k) by {
        forall k | k != ReasoningKey && k != BoolKey ensures Get(f, k) == Get(fields, k) {
          RemoveGet(Remove(fields, ReasoningKey), BoolKey, k);
          RemoveGet(fields, ReasoningKey, k);
        }
      }
      JObj(f)
    case _ => v
  }

  /** Every value of a table stripped, the keys and their order kept. */
  function StrippedAll(entries: Dict<Json>): (r: Dict<Json>)
    ensures |r| == |entries|
    ensures forall i :: 0 <= i < |entries| ==> r[i] == (entries[i].0, Stripped(entries[i].1))
  {
    seq(|entries|, i requires 0 <= i < |entries| => (entries[i].0, Stripped(entries[i].1)))
  }

  lemma StrippedAllSnoc(entries: Dict<Json>, e: (string, Json))
    ensures StrippedAll(entries + [e]) == StrippedAll(entries) + [(e.0, Stripped(e.1))]
  {
  }

  /** Stripping keeps the keys, and a proper dict stays proper with each value stripped. */
  lemma StrippedAllGet(entries: Dict<Json>, k: string)
    ensures HasKey(StrippedAll(entries), k) <==> HasKey(entries, k)
    ensures Wf(entries) ==> Wf(StrippedAll(entries))
    ensures Wf(entries) && HasKey(entries, k) ==> Get(StrippedAll(entries), k) == Some(Stripped(Get(entries, k).value))
  {
    var u := StrippedAll(entries);
    assert Keys(u) == Keys(entries);
    if HasKey(entries, k) {
      var j :| 0 <= j < |entries| && entries[j].0 == k;
      assert u[j].0 == k;
    }
  }

  /** The correct persons of a verdict table, stripped of `reasoning` and `bool`. */
  function CorrectPersons(entries: Dict<Json>): Dict<Json>
    requires IndependentSolutions.AllJudged(entries)
  {
    StrippedAll(IndependentSolutions.WithVerdict(entries, true))
  }

  /** The wrong persons of a verdict table, with all their fields. */
  function WrongPersons(entries: Dict<Json>): Dict<Json>
    requires IndependentSolutions.AllJudged(entries)
  {
    IndependentSolutions.WithVerdict(entries, false)
  }

  /** One more verdict joins the correct persons, stripped, or the wrong ones, as its `bool` says. */
  lemma PartitionPersonsStep(entries: Dict<Json>, i: nat)
    requires i < |entries| && Wf(entries) && IndependentSolutions.AllJudged(entries[..i + 1])
    ensures IndependentSolutions.AllJudged(entries[..i])
    ensures IndependentSolutions.IsCorrect(entries[i].1) ==>
              && CorrectPersons(entries[..i + 1]) == Put(CorrectPersons(entries[..i]), entries[i].0, Stripped(entries[i].1))
              && WrongPersons(entries[..i + 1]) == WrongPersons(entries[..i])
    ensures !IndependentSolutions.IsCorrect(entries[i].1) ==>
              && CorrectPersons(entries[..i + 1]) == CorrectPersons(entries[..i])
              && WrongPersons(entries[..i + 1]) == Put(WrongPersons(entries[..i]), entries[i].0, entries[i].1)
  {
    IndependentSolutions.WithVerdictSnoc(entries, i, true);
    IndependentSolutions.WithVerdictSnoc(entries, i, false);
    PrefixLacksNext(entries, i);
    StrippedAllGet(IndependentSolutions.WithVerdict(entries[..i], true), entries[i].0);
    StrippedAllSnoc(IndependentSolutions.WithVerdict(entries[..i], true), entries[i]);
  }

  /**
   * The loop of `categorize_solutions`: an entry whose `bool` is truthy
   * loses `reasoning` and `bool` and joins the correct persons; any other
   * joins the wrong persons unchanged. An entry without a usable `bool`
   * stops it with that error.
   */
  method PartitionPersons(entries: Dict<Json>) returns (r: Result<(Dict<Json>, Dict<Json>)>)
    ensures r.Ok? <==> IndependentSolutions.AllJudged(entries)
    ensures r.Err? ==> r.error in {KeyError, TypeError}
    ensures r.Ok? && Wf(entries) ==> r.value.0 == CorrectPersons(entries) && r.value.1 == WrongPersons(entries)
  {
    var correct: Dict<Json> := [];
    var wrong: Dict<Json> := [];
    var i := 0;
    while i < |entries|
      invariant 0 <= i <= |entries|
      invariant IndependentSolutions.AllJudged(entries[..i])
      invariant Wf(entries) ==> correct == CorrectPersons(entries[..i]) && wrong == WrongPersons(entries[..i])
    {
      var (key, value) := entries[i];
      var b := Subscript(value, BoolKey);
      if b.Err? {
        assert !IndependentSolutions.Judged(entries[i].1);
        return Err(b.error);
      }
      IndependentSolutions.AllJudgedSnoc(entries, i);
      if Wf(entries) {
        PartitionPersonsStep(entries, i);
      }
      if Truthy(b.value) {
        var withoutReasoning := PopKey(value, ReasoningKey).value;
        var withoutBool := PopKey(withoutReasoning, BoolKey).value;
        correct := Put(correct, key, withoutBool);
      } else {
        wrong := Put(wrong, key, value);
      }
      i := i + 1;
    }
    Seqs.TakeTake(entries, i, i);
    return Ok((correct, wrong));
  }

  /**
   * The two tables split a proper verdict table: every key is in exactly
   * one of them, the one its `bool` names; a correct person holds its
   * verdict stripped of `reasoning` and `bool`, a wrong one its verdict as
   * it was.
   */
  lemma CategorizedPersons(entries: Dict<Json>, k: string)
    requires IndependentSolutions.AllJudged(entries) && Wf(entries)
    ensures HasKey(entries, k) <==> HasKey(CorrectPersons(entries), k) || HasKey(WrongPersons(entries), k)
    ensures !(HasKey(CorrectPersons(entries), k) && HasKey(WrongPersons(entries), k))
    ensures HasKey(CorrectPersons(entries), k) ==>
              && IndependentSolutions.IsCorrect(Get(entries, k).value)
              && Get(CorrectPersons(entries), k) == Some(Stripped(Get(entries, k).value))
    ensures HasKey(WrongPersons(entries), k) ==>
              && !IndependentSolutions.IsCorrect(Get(entries, k).value)
              && Get(WrongPersons(entries), k) == Get(entries, k)
  {
    var correct := IndependentSolutions.WithVerdict(entries, true);
    IndependentSolutions.PartitionSplitsKeys(entries, k);
    IndependentSolutions.WithVerdictGet(entries, true, k);
    IndependentSolutions.WithVerdictGet(entries, false, k);
    StrippedAllGet(correct, k);
    if HasKey(correct, k) {
      IndependentSolutions.WithVerdictAgrees(entries, true, k);
    }
    if HasKey(WrongPersons(entries), k) {
      IndependentSolutions.WithVerdictAgrees(entries, false, k);
    }
  }

  /**
   * `categorize_solutions`: the last verdict text is decoded and its entries
   * split into correct and wrong persons.
   */
  method CategorizeSolutions(verifySolutions: seq<string>, loads: Loads) returns (r: Result<(Dict<Json>, Dict<Json>)>)
    ensures verifySolutions == [] ==> r == Err(IndexError)
    ensures verifySolutions != [] && Decode(loads, Dyn.Last(verifySolutions)).Err? ==> r == Err(JsonDecodeError)
    ensures verifySolutions != [] && Decode(loads, Dyn.Last(verifySolutions)).Ok? && !Decode(loads, Dyn.Last(verifySolutions)).value.JObj? ==>
              r == Err(AttributeError)
    ensures r.Ok? ==> && verifySolutions != [] && Decode(loads, Dyn.Last(verifySolutions)).Ok?
                      && var entries := Decode(loads, Dyn.Last(verifySolutions)).value.fields;
                         && IndependentSolutions.AllJudged(entries)
                         && (Wf(entries) ==> r.value == (CorrectPersons(entries), WrongPersons(entries)))
  {
    if verifySolutions == [] {
      return Err(IndexError);
    }
    var table :- Decode(loads, Dyn.Last(verifySolutions));
    var entries :- Items(table);
    r := PartitionPersons(entries);
  }

  /** The loop of `solve_issues`: every freshly tagged person is assigned into the correct persons, in order. */
  method MergePersons(correct: Dict<Json>, tagged: Dict<Json>) returns (merged: Dict<Json>)
    ensures merged == Update(correct, tagged)
  {
    merged := correct;
    var i := 0;
    while i < |tagged|
      invariant 0 <= i <= |tagged|
      invariant Update(correct, tagged) == Update(merged, tagged[i..])
    {
      UpdateStep(merged, tagged, i);
      merged := Put(merged, tagged[i].0, tagged[i].1);
      i := i + 1;
    }
  }

  /**
   * The rest of `solve_issues` once the issue reply is in: its persons are
   * tagged with fresh ids and assigned into the correct persons; `drawn`
   * ids are used.
   */
  method MergeIssueReply(reply: string, correct: Dict<Json>, loads: Loads, uuid: IndependentSolutions.Uuids, next: nat)
    returns (r: Result<Dict<Json>>, drawn: nat)
    ensures r.Ok? <==> PersonsOf(reply, loads).Ok?
    ensures r.Err? ==> r.error == PersonsOf(reply, loads).error && drawn == 0
    ensures r.Ok? ==> && r.value == Update(correct, TaggedPersons(uuid, next, PersonsOf(reply, loads).value))
                      && drawn == |PersonsOf(reply, loads).value|
  {
    var tagged;
    tagged, drawn := AddUuidToPerson(reply, loads, uuid, next);
    var uuidDict :- tagged;
    var merged := MergePersons(correct, uuidDict);
    r := Ok(merged);
  }

  /** The tagged persons form a proper dict. */
  lemma {:induction false} TaggedPersonsWf(uuid: IndependentSolutions.Uuids, next: nat, items: seq<Json>)
    ensures Wf(TaggedPersons(uuid, next, items))
    decreases |items|
  {
    if items != [] {
      TaggedPersonsWf(uuid, next, items[..|items| - 1]);
      PutWf(TaggedPersons(uuid, next, items[..|items| - 1]), uuid(next + |items| - 1), items[|items| - 1]);
    }
  }

  /**
   * The new proposal of `solve_issues`: its keys are the correct persons'
   * and the freshly drawn ids; a drawn id holds its tagged person and every
   * other key its stripped verdict. A wrong person's id is therefore absent
   * unless the generator hands it out again.
   */
  lemma SolvedProposal(entries: Dict<Json>, uuid: IndependentSolutions.Uuids, next: nat, items: seq<Json>, k: string)
    requires IndependentSolutions.AllJudged(entries) && Wf(entries)
    ensures var merged := Update(CorrectPersons(entries), TaggedPersons(uuid, next, items));
            && Wf(merged)
            && (HasKey(merged, k) <==> HasKey(CorrectPersons(entries), k) || HasKey(TaggedPersons(uuid, next, items), k))
            && Get(merged, k) == if HasKey(TaggedPersons(uuid, next, items), k) then Get(TaggedPersons(uuid, next, items), k)
                                 else Get(CorrectPersons(entries), k)
    ensures HasKey(WrongPersons(entries), k) && (forall j :: next <= j < next + |items| ==> uuid(j) != k) ==>
              !HasKey(Update(CorrectPersons(entries), TaggedPersons(uuid, next, items)), k)
  {
    var correct := CorrectPersons(entries);
    var tagged := TaggedPersons(uuid, next, items);
    IndependentSolutions.WithVerdictWf(entries, true);
    StrippedAllGet(IndependentSolutions.WithVerdict(entries, true), k);
    TaggedPersonsWf(uuid, next, items);
    UpdateWf(correct, tagged);
    UpdateHasKey(correct, tagged, k);
    UpdateGet(correct, tagged, k);
    CategorizedPersons(entries, k);
    if HasKey(tagged, k) {
      TaggedPersonsKeys(uuid, next, items, k);
    }
  }

  /**
   * `end_conversation`: `{}` when no verification ran, otherwise the last
   * proposal (`IndexError` if there is none).
   */
  function EndConversation(verifySolutions: seq<string>, proposedSolutions: seq<Dict<Json>>): (r: Result<Dict<Json>>)
    ensures verifySolutions == [] ==> r == Ok([])
    ensures verifySolutions != [] ==> (r.Ok? <==> proposedSolutions != [])
    ensures verifySolutions != [] && r.Ok? ==> r.value == Dyn.Last(proposedSolutions)
    ensures r.Err? ==> r.error == IndexError
  {
    if verifySolutions == [] then Ok([])
    else if proposedSolutions == [] then Err(IndexError)
    else Ok(Dyn.Last(proposedSolutions))
  }

  // ---------------------------------------------------------------------
  // The replies the controller asks for

  /** The reply to the extraction request, sent with the extraction prompt. */
  function ExtractionReply(s: Services, prompt: string, text: string): string
  {
    s.chat(Request(prompt, [User(s.dedent(ExtractionRequest(s.persons, text)))]))
  }

  /** The reply to the verification request of one proposed person. */
  function VerificationReply(s: Services, prompt: string, text: string, entry: (string, Json)): string
  {
    s.chat(Request(prompt, [User(VerificationRequest(entry.0, s.repr(entry.1), text))]))
  }

  /**
   * The replies of `send_solutions_for_verification`: one per proposed
   * person, in order, each sent with the verifying prompt; with no person
   * nothing is sent, so no prompt is needed.
   */
  function VerificationReplies(s: Services, prompts: map<string, Option<string>>, text: string, entries: Dict<Json>): (r: Result<seq<string>>)
    ensures entries == [] ==> r == Ok([])
    ensures entries != [] ==> (r.Ok? <==> Loaded(prompts, Dyn.Verifying).Ok?)
    ensures r.Err? ==> r.error == Loaded(prompts, Dyn.Verifying).error
    ensures r.Ok? ==> |r.value| == |entries|
                      && forall i :: 0 <= i < |entries| ==>
                           r.value[i] == VerificationReply(s, Loaded(prompts, Dyn.Verifying).value, text, entries[i])
  {
    if entries == [] then Ok([])
    else
      var prompt :- Loaded(prompts, Dyn.Verifying);
      Ok(seq(|entries|, i requires 0 <= i < |entries| => VerificationReply(s, prompt, text, entries[i])))
  }

  /** The reply to the issue request, both tables rendered by `json.dumps`. */
  function IssueReply(s: Services, prompt: string, text: string, correct: Dict<Json>, wrong: Dict<Json>): string
  {
    s.chat(Request(prompt, [User(IssueRequest(text, s.dumps(JObj(correct)), s.dumps(JObj(wrong))))]))
  }

  /** What the meta expert is shown: the start message before any step, the whole transcript after. */
  function MetaHistory(stepQueue: seq<string>, conversation: seq<Message>): seq<Message>
  {
    if stepQueue == [] then [User(StartPrompt)] else conversation
  }

  /** The meta expert's reply deciding the next step. */
  function MetaReply(s: Services, stepQueue: seq<string>, conversation: seq<Message>): string
  {
    s.chat(Request(s.metaExpertPrompt, MetaHistory(stepQueue, conversation)))
  }

  /**
   * What `solve_issues` computes from a verdict text that decodes to a
   * proper table of judged entries: the correct persons updated with the
   * persons of the issue reply, tagged with the ids drawn from `next`.
   */
  ghost predicate IssueSolved(s: Services, prompts: map<string, Option<string>>, text: string, verifySolutions: seq<string>,
                              next: nat, proposal: Dict<Json>)
  {
    && verifySolutions != [] && Decode(s.loads, Dyn.Last(verifySolutions)).Ok?
    && Decode(s.loads, Dyn.Last(verifySolutions)).value.JObj?
    && Loaded(prompts, Dyn.Issue).Ok?
    && var entries := Decode(s.loads, Dyn.Last(verifySolutions)).value.fields;
       && IndependentSolutions.AllJudged(entries)
       && (Wf(entries) ==>
             var reply := IssueReply(s, Loaded(prompts, Dyn.Issue).value, text, CorrectPersons(entries), WrongPersons(entries));
             && PersonsOf(reply, s.loads).Ok?
             && proposal == Update(CorrectPersons(entries), TaggedPersons(s.uuid, next, PersonsOf(reply, s.loads).value)))
  }

  /**
   * `solve_issues` up to recording: the last verdicts are split into
   * correct and wrong persons, the issue request sent with the issue
   * prompt, and the reply's persons, tagged with fresh ids, assigned into
   * the correct ones; `drawn` ids are used.
   */
  method SolveIssuesFor(s: Services, prompts: map<string, Option<string>>, text: string, verifySolutions: seq<string>, next: nat)
    returns (r: Result<Dict<Json>>, drawn: nat)
    ensures verifySolutions == [] ==> r == Err(IndexError)
    ensures verifySolutions != [] && Decode(s.loads, Dyn.Last(verifySolutions)).Err? ==> r == Err(JsonDecodeError)
    ensures r.Ok? ==> IssueSolved(s, prompts, text, verifySolutions, next, r.value)
  {
    drawn := 0;
    var parts :- CategorizeSolutions(verifySolutions, s.loads);
    var issuePrompt :- Loaded(prompts, Dyn.Issue);
    var reply := SendPrompt(s.chat, issuePrompt, [User(IssueRequest(text, s.dumps(JObj(parts.0)), s.dumps(JObj(parts.1))))]);
    r, drawn := MergeIssueReply(reply, parts.0, s.loads, s.uuid, next);
  }

  // ---------------------------------------------------------------------
  // The controller

  /**
   * `MetaExpertConversation` of the static controller. `stepQueue` holds
   * the decided steps' words (`step_queue[i]["Next"]`), the proposals are
   * dicts keyed by person id and the verdicts JSON text.
   */
  class Conversation {
    const services: Services
    const text: string
    var conversation: seq<Message>
    var responses: seq<string>
    var stepQueue: seq<string>
    var proposedSolutions: seq<Dict<Json>>
    var verifySolutions: seq<string>
    var generatedPrompts: map<string, Option<string>>
    /** How many ids the generator has handed out. */
    var idsDrawn: nat

    /**
     * The three prompt types stay present, and a verdict table is only ever
     * recorded once a proposal exists.
     */
    predicate Valid()
      reads this
    {
      && InitialPrompts.Keys <= generatedPrompts.Keys
      && (|verifySolutions| > 0 ==> |proposedSolutions| > 0)
    }

    /** The fields `__init__` sets before loading: empty lists and no prompt loaded. */
    constructor (services: Services, text: string)
      ensures Valid()
      ensures this.services == services && this.text == text
      ensures conversation == [] && responses == [] && stepQueue == []
      ensures proposedSolutions == [] && verifySolutions == [] && idsDrawn == 0
      ensures generatedPrompts == InitialPrompts
    {
      this.services := services;
      this.text := text;
      conversation := [];
      responses := [];
      stepQueue := [];
      proposedSolutions := [];
      verifySolutions := [];
      generatedPrompts := InitialPrompts;
      idsDrawn := 0;
    }

    /**
     * `load_generated_prompts` over the listing of the prompt folder, each
     * file given with its text: every file's type is assigned its text, in
     * listing order; a name without `_` raises `IndexError`.
     */
    method LoadGeneratedPrompts(files: seq<(string, string)>) returns (r: Result<()>)
      requires Valid()
      modifies this`generatedPrompts
      ensures Valid()
      ensures r.Ok? <==> LoadFrom(old(generatedPrompts), files).Ok?
      ensures r.Err? ==> r.error == IndexError
      ensures r.Ok? ==> generatedPrompts == LoadFrom(old(generatedPrompts), files).value
    {
      var i := 0;
      while i < |files|
        invariant 0 <= i <= |files|
        invariant LoadFrom(old(generatedPrompts), files) == LoadFrom(generatedPrompts, files[i..])
        invariant InitialPrompts.Keys <= generatedPrompts.Keys
      {
        LoadFromAt(generatedPrompts, files, i);
        var t :- FileType(files[i].0);
        generatedPrompts := generatedPrompts[t := Some(files[i].1)];
        i := i + 1;
      }
      assert files[i..] == [];
      r := Ok(());
    }

    /**
     * `add_next_step_meta_to_conversation`: the next-step prompt, naming the
     * step just taken and its response, joins the transcript as a user
     * message.
     */
    method AddNextStepMeta(response: string)
      requires |stepQueue| > 0
      modifies this`conversation
      ensures conversation == old(conversation) + [User(NextStepPrompt(services.nextStepMetaPrompt, Dyn.Last(stepQueue), response))]
    {
      var prompt := NextStepPrompt(services.nextStepMetaPrompt, Dyn.Last(stepQueue), response);
      conversation := conversation + [User(prompt)];
    }

    /**
     * The recording half of `extract_individuals`: the extraction reply is
     * kept as a response, and its persons, tagged with fresh ids, become a
     * new proposal.
     */
    method RecordExtraction() returns (r: Result<Dict<Json>>)
      modifies this`responses, this`proposedSolutions, this`idsDrawn
      ensures Loaded(generatedPrompts, Dyn.Extracting).Err? ==>
                && r == Err(Loaded(generatedPrompts, Dyn.Extracting).error)
                && responses == old(responses) && proposedSolutions == old(proposedSolutions) && idsDrawn == old(idsDrawn)
      ensures Loaded(generatedPrompts, Dyn.Extracting).Ok? ==>
                var reply := ExtractionReply(services, Loaded(generatedPrompts, Dyn.Extracting).value, text);
                && responses == old(responses) + [reply]
                && (r.Ok? <==> PersonsOf(reply, services.loads).Ok?)
                && (r.Err? ==> && r.error == PersonsOf(reply, services.loads).error
                               && proposedSolutions == old(proposedSolutions) && idsDrawn == old(idsDrawn))
                && (r.Ok? ==> && r.value == TaggedPersons(services.uuid, old(idsDrawn), PersonsOf(reply, services.loads).value)
                              && proposedSolutions == old(proposedSolutions) + [r.value]
                              && idsDrawn == old(idsDrawn) + |PersonsOf(reply, services.loads).value|)
    {
      var prompt :- Loaded(generatedPrompts, Dyn.Extracting);
      var reply := SendPrompt(services.chat, prompt, [User(services.dedent(ExtractionRequest(services.persons, text)))]);
      responses := responses + [reply];
      var tagged, drawn := AddUuidToPerson(Dyn.Last(responses), services.loads, services.uuid, idsDrawn);
      idsDrawn := idsDrawn + drawn;
      var personDict :- tagged;
      proposedSolutions := proposedSolutions + [personDict];
      r := Ok(personDict);
    }

    /** `extract_individuals`: the extraction is recorded and the meta expert told the tagged persons. */
    method ExtractIndividuals() returns (r: Result<()>)
      requires Valid() && |stepQueue| > 0
      modifies this`responses, this`proposedSolutions, this`idsDrawn, this`conversation
      ensures Valid()
      ensures r.Ok? ==> |proposedSolutions| == old(|proposedSolutions|) + 1 && proposedSolutions[..old(|proposedSolutions|)] == old(proposedSolutions)
      ensures r.Ok? ==> conversation == old(conversation) + [User(NextStepPrompt(services.nextStepMetaPrompt, Dyn.Last(stepQueue),
                                                                                 services.dumps(JObj(Dyn.Last(proposedSolutions)))))]
      ensures r.Err? ==> proposedSolutions == old(proposedSolutions) && conversation == old(conversation)
    {
      var personDict :- RecordExtraction();
      AddNextStepMeta(services.dumps(JObj(personDict)));
      r := Ok(());
    }

    /**
     * `send_solutions_for_verification`: one verification request per
     * person of the last proposal, in order; the replies are collected in
     * the same order.
     */
    method SendSolutionsForVerification() returns (r: Result<seq<string>>)
      ensures proposedSolutions == [] ==> r == Err(IndexError)
      ensures proposedSolutions != [] ==> r == VerificationReplies(services, generatedPrompts, text, Dyn.Last(proposedSolutions))
    {
      if proposedSolutions == [] {
        return Err(IndexError);
      }
      var entries := Dyn.Last(proposedSolutions);
      if entries == [] {
        return Ok([]);
      }
      var prompt :- Loaded(generatedPrompts, Dyn.Verifying);
      var results: seq<string> := [];
      var i := 0;
      while i < |entries|
        invariant 0 <= i <= |entries| && |results| == i
        invariant forall j :: 0 <= j < i ==> results[j] == VerificationReply(services, prompt, text, entries[j])
      {
        var reply := SendPrompt(services.chat, prompt, [User(VerificationRequest(entries[i].0, services.repr(entries[i].1), text))]);
        results := results + [reply];
        i := i + 1;
      }
      assert results == VerificationReplies(services, generatedPrompts, text, entries).value;
      r := Ok(results);
    }

    /**
     * The recording half of `verify_solution`: the verdicts on the last
     * proposal are annotated and recorded as JSON text.
     */
    method RecordVerification() returns (r: Result<Dict<Json>>)
      modifies this`verifySolutions
      ensures proposedSolutions == [] ==> r == Err(IndexError)
      ensures r.Err? ==> verifySolutions == old(verifySolutions)
      ensures r.Ok? ==> && proposedSolutions != []
                        && verifySolutions == old(verifySolutions) + [services.dumps(JObj(r.value))]
      ensures r.Ok? ==> && VerificationReplies(services, generatedPrompts, text, Dyn.Last(proposedSolutions)).Ok?
                        && var replies := VerificationReplies(services, generatedPrompts, text, Dyn.Last(proposedSolutions)).value;
                           && IndependentSolutions.VerdictsFrom([], replies, services.loads).Ok?
                           && var verdicts := IndependentSolutions.VerdictsFrom([], replies, services.loads).value;
                              && Keys(r.value) == Keys(verdicts)
                              && forall i :: 0 <= i < |verdicts| ==>
                                   && HasKey(Dyn.Last(proposedSolutions), verdicts[i].0)
                                   && Copyable(Get(Dyn.Last(proposedSolutions), verdicts[i].0).value) && verdicts[i].1.JObj?
                                   && r.value[i].1 == JObj(AnnotatedPerson(Get(Dyn.Last(proposedSolutions), verdicts[i].0).value,
                                                                           verdicts[i].1.fields))
    {
      var results :- SendSolutionsForVerification();
      var processed :- ProcessVerificationResults(results, Dyn.Last(proposedSolutions), services.loads);
      verifySolutions := verifySolutions + [services.dumps(JObj(processed))];
      r := Ok(processed);
    }

    /** `verify_solution`: the verdicts are recorded and the meta expert told their text. */
    method VerifySolution() returns (r: Result<()>)
      requires Valid() && |stepQueue| > 0
      modifies this`verifySolutions, this`conversation
      ensures Valid()
      ensures proposedSolutions == [] ==> r.Err?
      ensures r.Ok? ==> |verifySolutions| == old(|verifySolutions|) + 1 && verifySolutions[..old(|verifySolutions|)] == old(verifySolutions)
      ensures r.Ok? ==> conversation == old(conversation) + [User(NextStepPrompt(services.nextStepMetaPrompt, Dyn.Last(stepQueue),
                                                                                 Dyn.Last(verifySolutions)))]
      ensures r.Err? ==> verifySolutions == old(verifySolutions) && conversation == old(conversation)
    {
      var verified :- RecordVerification();
      AddNextStepMeta(Dyn.Last(verifySolutions));
      r := Ok(());
    }

    /**
     * The recording half of `solve_issues`: the new proposal is computed from
     * the last verdicts and recorded; the ids it drew are used.
     */
    method RecordIssueSolutions() returns (r: Result<Dict<Json>>)
      modifies this`proposedSolutions, this`idsDrawn
      ensures verifySolutions == [] ==> r == Err(IndexError)
      ensures verifySolutions != [] && Decode(services.loads, Dyn.Last(verifySolutions)).Err? ==> r == Err(JsonDecodeError)
      ensures r.Err? ==> proposedSolutions == old(proposedSolutions)
      ensures r.Ok? ==> proposedSolutions == old(proposedSolutions) + [r.value]
      ensures r.Ok? ==> IssueSolved(services, generatedPrompts, text, verifySolutions, old(idsDrawn), r.value)
    {
      var solved, drawn := SolveIssuesFor(services, generatedPrompts, text, verifySolutions, idsDrawn);
      idsDrawn := idsDrawn + drawn;
      var finalResult :- solved;
      proposedSolutions := proposedSolutions + [finalResult];
      r := Ok(finalResult);
    }

    /** `solve_issues`: the new proposal is recorded and the meta expert told its text. */
    method SolveIssues() returns (r: Result<()>)
      requires Valid() && |stepQueue| > 0
      modifies this`proposedSolutions, this`idsDrawn, this`conversation
      ensures Valid()
      ensures verifySolutions == [] ==> r.Err?
      ensures r.Ok? ==> |proposedSolutions| == old(|proposedSolutions|) + 1 && proposedSolutions[..old(|proposedSolutions|)] == old(proposedSolutions)
      ensures r.Ok? ==> conversation == old(conversation) + [User(NextStepPrompt(services.nextStepMetaPrompt, Dyn.Last(stepQueue),
                                                                                 services.dumps(JObj(Dyn.Last(proposedSolutions)))))]
      ensures r.Err? ==> proposedSolutions == old(proposedSolutions) && conversation == old(conversation)
    {
      var finalResult :- RecordIssueSolutions();
      AddNextStepMeta(services.dumps(JObj(finalResult)));
      r := Ok(());
    }
  
    /**
     * `take_next_step`: the last decided step is carried out. `end` returns
     * the conversation's result and changes nothing; a step outside the
     * known ones is a `ValueError` and changes nothing.
     */
    method TakeNextStep() returns (r: Result<Option<Dict<Json>>>)
      requires Valid()
      modifies this`responses, this`proposedSolutions, this`verifySolutions, this`idsDrawn, this`conversation
      ensures Valid()
      ensures stepQueue == [] ==> r == Err(IndexError)
      ensures stepQueue != [] && Dyn.Last(stepQueue) !in Dyn.Phases + {Dyn.End} ==> r == Err(ValueError)
      ensures r.Ok? && r.value.Some? ==> stepQueue != [] && Dyn.Last(stepQueue) == Dyn.End
      ensures stepQueue != [] && Dyn.Last(stepQueue) == Dyn.End ==>
                r == (match EndConversation(verifySolutions, proposedSolutions)
                      case Ok(v) => Ok(Some(v))
                      case Err(e) => Err(e))
      ensures stepQueue == [] || Dyn.Last(stepQueue) !in Dyn.Phases ==>
                && conversation == old(conversation)
                && proposedSolutions == old(proposedSolutions) && verifySolutions == old(verifySolutions)
      ensures r.Ok? && r.value.None? ==>
                var step := Dyn.Last(stepQueue);
                && step in Dyn.Phases
                && |conversation| == old(|conversation|) + 1 && conversation[..old(|conversation|)] == old(conversation)
                && |proposedSolutions| == old(|proposedSolutions|) + (if step in {Dyn.Extracting, Dyn.IssuesSolving} then 1 else 0)
                && proposedSolutions[..old(|proposedSolutions|)] == old(proposedSolutions)
                && |verifySolutions| == old(|verifySolutions|) + (if step == Dyn.Verification then 1 else 0)
                && verifySolutions[..old(|verifySolutions|)] == old(verifySolutions)
    {
      if stepQueue == [] {
        return Err(IndexError);
      }
      var step := Dyn.Last(stepQueue);
      if step == Dyn.Extracting {
        var done :- ExtractIndividuals();
        r := Ok(None);
      } else if step == Dyn.Verification {
        var done :- VerifySolution();
        r := Ok(None);
      } else if step == Dyn.IssuesSolving {
        var done :- SolveIssues();
        r := Ok(None);
      } else if step == Dyn.End {
        r := Ok(Some(EndConversation(verifySolutions, proposedSolutions).value));
      } else {
        r := Err(ValueError);
      }
    }

    /**
     * The decision of `generate_next_step`: the meta expert's reply is read
     * for a step, repairing single quotes once; the step is queued, and the
     * transcript gets `Next step: ...` for a step other than `end` and the
     * reply, as held after the repair, for `end`.
     */
    method DecideNextStep() returns (r: Result<()>)
      modifies this`stepQueue, this`conversation
      ensures var reply := MetaReply(services, old(stepQueue), old(conversation));
              && (r.Ok? <==> NextStep.DecideNextStepRepairing(reply).Ok?)
              && (r.Err? ==> && r.error == NextStep.DecideNextStepRepairing(reply).error
                             && stepQueue == old(stepQueue) && conversation == old(conversation))
              && (r.Ok? ==> var step := NextStep.DecideNextStepRepairing(reply).value;
                            && stepQueue == old(stepQueue) + [step]
                            && conversation == old(conversation) + [Assistant(if step != Dyn.End then StepNote(step)
                                                                              else ReplyAfterDecision(reply))])
    {
      var history := MetaHistory(stepQueue, conversation);
      var reply := SendPrompt(services.chat, services.metaExpertPrompt, history);
      var step :- NextStep.DecideNextStepRepairing(reply);
      stepQueue := stepQueue + [step];
      if step != Dyn.End {
        conversation := conversation + [Assistant(StepNote(step))];
      } else {
        conversation := conversation + [Assistant(ReplyAfterDecision(reply))];
      }
      r := Ok(());
    }

    /** `generate_next_step`: exactly one step is queued and one assistant message recorded. */
    method GenerateNextStep() returns (r: Result<()>)
      requires Valid()
      modifies this`stepQueue, this`conversation
      ensures Valid()
      ensures r.Ok? ==> && |stepQueue| == old(|stepQueue|) + 1 && stepQueue[..old(|stepQueue|)] == old(stepQueue)
                        && |conversation| == old(|conversation|) + 1 && conversation[..old(|conversation|)] == old(conversation)
                        && Dyn.Last(conversation).role == "assistant"
      ensures r.Err? ==> stepQueue == old(stepQueue) && conversation == old(conversation)
    {
      r := DecideNextStep();
    }

    /** One round of `conversation_loop`: the pending step is taken and the next one decided. */
    method Round() returns (r: Result<()>)
      requires Valid() && |stepQueue| > 0 && Dyn.Last(stepQueue) != Dyn.End
      modifies this`responses, this`proposedSolutions, this`verifySolutions, this`idsDrawn, this`conversation, this`stepQueue
      ensures Valid()
      ensures r.Ok? ==>
                var step := Dyn.Last(old(stepQueue));
                && step in Dyn.Phases
                && |stepQueue| == old(|stepQueue|) + 1 && stepQueue[..old(|stepQueue|)] == old(stepQueue)
                && |proposedSolutions| == old(|proposedSolutions|) + (if step in {Dyn.Extracting, Dyn.IssuesSolving} then 1 else 0)
                && |verifySolutions| == old(|verifySolutions|) + (if step == Dyn.Verification then 1 else 0)
                && |conversation| == old(|conversation|) + 2
    {
      var taken :- TakeNextStep();
      r := GenerateNextStep();
    }

    /** The last call of `conversation_loop`: `take_next_step` on `end`, which yields the result and changes nothing. */
    method FinishConversation() returns (r: Result<Dict<Json>>)
      requires Valid() && |stepQueue| > 0 && Dyn.Last(stepQueue) == Dyn.End
      modifies this`responses, this`proposedSolutions, this`verifySolutions, this`idsDrawn, this`conversation
      ensures Valid()
      ensures r.Ok? && r == EndConversation(verifySolutions, proposedSolutions)
      ensures conversation == old(conversation)
      ensures proposedSolutions == old(proposedSolutions) && verifySolutions == old(verifySolutions)
    {
      var outcome := TakeNextStep();
      match outcome
      case Err(e) =>
        r := Err(e);
      case Ok(v) =>
        r := Ok(v.value);
    }

    /**
     * The loop of `conversation_loop`: rounds are run until `end` is
     * decided, at most `fuel` of them. The steps from the one pending at the
     * start up to `end` are known steps, and each round added what its step
     * adds.
     */
    method RunRounds(fuel: nat) returns (r: Result<()>)
      requires Valid() && |stepQueue| > 0
      modifies this`responses, this`proposedSolutions, this`verifySolutions, this`idsDrawn, this`conversation, this`stepQueue
      ensures Valid()
      ensures r.Ok? ==> |stepQueue| >= old(|stepQueue|) && stepQueue[..old(|stepQueue|)] == old(stepQueue)
      ensures r.Ok? ==>
                var steps := stepQueue[old(|stepQueue|) - 1..];
                && |steps| <= fuel + 1 && Dyn.Last(steps) == Dyn.End
                && (forall i :: 0 <= i < |steps| - 1 ==> steps[i] in Dyn.Phases)
                && |proposedSolutions| == old(|proposedSolutions|) + Dyn.Count(steps, Dyn.Extracting) + Dyn.Count(steps, Dyn.IssuesSolving)
                && |verifySolutions| == old(|verifySolutions|) + Dyn.Count(steps, Dyn.Verification)
                && |conversation| == old(|conversation|) + 2 * (|steps| - 1)
    {
      ghost var q0 := |stepQueue| - 1;
      ghost var start := stepQueue;
      ghost var p0 := |proposedSolutions|;
      ghost var v0 := |verifySolutions|;
      ghost var c0 := |conversation|;
      ghost var taken: seq<string> := [];
      var n := 0;
      while Dyn.Last(stepQueue) != Dyn.End
        invariant Valid() && |taken| == n && n <= fuel && |stepQueue| == q0 + 1 + n
        invariant stepQueue[..q0 + 1] == start
        invariant stepQueue[q0..] == taken + [Dyn.Last(stepQueue)]
        invariant forall i :: 0 <= i < |taken| ==> taken[i] in Dyn.Phases
        invariant |proposedSolutions| == p0 + Dyn.Count(taken, Dyn.Extracting) + Dyn.Count(taken, Dyn.IssuesSolving)
        invariant |verifySolutions| == v0 + Dyn.Count(taken, Dyn.Verification)
        invariant |conversation| == c0 + 2 * |taken|
        decreases fuel - n
      {
        if n == fuel {
          return Err(StepBoundReached);
        }
        ghost var pending := Dyn.Last(stepQueue);
        ghost var queued := stepQueue;
        var done :- Round();
        assert stepQueue == queued + [Dyn.Last(stepQueue)];
        assert stepQueue[q0..] == queued[q0..] + [Dyn.Last(stepQueue)];
        Dyn.CountSnoc(taken, pending, Dyn.Extracting);
        Dyn.CountSnoc(taken, pending, Dyn.IssuesSolving);
        Dyn.CountSnoc(taken, pending, Dyn.Verification);
        taken := taken + [pending];
        n := n + 1;
      }
      assert stepQueue[q0..] == taken + [Dyn.End];
      Dyn.CountSnoc(taken, Dyn.End, Dyn.Extracting);
      Dyn.CountSnoc(taken, Dyn.End, Dyn.IssuesSolving);
      Dyn.CountSnoc(taken, Dyn.End, Dyn.Verification);
      r := Ok(());
    }

    /**
     * `conversation_loop`: the meta expert decides the first step itself,
     * rounds run until `end` is decided, and what `end` yields is returned.
     * `fuel` bounds the number of rounds. On success the steps decided by
     * this run end with `end` and are known steps before it, each
     * extraction or issue round added one proposal, each verification one
     * verdict table, and each decision and each step one message.
     */
    method ConversationLoop(fuel: nat) returns (r: Result<Dict<Json>>)
      requires Valid()
      modifies this`responses, this`proposedSolutions, this`verifySolutions, this`idsDrawn, this`conversation, this`stepQueue
      ensures Valid()
      ensures r.Ok? ==> |stepQueue| > old(|stepQueue|) && stepQueue[..old(|stepQueue|)] == old(stepQueue)
      ensures r.Ok? ==>
                var steps := stepQueue[old(|stepQueue|)..];
                && |steps| <= fuel + 1 && Dyn.Last(steps) == Dyn.End
                && (forall i :: 0 <= i < |steps| - 1 ==> steps[i] in Dyn.Phases)
                && |proposedSolutions| == old(|proposedSolutions|) + Dyn.Count(steps, Dyn.Extracting) + Dyn.Count(steps, Dyn.IssuesSolving)
                && |verifySolutions| == old(|verifySolutions|) + Dyn.Count(steps, Dyn.Verification)
                && |conversation| == old(|conversation|) + 2 * |steps| - 1
                && r == EndConversation(verifySolutions, proposedSolutions)
    {
      var decided :- GenerateNextStep();
      var ran :- RunRounds(fuel);
      r := FinishConversation();
    }
  }

  /**
   * `__init__`: a controller with empty lists whose generated prompts are
   * loaded from the listing of the prompt folder; a file name without `_`
   * makes the construction fail with `IndexError`.
   */
  method Open(services: Services, text: string, files: seq<(string, string)>) returns (r: Result<Conversation>)
    ensures r.Ok? <==> LoadFrom(InitialPrompts, files).Ok?
    ensures r.Err? ==> r.error == IndexError
    ensures r.Ok? ==> && fresh(r.value) && r.value.Valid()
                      && r.value.services == services && r.value.text == text
                      && r.value.generatedPrompts == LoadFrom(InitialPrompts, files).value
                      && r.value.conversation == [] && r.value.responses == [] && r.value.stepQueue == []
                      && r.value.proposedSolutions == [] && r.value.verifySolutions == [] && r.value.idsDrawn == 0
  {
    var c := new Conversation(services, text);
    var loaded :- c.LoadGeneratedPrompts(files);
    r := Ok(c);
  }
}
