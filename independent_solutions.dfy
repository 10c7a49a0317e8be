// The solution tables of the meta prompter for independent PII: every
// proposed solution is one entry `{solution_id: {...}}`, verification
// verdicts carry a `bool` field, and tables are dicts keyed by solution id.

module IndependentSolutions {
  import opened Wrappers
  import opened Dicts
  import opened Json
  import opened Seqs
  import opened Llm

  /** The id generator: the `n`-th id drawn (`str(uuid.uuid4())[:16]`). */
  type Uuids = nat -> string

  /** A list of one-entry dicts `[{id: v}, ...]` is kept as the sequence of its entries. */

  /** The items of `solution["extracted_information"]`, as the loop over them visits them. */
  function SolutionItems(solution: Json): (r: Result<seq<Json>>)
    ensures r.Ok? <==> && Subscript(solution, "extracted_information").Ok?
                       && Iterate(Subscript(solution, "extracted_information").value).Ok?
    ensures r.Err? ==> r.error in {KeyError, TypeError}
    ensures solution.JObj? && !HasKey(solution.fields, "extracted_information") ==> r == Err(KeyError)
  {
    var info :- Subscript(solution, "extracted_information");
    Iterate(info)
  }

  /** Every item under its own id, the `i`-th item under the `next + i`-th id drawn. */
  function FreshlyTagged(items: seq<Json>, uuid: Uuids, next: nat): (r: Dict<Json>)
    ensures |r| == |items|
    ensures Values(r) == items
    ensures forall i :: 0 <= i < |items| ==> r[i].0 == uuid(next + i)
  {
    seq(|items|, i requires 0 <= i < |items| => (uuid(next + i), items[i]))
  }

  /**
   * `add_uuid_to_solution`: every item of `solution["extracted_information"]`
   * becomes one entry under a fresh id, in order. A missing key is a
   * `KeyError`, a non-dict solution or non-iterable value a `TypeError`.
   */
  method AddUuidToSolution(solution: Json, uuid: Uuids, next: nat) returns (r: Result<Dict<Json>>)
    ensures r.Ok? <==> Subscript(solution, "extracted_information").Ok?
                       && Iterate(Subscript(solution, "extracted_information").value).Ok?
    ensures r.Err? ==> r.error in {KeyError, TypeError}
    ensures r.Ok? ==> var items := Iterate(Subscript(solution, "extracted_information").value).value;
                      && |r.value| == |items|
                      && forall i :: 0 <= i < |items| ==> r.value[i] == (uuid(next + i), items[i])
    ensures SolutionItems(solution).Err? ==> r == Err(SolutionItems(solution).error)
    ensures SolutionItems(solution).Ok? ==> r == Ok(FreshlyTagged(SolutionItems(solution).value, uuid, next))
  {
    var info :- Subscript(solution, "extracted_information");
    var items :- Iterate(info);
    var listed: Dict<Json> := [];
    var i := 0;
    while i < |items|
      invariant 0 <= i <= |items|
      invariant |listed| == i
      invariant forall j :: 0 <= j < i ==> listed[j] == (uuid(next + j), items[j])
    {
      listed := listed + [(uuid(next + i), items[i])];
      i := i + 1;
    }
    assert listed == FreshlyTagged(items, uuid, next);
    return Ok(listed);
  }

  /** Distinct draws give distinct ids, so the tagged entries form a proper dict. */
  lemma FreshIdsWellFormed(uuid: Uuids, next: nat, tagged: Dict<Json>)
    requires forall a: nat, b: nat :: a != b ==> uuid(a) != uuid(b)
    requires forall i :: 0 <= i < |tagged| ==> tagged[i].0 == uuid(next + i)
    ensures Wf(tagged)
  {
  }

  /** The verdict of one solution: `value["bool"]` read as a truth value. */
  predicate Judged(value: Json)
  {
    Subscript(value, BoolKey).Ok?
  }

  predicate IsCorrect(value: Json)
    requires Judged(value)
  {
    Truthy(Subscript(value, BoolKey).value)
  }

  predicate AllJudged(entries: Dict<Json>)
  {
    forall i :: 0 <= i < |entries| ==> Judged(entries[i].1)
  }

  /** The entries whose verdict is `verdict`, in order. */
  function WithVerdict(entries: Dict<Json>, verdict: bool): (r: Dict<Json>)
    requires AllJudged(entries)
    ensures forall k :: HasKey(r, k) ==> HasKey(entries, k)
    decreases |entries|
  {
    if |entries| == 0 then []
    else
      var init := entries[..|entries| - 1];
      var last := entries[|entries| - 1];
      assert forall k :: HasKey(init, k) ==> HasKey(entries, k) by {
        forall k | HasKey(init, k) ensures HasKey(entries, k) {
          var j :| 0 <= j < |init| && init[j].0 == k;
          assert entries[j] == init[j];
        }
      }
      WithVerdict(init, verdict) + (if IsCorrect(last.1) == verdict then [last] else [])
  }

  /** One more judged entry keeps the prefix judged. */
  lemma AllJudgedSnoc(entries: Dict<Json>, i: nat)
    requires i < |entries| && AllJudged(entries[..i]) && Judged(entries[i].1)
    ensures AllJudged(entries[..i + 1])
  {
    TakeTake(entries, i + 1, i);
  }

  lemma WithVerdictSnoc(entries: Dict<Json>, i: nat, verdict: bool)
    requires i < |entries| && AllJudged(entries[..i + 1])
    ensures AllJudged(entries[..i])
    ensures WithVerdict(entries[..i + 1], verdict)
            == WithVerdict(entries[..i], verdict) + (if IsCorrect(entries[i].1) == verdict then [entries[i]] else [])
  {
    assert entries[..i + 1][..i] == entries[..i];
  }

  /** In a proper dict, one more entry is put on the side its verdict names and leaves the other alone. */
  lemma PartitionStep(entries: Dict<Json>, i: nat, verdict: bool)
    requires i < |entries| && Wf(entries) && AllJudged(entries[..i + 1])
    ensures AllJudged(entries[..i])
    ensures WithVerdict(entries[..i + 1], verdict)
            == if IsCorrect(entries[i].1) == verdict then Put(WithVerdict(entries[..i], verdict), entries[i].0, entries[i].1)
               else WithVerdict(entries[..i], verdict)
  {
    WithVerdictSnoc(entries, i, verdict);
    PrefixLacksNext(entries, i);
    assert !HasKey(WithVerdict(entries[..i], verdict), entries[i].0);
  }

  /** Every key lands on one side or the other. */
  lemma {:induction false} WithVerdictCovers(entries: Dict<Json>, k: string)
    requires AllJudged(entries)
    ensures HasKey(entries, k) <==> HasKey(WithVerdict(entries, true), k) || HasKey(WithVerdict(entries, false), k)
    decreases |entries|
  {
    if |entries| > 0 {
      var init := entries[..|entries| - 1];
      var last := entries[|entries| - 1];
      assert entries == init + [last];
      assert AllJudged(init);
      WithVerdictCovers(init, k);
      HasKeyConcat(init, [last], k);
      HasKeyConcat(WithVerdict(init, true), if IsCorrect(last.1) then [last] else [], k);
      HasKeyConcat(WithVerdict(init, false), if IsCorrect(last.1) then [] else [last], k);
    }
  }

  /** In a proper dict no key lands on both sides. */
  lemma {:induction false} WithVerdictDisjoint(entries: Dict<Json>, k: string)
    requires AllJudged(entries) && Wf(entries)
    ensures !(HasKey(WithVerdict(entries, true), k) && HasKey(WithVerdict(entries, false), k))
    decreases |entries|
  {
    if |entries| > 0 {
      var init := entries[..|entries| - 1];
      var last := entries[|entries| - 1];
      assert AllJudged(init) && Wf(init);
      WithVerdictDisjoint(init, k);
      HasKeyConcat(WithVerdict(init, true), if IsCorrect(last.1) then [last] else [], k);
      HasKeyConcat(WithVerdict(init, false), if IsCorrect(last.1) then [] else [last], k);
      if last.0 == k {
        PrefixLacksNext(entries, |entries| - 1);
      }
    }
  }

  /** A key on one side has the verdict of that side. */
  lemma {:induction false} WithVerdictAgrees(entries: Dict<Json>, verdict: bool, k: string)
    requires AllJudged(entries) && Wf(entries)
    requires HasKey(WithVerdict(entries, verdict), k)
    ensures HasKey(entries, k) && IsCorrect(Get(entries, k).value) == verdict
    decreases |entries|, 1
  {
    var n := |entries| - 1;
    if entries[n].0 == k {
      WithVerdictAgreesLast(entries, verdict, k);
    } else {
      WithVerdictAgreesInit(entries, verdict, k);
    }
  }

  lemma WithVerdictAgreesLast(entries: Dict<Json>, verdict: bool, k: string)
    requires AllJudged(entries) && Wf(entries) && entries != [] && entries[|entries| - 1].0 == k
    requires HasKey(WithVerdict(entries, verdict), k)
    ensures HasKey(entries, k) && IsCorrect(Get(entries, k).value) == verdict
  {
    var n := |entries| - 1;
    var init := entries[..n];
    var last := entries[n];
    assert AllJudged(init);
    PrefixLacksNext(entries, n);
    HasKeyConcat(WithVerdict(init, verdict), if IsCorrect(last.1) == verdict then [last] else [], k);
    GetAt(entries, n);
  }

  lemma {:induction false} WithVerdictAgreesInit(entries: Dict<Json>, verdict: bool, k: string)
    requires AllJudged(entries) && Wf(entries) && entries != [] && entries[|entries| - 1].0 != k
    requires HasKey(WithVerdict(entries, verdict), k)
    ensures HasKey(entries, k) && IsCorrect(Get(entries, k).value) == verdict
    decreases |entries|, 0
  {
    var n := |entries| - 1;
    var init := entries[..n];
    var last := entries[n];
    assert AllJudged(init) && Wf(init);
    HasKeyConcat(WithVerdict(init, verdict), if IsCorrect(last.1) == verdict then [last] else [], k);
    WithVerdictAgrees(init, verdict, k);
    var j := IndexOf(init, k).value;
    assert entries[j] == init[j];
    GetAt(init, j);
    GetAt(entries, j);
  }

  /** Each side of a proper dict is a proper dict. */
  lemma {:induction false} WithVerdictWf(entries: Dict<Json>, verdict: bool)
    requires AllJudged(entries) && Wf(entries)
    ensures Wf(WithVerdict(entries, verdict))
    decreases |entries|
  {
    if |entries| > 0 {
      var n := |entries| - 1;
      var init := entries[..n];
      assert AllJudged(init) && Wf(init);
      WithVerdictWf(init, verdict);
      PrefixLacksNext(entries, n);
      assert !HasKey(WithVerdict(init, verdict), entries[n].0);
    }
  }

  /** Every entry of a side is an entry of the whole dict. */
  lemma {:induction false} WithVerdictMembers(entries: Dict<Json>, verdict: bool)
    requires AllJudged(entries)
    ensures forall i :: 0 <= i < |WithVerdict(entries, verdict)| ==> WithVerdict(entries, verdict)[i] in entries
    decreases |entries|
  {
    if |entries| > 0 {
      var n := |entries| - 1;
      var init := entries[..n];
      assert AllJudged(init);
      WithVerdictMembers(init, verdict);
      assert forall e :: e in init ==> e in entries;
    }
  }

  /** A key on one side keeps the value it has in the whole dict. */
  lemma WithVerdictGet(entries: Dict<Json>, verdict: bool, k: string)
    requires AllJudged(entries) && Wf(entries)
    ensures Wf(WithVerdict(entries, verdict))
    ensures HasKey(WithVerdict(entries, verdict), k) ==> Get(WithVerdict(entries, verdict), k) == Get(entries, k)
  {
    WithVerdictWf(entries, verdict);
    var w := WithVerdict(entries, verdict);
    if HasKey(w, k) {
      WithVerdictMembers(entries, verdict);
      var i :| 0 <= i < |w| && w[i].0 == k;
      assert w[i] in entries;
      var j :| 0 <= j < |entries| && entries[j] == w[i];
    }
  }

  /**
   * The loop of `categorize_solutions`: each entry is put into the
   * correct or the wrong dict by its `bool` field, its value unchanged. An
   * entry without a usable `bool` field stops it with that error.
   */
  method Partition(entries: Dict<Json>) returns (r: Result<(Dict<Json>, Dict<Json>)>)
    ensures r.Ok? <==> AllJudged(entries)
    ensures r.Err? ==> r.error in {KeyError, TypeError}
    ensures r.Ok? && Wf(entries) ==> r.value.0 == WithVerdict(entries, true) && r.value.1 == WithVerdict(entries, false)
  {
    var correct: Dict<Json> := [];
    var wrong: Dict<Json> := [];
    var i := 0;
    while i < |entries|
      invariant 0 <= i <= |entries|
      invariant AllJudged(entries[..i])
      invariant Wf(entries) ==> Sides(entries, i, correct, wrong)
    {
      var (key, value) := entries[i];
      var b := Subscript(value, BoolKey);
      if b.Err? {
        assert !Judged(entries[i].1);
        return Err(b.error);
      }
      AllJudgedSnoc(entries, i);
      if Wf(entries) {
        SidesStep(entries, i, correct, wrong);
      }
      if Truthy(b.value) {
        correct := Put(correct, key, value);
      } else {
        wrong := Put(wrong, key, value);
      }
      i := i + 1;
    }
    TakeTake(entries, i, i);
    return Ok((correct, wrong));
  }

  /** The two dicts the loop has built from the first `i` entries. */
  predicate Sides(entries: Dict<Json>, i: nat, correct: Dict<Json>, wrong: Dict<Json>)
    requires i <= |entries| && AllJudged(entries[..i])
  {
    correct == WithVerdict(entries[..i], true) && wrong == WithVerdict(entries[..i], false)
  }

  lemma SidesStep(entries: Dict<Json>, i: nat, correct: Dict<Json>, wrong: Dict<Json>)
    requires i < |entries| && Wf(entries) && AllJudged(entries[..i + 1]) && AllJudged(entries[..i])
    requires Sides(entries, i, correct, wrong)
    ensures IsCorrect(entries[i].1) ==> Sides(entries, i + 1, Put(correct, entries[i].0, entries[i].1), wrong)
    ensures !IsCorrect(entries[i].1) ==> Sides(entries, i + 1, correct, Put(wrong, entries[i].0, entries[i].1))
  {
    PartitionStep(entries, i, true);
    PartitionStep(entries, i, false);
  }

  /** The two sides split the keys: every key is on exactly one side, the one its verdict names. */
  lemma PartitionSplitsKeys(entries: Dict<Json>, k: string)
    requires AllJudged(entries) && Wf(entries)
    ensures HasKey(entries, k) <==> HasKey(WithVerdict(entries, true), k) || HasKey(WithVerdict(entries, false), k)
    ensures !(HasKey(WithVerdict(entries, true), k) && HasKey(WithVerdict(entries, false), k))
    ensures HasKey(entries, k) ==> HasKey(WithVerdict(entries, IsCorrect(Get(entries, k).value)), k)
  {
    WithVerdictCovers(entries, k);
    WithVerdictDisjoint(entries, k);
    if HasKey(WithVerdict(entries, true), k) {
      WithVerdictAgrees(entries, true, k);
    }
    if HasKey(WithVerdict(entries, false), k) {
      WithVerdictAgrees(entries, false, k);
    }
  }

  /**
   * `categorize_solutions`: decode the verdict dict and partition it. Text
   * that is not JSON is a `JSONDecodeError`; a decoded value without
   * `.items()` an `AttributeError`.
   */
  method CategorizeSolutions(verifyResults: string, loads: Loads) returns (r: Result<(Dict<Json>, Dict<Json>)>)
    ensures Decode(loads, verifyResults).Err? ==> r == Err(JsonDecodeError)
    ensures Decode(loads, verifyResults).Ok? && !Decode(loads, verifyResults).value.JObj? ==> r == Err(AttributeError)
    ensures Decode(loads, verifyResults).Ok? && Decode(loads, verifyResults).value.JObj? ==>
              var entries := Decode(loads, verifyResults).value.fields;
              && (r.Ok? <==> AllJudged(entries))
              && (r.Ok? && Wf(entries) ==> r.value == (WithVerdict(entries, true), WithVerdict(entries, false)))
  {
    var verdicts :- Decode(loads, verifyResults);
    var entries :- Items(verdicts);
    r := Partition(entries);
  }

  /** `value.pop("bool", None)` applied to a dict value; other values are left as they are. */
  function Unflagged(v: Json): (r: Json)
    ensures v.JObj? ==> r.JObj? && !HasKey(r.fields, BoolKey)
                        && forall k :: k != BoolKey ==> Get(r.fields, k) == Get(v.fields, k)
  {
    match v
    case JObj(fields) =>
      assert forall k :: k != BoolKey ==> Get(Remove(fields, BoolKey), k) == Get(fields, k) by {
        forall k | k != BoolKey ensures Get(Remove(fields, BoolKey), k) == Get(fields, k) {
          RemoveGet(fields, BoolKey, k);
        }
      }
      JObj(Remove(fields, BoolKey))
    case _ => v
  }

  /** Unflagging a dict is popping its `bool` field. */
  lemma UnflaggedPop(v: Json)
    ensures PopKey(v, BoolKey).Ok? ==> PopKey(v, BoolKey).value == Unflagged(v)
  {
  }

  predicate AllDicts(entries: Dict<Json>)
  {
    forall i :: 0 <= i < |entries| ==> entries[i].1.JObj?
  }

  function UnflaggedAll(entries: Dict<Json>): (r: Dict<Json>)
    ensures |r| == |entries|
    ensures forall i :: 0 <= i < |entries| ==> r[i] == (entries[i].0, Unflagged(entries[i].1))
  {
    seq(|entries|, i requires 0 <= i < |entries| => (entries[i].0, Unflagged(entries[i].1)))
  }

  lemma UnflaggedAllKeys(entries: Dict<Json>, k: string)
    ensures HasKey(UnflaggedAll(entries), k) <==> HasKey(entries, k)
  {
    var u := UnflaggedAll(entries);
    if HasKey(entries, k) {
      var j :| 0 <= j < |entries| && entries[j].0 == k;
      assert u[j].0 == k;
    }
  }

  lemma UnflaggedAllConcat(a: Dict<Json>, b: Dict<Json>)
    ensures UnflaggedAll(a + b) == UnflaggedAll(a) + UnflaggedAll(b)
  {
  }

  /** The last entry of `k` after unflagging is the unflagged last entry. */
  lemma {:induction false} LastWithUnflagged(entries: Dict<Json>, k: string)
    ensures LastWith(UnflaggedAll(entries), k) == (match LastWith(entries, k)
                                                    case None => None
                                                    case Some(v) => Some(Unflagged(v)))
    decreases |entries|
  {
    if |entries| > 0 {
      assert UnflaggedAll(entries)[1..] == UnflaggedAll(entries[1..]);
      LastWithUnflagged(entries[1..], k);
    }
  }

  /** The error of popping `bool` from the first value that is not a dict. */
  function PopError(entries: Dict<Json>): (r: Exc)
    requires !AllDicts(entries)
    ensures r in {TypeError, AttributeError}
    decreases |entries|
  {
    if !entries[0].1.JObj? then PopKey(entries[0].1, BoolKey).error
    else
      assert !AllDicts(entries[1..]) by {
        var j :| 0 <= j < |entries| && !entries[j].1.JObj?;
        assert entries[1..][j - 1] == entries[j];
      }
      PopError(entries[1..])
  }

  /** The value at the first non-dict entry decides the error. */
  lemma {:induction false} PopErrorAt(entries: Dict<Json>, i: nat)
    requires i < |entries| && !entries[i].1.JObj?
    requires forall j :: 0 <= j < i ==> entries[j].1.JObj?
    ensures PopError(entries) == PopKey(entries[i].1, BoolKey).error
    decreases i
  {
    if i > 0 {
      assert forall j :: 0 <= j < i - 1 ==> entries[1..][j] == entries[j + 1];
      PopErrorAt(entries[1..], i - 1);
    }
  }

  /**
   * The merged issue table: the new solutions, then the correct ones,
   * assigned into one dict without their `bool` fields; a value that is not
   * a dict has no such `pop`.
   */
  function Merged(newSolutions: Dict<Json>, correct: Dict<Json>): (r: Result<Dict<Json>>)
    ensures r.Ok? <==> AllDicts(newSolutions + correct)
    ensures r.Err? ==> r.error in {TypeError, AttributeError}
  {
    var all := newSolutions + correct;
    if AllDicts(all) then Ok(Update([], UnflaggedAll(all))) else Err(PopError(all))
  }

  /**
   * The merge loop of `send_issue_prompt`: the new solutions and then the
   * correct ones are assigned into one dict, each value losing its `bool`
   * field. A value that is not a dict has no such `pop` and stops the merge.
   */
  method MergeIssueSolutions(newSolutions: Dict<Json>, correct: Dict<Json>) returns (r: Result<Dict<Json>>)
    ensures r.Ok? <==> AllDicts(newSolutions + correct)
    ensures r.Err? ==> r.error in {TypeError, AttributeError}
    ensures r.Ok? ==> r.value == Update([], UnflaggedAll(newSolutions + correct))
    ensures r == Merged(newSolutions, correct)
  {
    var all := newSolutions + correct;
    ghost var u := UnflaggedAll(all);
    var merged: Dict<Json> := [];
    var i := 0;
    while i < |all|
      invariant 0 <= i <= |all|
      invariant forall j :: 0 <= j < i ==> all[j].1.JObj?
      invariant Update([], u) == Update(merged, u[i..])
    {
      var (key, value) := all[i];
      var popped := PopKey(value, BoolKey);
      if popped.Err? {
        PopErrorAt(all, i);
        return Err(popped.error);
      }
      UnflaggedPop(value);
      UpdateStep(merged, u, i);
      merged := Put(merged, key, popped.value);
      i := i + 1;
    }
    assert u[i..] == [];
    return Ok(merged);
  }

  /**
   * What the merged table holds: exactly the keys of the new and the correct
   * solutions, none of them with a `bool` field; a correct solution's id
   * holds that solution, since correct entries are written last; any other
   * id holds the last new solution with it. Wrong solutions appear only
   * under ids the reply uses again.
   */
  lemma MergedTable(newSolutions: Dict<Json>, correct: Dict<Json>, k: string)
    requires AllDicts(newSolutions + correct)
    ensures var m := Update([], UnflaggedAll(newSolutions + correct));
            && Wf(m)
            && (HasKey(m, k) <==> HasKey(newSolutions, k) || HasKey(correct, k))
            && (Wf(correct) && HasKey(correct, k) ==> Get(m, k) == Some(Unflagged(Get(correct, k).value)))
            && (!HasKey(correct, k) && HasKey(newSolutions, k) ==> Get(m, k) == Some(Unflagged(LastWith(newSolutions, k).value)))
            && (Get(m, k).Some? ==> Get(m, k).value.JObj? && !HasKey(Get(m, k).value.fields, BoolKey))
  {
    var all := newSolutions + correct;
    var u := UnflaggedAll(all);
    UpdateWf([], u);
    UpdateHasKey([], u, k);
    UnflaggedAllKeys(all, k);
    UpdateLast([], u, k);
    LastWithUnflagged(all, k);
    LastWithConcat(newSolutions, correct, k);
    HasKeyConcat(newSolutions, correct, k);
    if LastWith(all, k).Some? {
      var j :| 0 <= j < |all| && all[j] == (k, LastWith(all, k).value);
    }
    if Wf(correct) && HasKey(correct, k) {
      LastWithWf(correct, k);
    }
  }

  /** The solutions an issue reply carries, or the error of parsing it or of reading them. */
  function ReplyItems(reply: string, loads: Loads): (r: Result<seq<Json>>)
    ensures ExtractJsonFromResponse(reply, loads).Err? ==> r == Err(JsonDecodeError)
    ensures r.Ok? <==> ExtractJsonFromResponse(reply, loads).Ok?
                       && SolutionItems(AsJson(ExtractJsonFromResponse(reply, loads).value)).Ok?
  {
    var extracted :- ExtractJsonFromResponse(reply, loads);
    SolutionItems(AsJson(extracted))
  }

  /**
   * What `send_issue_prompt` returns for the model's reply: the reply's
   * solutions under fresh ids, merged with the correct solutions.
   */
  function IssueSolutions(reply: string, correct: Dict<Json>, loads: Loads, uuid: Uuids, next: nat): (r: Result<Dict<Json>>)
    ensures ReplyItems(reply, loads).Err? ==> r == Err(ReplyItems(reply, loads).error)
  {
    var items :- ReplyItems(reply, loads);
    Merged(FreshlyTagged(items, uuid, next), correct)
  }

  /** How many ids answering `reply` draws: one per solution once the reply's solutions are read. */
  function IssueDraws(reply: string, loads: Loads): (r: nat)
    ensures ReplyItems(reply, loads).Err? ==> r == 0
  {
    if ReplyItems(reply, loads).Ok? then |ReplyItems(reply, loads).value| else 0
  }

  /**
   * What a solved issue table holds: one fresh id per solution of the
   * reply and every correct id, no value with a `bool` field, every correct
   * solution as it was, every other id with the last reply solution
   * tagged with it.
   */
  lemma IssueSolutionsTable(reply: string, correct: Dict<Json>, loads: Loads, uuid: Uuids, next: nat, k: string)
    requires IssueSolutions(reply, correct, loads, uuid, next).Ok?
    ensures ReplyItems(reply, loads).Ok?
    ensures var items := ReplyItems(reply, loads).value;
            var tagged := FreshlyTagged(items, uuid, next);
            var m := IssueSolutions(reply, correct, loads, uuid, next).value;
            && Wf(m)
            && (HasKey(m, k) <==> HasKey(tagged, k) || HasKey(correct, k))
            && (Wf(correct) && HasKey(correct, k) ==> Get(m, k) == Some(Unflagged(Get(correct, k).value)))
            && (!HasKey(correct, k) && HasKey(tagged, k) ==> Get(m, k) == Some(Unflagged(LastWith(tagged, k).value)))
            && (Get(m, k).Some? ==> Get(m, k).value.JObj? && !HasKey(Get(m, k).value.fields, BoolKey))
  {
    var items := ReplyItems(reply, loads).value;
    var tagged := FreshlyTagged(items, uuid, next);
    assert IssueSolutions(reply, correct, loads, uuid, next) == Merged(tagged, correct);
    MergedTable(tagged, correct, k);
  }

  /**
   * `send_issue_prompt` after the model has replied: the reply is parsed,
   * its solutions are tagged with fresh ids and merged with the correct
   * solutions.
   */
  method SendIssuePrompt(reply: string, correct: Dict<Json>, loads: Loads, uuid: Uuids, next: nat)
    returns (r: Result<Dict<Json>>, drawn: nat)
    ensures ExtractJsonFromResponse(reply, loads).Err? ==> r == Err(JsonDecodeError)
    ensures r.Ok? ==> exists tagged: Dict<Json> ::
                        && |tagged| == drawn
                        && (forall i :: 0 <= i < |tagged| ==> tagged[i].0 == uuid(next + i))
                        && r.value == Update([], UnflaggedAll(tagged + correct))
    ensures r == IssueSolutions(reply, correct, loads, uuid, next)
    ensures drawn == IssueDraws(reply, loads)
  {
    drawn := 0;
    var extracted :- ExtractJsonFromResponse(reply, loads);
    var tagged :- AddUuidToSolution(AsJson(extracted), uuid, next);
    drawn := |tagged|;
    r := MergeIssueSolutions(tagged, correct);
    assert tagged == FreshlyTagged(ReplyItems(reply, loads).value, uuid, next);
  }

  /**
   * The proposals as a list of one-entry dicts: a list is taken as it is, a
   * dict becomes one `{k: v}` per entry, anything else has no `.items()`.
   */
  function Listed(unverified: Json): (r: Result<seq<Json>>)
    ensures unverified.JArr? ==> r == Ok(unverified.items)
    ensures unverified.JObj? ==> (r.Ok? && |r.value| == |unverified.fields|
              && forall i :: 0 <= i < |r.value| ==> r.value[i] == Single(unverified.fields[i].0, unverified.fields[i].1))
    ensures !unverified.JArr? && !unverified.JObj? ==> r == Err(AttributeError)
  {
    match unverified
    case JArr(items) => Ok(items)
    case JObj(fields) => Ok(seq(|fields|, i requires 0 <= i < |fields| => Single(fields[i].0, fields[i].1)))
    case _ => Err(AttributeError)
  }

  /** The record kept for one proposal: its reasoning, identifier and context, under its first key. */
  function ProposalOf(solution: Json): (r: Result<(string, Json)>)
    ensures r.Ok? ==> solution.JObj? && |solution.fields| > 0 && r.value.0 == solution.fields[0].0
  {
    var key :- FirstKey(solution);
    var inner :- Subscript(solution, key);
    var reasoning :- Subscript(inner, ReasoningKey);
    var identifier :- Subscript(inner, "identifier");
    var context :- Subscript(inner, "context");
    Ok((key, JObj([(ReasoningKey, reasoning), ("identifier", identifier), ("context", context)])))
  }

  /** The proposal table built from `solutions`, continuing from `acc`. */
  function ProposalsFrom(acc: Dict<Json>, solutions: seq<Json>): (r: Result<Dict<Json>>)
    decreases |solutions|
  {
    if solutions == [] then Ok(acc)
    else
      var entry :- ProposalOf(solutions[0]);
      ProposalsFrom(Put(acc, entry.0, entry.1), solutions[1..])
  }

  predicate AllProposals(solutions: seq<Json>)
  {
    forall i :: 0 <= i < |solutions| ==> ProposalOf(solutions[i]).Ok?
  }

  /** The entries the proposals contribute, in order. */
  function ProposalEntries(solutions: seq<Json>): (r: Dict<Json>)
    requires AllProposals(solutions)
    ensures |r| == |solutions| && forall i :: 0 <= i < |solutions| ==> r[i] == ProposalOf(solutions[i]).value
  {
    if solutions == [] then [] else [ProposalOf(solutions[0]).value] + ProposalEntries(solutions[1..])
  }

  /**
   * The proposal table is the proposals' records assigned in order, so an id
   * is in it exactly when some proposal has it as its first key.
   */
  lemma {:induction false} ProposalsFromUpdate(acc: Dict<Json>, solutions: seq<Json>)
    ensures ProposalsFrom(acc, solutions).Ok? <==> AllProposals(solutions)
    ensures AllProposals(solutions) ==> ProposalsFrom(acc, solutions) == Ok(Update(acc, ProposalEntries(solutions)))
    decreases |solutions|
  {
    if solutions != [] && ProposalOf(solutions[0]).Ok? {
      ProposalsFromUpdate(Put(acc, ProposalOf(solutions[0]).value.0, ProposalOf(solutions[0]).value.1), solutions[1..]);
      if AllProposals(solutions) {
        var e := ProposalEntries(solutions);
        assert e[1..] == ProposalEntries(solutions[1..]);
      }
      if AllProposals(solutions[1..]) && ProposalOf(solutions[0]).Ok? {
        forall i | 0 <= i < |solutions| ensures ProposalOf(solutions[i]).Ok? {
          if i > 0 {
            assert solutions[i] == solutions[1..][i - 1];
          }
        }
      }
    }
  }

  /** The first loop of `process_verification_results`: the proposal table. */
  method Proposals(solutions: seq<Json>) returns (r: Result<Dict<Json>>)
    ensures r == ProposalsFrom([], solutions)
  {
    var proposed: Dict<Json> := [];
    var i := 0;
    while i < |solutions|
      invariant 0 <= i <= |solutions|
      invariant ProposalsFrom([], solutions) == ProposalsFrom(proposed, solutions[i..])
    {
      assert solutions[i..][1..] == solutions[i + 1..];
      var entry :- ProposalOf(solutions[i]);
      proposed := Put(proposed, entry.0, entry.1);
      i := i + 1;
    }
    assert solutions[i..] == [];
    return Ok(proposed);
  }

  /** The verdict dict built from `results`, continuing from `acc`. */
  function VerdictsFrom(acc: Dict<Json>, results: seq<string>, loads: Loads): (r: Result<Dict<Json>>)
    decreases |results|
  {
    if results == [] then Ok(acc)
    else
      var extracted :- ExtractJsonFromResponse(results[0], loads);
      var fields :- DictOf(AsJson(extracted));
      VerdictsFrom(Update(acc, fields), results[1..], loads)
  }

  /** The merged verdict dict is a proper dict. */
  lemma {:induction false} VerdictsFromWf(acc: Dict<Json>, results: seq<string>, loads: Loads)
    requires Wf(acc)
    requires VerdictsFrom(acc, results, loads).Ok?
    ensures Wf(VerdictsFrom(acc, results, loads).value)
    decreases |results|
  {
    if results != [] {
      var fields := DictOf(AsJson(ExtractJsonFromResponse(results[0], loads).value)).value;
      UpdateWf(acc, fields);
      VerdictsFromWf(Update(acc, fields), results[1..], loads);
    }
  }

  /** The second loop: every verdict reply is parsed and merged into one dict. */
  method Verdicts(results: seq<string>, loads: Loads) returns (r: Result<Dict<Json>>)
    ensures r == VerdictsFrom([], results, loads)
  {
    var verdicts: Dict<Json> := [];
    var i := 0;
    while i < |results|
      invariant 0 <= i <= |results|
      invariant VerdictsFrom([], results, loads) == VerdictsFrom(verdicts, results[i..], loads)
    {
      assert results[i..][1..] == results[i + 1..];
      var extracted :- ExtractJsonFromResponse(results[i], loads);
      var fields :- DictOf(AsJson(extracted));
      verdicts := Update(verdicts, fields);
      i := i + 1;
    }
    assert results[i..] == [];
    return Ok(verdicts);
  }

  /** The proposal of `key` has every field in `names`, and the verdict is a dict. */
  predicate Annotatable(proposed: Dict<Json>, key: string, verdict: Json, names: seq<string>)
  {
    && HasKey(proposed, key)
    && (forall j :: 0 <= j < |names| ==> Subscript(Get(proposed, key).value, names[j]).Ok?)
    && verdict.JObj?
  }

  /** The fields of `p` named in `names` written over `verdict`, in order. */
  function Copied(p: Json, verdict: Dict<Json>, names: seq<string>): (r: Dict<Json>)
    requires forall j :: 0 <= j < |names| ==> Subscript(p, names[j]).Ok?
    decreases |names|
  {
    if names == [] then verdict
    else Copied(p, Put(verdict, names[0], Subscript(p, names[0]).value), names[1..])
  }

  /** A copied field holds the proposal's value; every other field keeps the verdict's. */
  lemma {:induction false} CopiedGet(p: Json, verdict: Dict<Json>, names: seq<string>, k: string)
    requires forall j :: 0 <= j < |names| ==> Subscript(p, names[j]).Ok?
    ensures k in names ==> Subscript(p, k).Ok?
    ensures Get(Copied(p, verdict, names), k) == if k in names then Some(Subscript(p, k).value) else Get(verdict, k)
    decreases |names|
  {
    if names != [] {
      var x := Subscript(p, names[0]).value;
      assert forall j :: 0 <= j < |names| - 1 ==> names[1..][j] == names[j + 1];
      assert k in names <==> k == names[0] || k in names[1..];
      CopiedGet(p, Put(verdict, names[0], x), names[1..], k);
      PutGet(verdict, names[0], x, k);
    }
  }

  /** Copying keeps a proper dict proper. */
  lemma {:induction false} CopiedWf(p: Json, verdict: Dict<Json>, names: seq<string>)
    requires forall j :: 0 <= j < |names| ==> Subscript(p, names[j]).Ok?
    requires Wf(verdict)
    ensures Wf(Copied(p, verdict, names))
    decreases |names|
  {
    if names != [] {
      var x := Subscript(p, names[0]).value;
      PutWf(verdict, names[0], x);
      CopiedWf(p, Put(verdict, names[0], x), names[1..]);
    }
  }

  /** A verdict with the fields in `names` overwritten from the proposal of `key`. */
  function Annotated(proposed: Dict<Json>, key: string, verdict: Json, names: seq<string>): (r: Json)
    requires Annotatable(proposed, key, verdict, names)
  {
    JObj(Copied(Get(proposed, key).value, verdict.fields, names))
  }

  /**
   * The assignments `verdict[name] = p[name]` for the names in order: each
   * reads the proposal's field (`KeyError` or `TypeError`) and then assigns
   * it (`TypeError` for a verdict that is not a dict).
   */
  function CopyFrom(p: Json, verdict: Json, names: seq<string>): (r: Result<Json>)
    ensures r.Ok? <==> (forall j :: 0 <= j < |names| ==> Subscript(p, names[j]).Ok?) && (names == [] || verdict.JObj?)
    ensures r.Ok? && verdict.JObj? ==> r.value == JObj(Copied(p, verdict.fields, names))
    decreases |names|
  {
    if names == [] then Ok(verdict)
    else
      var x :- Subscript(p, names[0]);
      var v :- SetItem(verdict, names[0], x);
      CopyFrom(p, v, names[1..])
  }

  /**
   * The assignments for one verdict key, in Python's order: the proposal
   * is looked up (`KeyError` when no proposal has the id), then the fields
   * are copied one by one.
   */
  function AnnotateEntry(proposed: Dict<Json>, key: string, verdict: Json, names: seq<string>): (r: Result<Json>)
    requires names != []
    ensures r.Ok? <==> Annotatable(proposed, key, verdict, names)
    ensures r.Ok? ==> r.value == Annotated(proposed, key, verdict, names)
    ensures !HasKey(proposed, key) ==> r == Err(KeyError)
  {
    var p :- Subscript(JObj(proposed), key);
    CopyFrom(p, verdict, names)
  }

  /** The annotation of one verdict entry, as a function of the entry. */
  function AnnotateOf(proposed: Dict<Json>, names: seq<string>): (f: (string, Json) -> Result<Json>)
    requires names != []
  {
    (key, verdict) => AnnotateEntry(proposed, key, verdict, names)
  }

  /** The key at position `i` of a proper dict is found there. */
  lemma IndexOfWf(d: Dict<Json>, i: nat)
    requires Wf(d) && i < |d|
    ensures IndexOf(d, d[i].0) == Some(i)
    ensures Get(d, d[i].0) == Some(d[i].1)
  {
  }

  /** The loop's picture of the verdict table after the first `i` keys are annotated. */
  predicate AnnotatedUpTo(verdicts: Dict<Json>, proposed: Dict<Json>, names: seq<string>, table: Dict<Json>, i: nat)
  {
    && i <= |verdicts|
    && |table| == |verdicts| && Keys(table) == Keys(verdicts) && Wf(table)
    && (forall j :: 0 <= j < i ==> Annotatable(proposed, verdicts[j].0, verdicts[j].1, names))
    && (forall j :: 0 <= j < i ==> table[j] == (verdicts[j].0, Annotated(proposed, verdicts[j].0, verdicts[j].1, names)))
    && (forall j :: i <= j < |verdicts| ==> table[j] == verdicts[j])
  }

  /** Annotating key `i` in place moves the picture on by one. */
  lemma AnnotateStep(verdicts: Dict<Json>, proposed: Dict<Json>, names: seq<string>, table: Dict<Json>, i: nat)
    requires AnnotatedUpTo(verdicts, proposed, names, table, i) && i < |verdicts|
    requires Annotatable(proposed, verdicts[i].0, verdicts[i].1, names)
    ensures Get(table, verdicts[i].0) == Some(verdicts[i].1)
    ensures AnnotatedUpTo(verdicts, proposed, names,
                          Put(table, verdicts[i].0, Annotated(proposed, verdicts[i].0, verdicts[i].1, names)), i + 1)
  {
    var key := verdicts[i].0;
    var v := Annotated(proposed, key, verdicts[i].1, names);
    assert table[i] == verdicts[i];
    IndexOfWf(table, i);
    PutWf(table, key, v);
    var t := Put(table, key, v);
    assert t == table[i := (key, v)];
    assert Keys(t) == Keys(verdicts) by {
      assert forall j :: 0 <= j < |t| ==> Keys(t)[j] == Keys(verdicts)[j];
    }
  }

  /**
   * The last loop of `process_verification_results`: for every verdict key,
   * in order, the fields in `names` are overwritten from the proposal with
   * the same id; the first verdict that cannot be annotated stops it with
   * that verdict's error.
   */
  method Annotate(verdicts: Dict<Json>, proposed: Dict<Json>, names: seq<string>) returns (r: Result<Dict<Json>>)
    requires Wf(verdicts) && names != []
    ensures r.Ok? <==> forall i :: 0 <= i < |verdicts| ==> Annotatable(proposed, verdicts[i].0, verdicts[i].1, names)
    ensures r.Ok? ==> |r.value| == |verdicts|
                      && forall i :: 0 <= i < |verdicts| ==>
                           r.value[i] == (verdicts[i].0, Annotated(proposed, verdicts[i].0, verdicts[i].1, names))
    ensures r.Err? ==> exists j :: 0 <= j < |verdicts| && Err(r.error) == AnnotateEntry(proposed, verdicts[j].0, verdicts[j].1, names)
    ensures r == MapEntries(verdicts, AnnotateOf(proposed, names))
  {
    var table := verdicts;
    var i := 0;
    while i < |verdicts|
      invariant AnnotatedUpTo(verdicts, proposed, names, table, i)
    {
      var key := verdicts[i].0;
      var annotated := AnnotateEntry(proposed, key, verdicts[i].1, names);
      if annotated.Err? {
        MapEntriesFirstError(verdicts, AnnotateOf(proposed, names), i);
        return Err(annotated.error);
      }
      AnnotateStep(verdicts, proposed, names, table, i);
      table := Put(table, key, annotated.value);
      i := i + 1;
    }
    assert MapEntries(verdicts, AnnotateOf(proposed, names)).Ok?;
    assert MapEntries(verdicts, AnnotateOf(proposed, names)).value == table;
    return Ok(table);
  }

  /** The fields a verdict takes over from its proposal: `identifier`, then `context`. */
  const CopiedFields: seq<string> := ["identifier", "context"]

  /**
   * The table `process_verification_results` builds: every verdict of the
   * merged replies, annotated from the proposal with its id.
   */
  function ProcessedVerdicts(verificationResults: seq<string>, unverified: Json, loads: Loads): (r: Result<Dict<Json>>)
    ensures Listed(unverified).Err? ==> r == Err(AttributeError)
  {
    var solutions :- Listed(unverified);
    var proposed :- ProposalsFrom([], solutions);
    var verdicts :- VerdictsFrom([], verificationResults, loads);
    MapEntries(verdicts, AnnotateOf(proposed, CopiedFields))
  }

  /**
   * `process_verification_results`: the proposals are tabled by id, the
   * verdict replies merged into one dict, and every verdict annotated from
   * the proposal with its id. The result has exactly the verdict keys.
   */
  method ProcessVerificationResults(verificationResults: seq<string>, unverified: Json, loads: Loads)
    returns (r: Result<Dict<Json>>)
    ensures Listed(unverified).Err? ==> r == Err(AttributeError)
    ensures r.Ok? ==> && Listed(unverified).Ok? && AllProposals(Listed(unverified).value)
                      && VerdictsFrom([], verificationResults, loads).Ok?
    ensures r.Ok? ==> var verdicts := VerdictsFrom([], verificationResults, loads).value;
                      var proposed := Update([], ProposalEntries(Listed(unverified).value));
                      && Keys(r.value) == Keys(verdicts)
                      && forall i :: 0 <= i < |verdicts| ==>
                           && Annotatable(proposed, verdicts[i].0, verdicts[i].1, CopiedFields)
                           && r.value[i].1 == Annotated(proposed, verdicts[i].0, verdicts[i].1, CopiedFields)
    ensures Listed(unverified).Ok? && AllProposals(Listed(unverified).value)
            && VerdictsFrom([], verificationResults, loads).Ok? ==>
              var verdicts := VerdictsFrom([], verificationResults, loads).value;
              var proposed := Update([], ProposalEntries(Listed(unverified).value));
              (exists i :: 0 <= i < |verdicts| && !HasKey(proposed, verdicts[i].0)) ==> r.Err?
    ensures r == ProcessedVerdicts(verificationResults, unverified, loads)
  {
    var solutions :- Listed(unverified);
    var proposed :- Proposals(solutions);
    ProposalsFromUpdate([], solutions);
    var verdicts :- Verdicts(verificationResults, loads);
    VerdictsFromWf([], verificationResults, loads);
    r := Annotate(verdicts, proposed, CopiedFields);
  }
}
