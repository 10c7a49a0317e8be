// The solution tables of the meta prompter for individuals: a solution
// lists, per person id, the items found for that person; verification
// works on one `{person: item}` row per item.

module IndividualSolutions {
  import opened Wrappers
  import opened Dicts
  import opened Json
  import opened Llm
  import opened Seqs
  import IndependentSolutions

  /**
   * What `if val_dict_list: for val_dict in val_dict_list` visits for one
   * person: nothing for a falsy value, otherwise its items (a dict yields its
   * keys, a string its characters); a truthy scalar cannot be iterated.
   */
  function Visited(value: Json): (r: Result<seq<Json>>)
    ensures r.Ok? <==> !Truthy(value) || value.JArr? || value.JObj? || value.JStr?
    ensures r.Ok? ==> (|r.value| == 0 <==> !Truthy(value))
    ensures r.Ok? && value.JArr? ==> r.value == value.items
    ensures r.Err? ==> r.error == TypeError
  {
    if Truthy(value) then Iterate(value) else Ok([])
  }

  /** Every item paired with its person. */
  function Tagged(person: string, items: seq<Json>): (r: Dict<Json>)
    ensures |r| == |items|
    ensures forall j :: 0 <= j < |items| ==> r[j] == (person, items[j])
  {
    seq(|items|, j requires 0 <= j < |items| => (person, items[j]))
  }

  /** The (person, item) pairs of the remaining persons, appended to `acc`. */
  function PairsFrom(acc: Dict<Json>, entries: Dict<Json>): Result<Dict<Json>>
    decreases |entries|
  {
    if entries == [] then Ok(acc)
    else
      var items :- Visited(entries[0].1);
      PairsFrom(acc + Tagged(entries[0].0, items), entries[1..])
  }

  /** The rows `{person: item}`, one per pair. */
  function Singles(pairs: Dict<Json>): (r: seq<Json>)
    ensures |r| == |pairs|
    ensures forall j :: 0 <= j < |pairs| ==> r[j] == Single(pairs[j].0, pairs[j].1)
  {
    seq(|pairs|, j requires 0 <= j < |pairs| => Single(pairs[j].0, pairs[j].1))
  }

  /** The pairs behind `prepare_solution_for_verification(solutions)`. */
  function PreparedPairs(solutions: string, loads: Loads): Result<Dict<Json>>
  {
    var temp :- Decode(loads, solutions);
    var entries :- Items(temp);
    PairsFrom([], entries)
  }

  /**
   * `prepare_solution_for_verification`: the solution text is parsed, and
   * every item of every person with a non-empty list becomes the row
   * `{person: item}`, persons in order and items in order.
   */
  method PrepareSolutionForVerification(solutions: string, loads: Loads) returns (r: Result<seq<Json>>)
    ensures r.Ok? <==> PreparedPairs(solutions, loads).Ok?
    ensures r.Ok? ==> r.value == Singles(PreparedPairs(solutions, loads).value)
    ensures r.Err? ==> r == Err(PreparedPairs(solutions, loads).error)
  {
    var temp :- Decode(loads, solutions);
    var entries :- Items(temp);
    var pairs: Dict<Json> := [];
    var rows: seq<Json> := [];
    var i := 0;
    while i < |entries|
      invariant 0 <= i <= |entries|
      invariant PairsFrom([], entries) == PairsFrom(pairs, entries[i..])
      invariant rows == Singles(pairs)
    {
      assert entries[i..][1..] == entries[i + 1..];
      var items := Visited(entries[i].1);
      if items.Err? {
        return Err(items.error);
      }
      var j := 0;
      var before := pairs;
      while j < |items.value|
        invariant 0 <= j <= |items.value|
        invariant pairs == before + Tagged(entries[i].0, items.value[..j])
        invariant rows == Singles(pairs)
      {
        assert items.value[..j + 1] == items.value[..j] + [items.value[j]];
        pairs := pairs + [(entries[i].0, items.value[j])];
        rows := rows + [Single(entries[i].0, items.value[j])];
        j := j + 1;
      }
      assert items.value[..j] == items.value;
      i := i + 1;
    }
    return Ok(rows);
  }

  /** The pairs of `d` with key `k`, as values in order. */
  function Lookup<V>(d: Dict<V>, k: string): (r: seq<V>)
  {
    if d == [] then [] else (if d[0].0 == k then [d[0].1] else []) + Lookup(d[1..], k)
  }

  lemma {:induction false} LookupConcat<V>(a: Dict<V>, b: Dict<V>, k: string)
    ensures Lookup(a + b, k) == Lookup(a, k) + Lookup(b, k)
    decreases |a|
  {
    if a == [] {
      EmptyConcat(a, b);
    } else {
      ConcatTail(a, [], b);
      LookupConcat(a[1..], b, k);
      ConsConcat(a[0], a[1..], b);
      Assoc(if a[0].0 == k then [a[0].1] else [], Lookup(a[1..], k), Lookup(b, k));
    }
  }

  lemma {:induction false} LookupTagged(person: string, items: seq<Json>, k: string)
    ensures Lookup(Tagged(person, items), k) == if person == k then items else []
    decreases |items|
  {
    if items != [] {
      assert Tagged(person, items)[1..] == Tagged(person, items[1..]);
      LookupTagged(person, items[1..], k);
    }
  }

  lemma {:induction false} LookupEmpty<V>(d: Dict<V>, k: string)
    ensures Lookup(d, k) == [] <==> !HasKey(d, k)
    decreases |d|
  {
    if d != [] {
      LookupEmpty(d[1..], k);
      HasKeyCons(d);
    }
  }

  /**
   * Grouping the pairs back by a person: with distinct persons, the items of
   * person `k` are exactly what was visited under `k`.
   */
  lemma {:induction false} PairsFromLookup(acc: Dict<Json>, entries: Dict<Json>, k: string)
    requires Wf(entries)
    requires PairsFrom(acc, entries).Ok?
    ensures HasKey(entries, k) ==> Visited(Get(entries, k).value).Ok?
    ensures Lookup(PairsFrom(acc, entries).value, k)
            == Lookup(acc, k) + (if HasKey(entries, k) then Visited(Get(entries, k).value).value else [])
    decreases |entries|, 1
  {
    if entries != [] {
      var items := Visited(entries[0].1).value;
      PairsFromHead(acc, entries);
      PairsFromLookupTail(acc + Tagged(entries[0].0, items), entries, k);
      LookupConcat(acc, Tagged(entries[0].0, items), k);
      LookupTagged(entries[0].0, items, k);
      HasKeyCons(entries);
      GetCons(entries, k);
      WfCons(entries);
    }
  }

  /** A successful visit is a successful first entry followed by the rest. */
  lemma PairsFromHead(acc: Dict<Json>, entries: Dict<Json>)
    requires entries != [] && PairsFrom(acc, entries).Ok?
    ensures Visited(entries[0].1).Ok?
    ensures PairsFrom(acc, entries) == PairsFrom(acc + Tagged(entries[0].0, Visited(entries[0].1).value), entries[1..])
  {
  }

  lemma {:induction false} PairsFromLookupTail(acc: Dict<Json>, entries: Dict<Json>, k: string)
    requires entries != [] && Wf(entries)
    requires PairsFrom(acc, entries[1..]).Ok?
    ensures HasKey(entries[1..], k) ==> Visited(Get(entries[1..], k).value).Ok?
    ensures Lookup(PairsFrom(acc, entries[1..]).value, k)
            == Lookup(acc, k) + (if HasKey(entries[1..], k) then Visited(Get(entries[1..], k).value).value else [])
    decreases |entries|, 0
  {
    WfCons(entries);
    PairsFromLookup(acc, entries[1..], k);
  }

  /** Every row is a non-empty dict, as `list(solution.keys())[0]` needs. */
  predicate AllRows(list: seq<Json>)
  {
    forall i :: 0 <= i < |list| ==> list[i].JObj? && |list[i].fields| > 0
  }

  predicate AllObjects(list: seq<Json>)
  {
    forall i :: 0 <= i < |list| ==> list[i].JObj?
  }

  /** Every key of every dict in the list (`set().union(*(d.keys() ...))`). */
  function KeySet(list: seq<Json>): (r: set<string>)
    requires AllObjects(list)
    ensures forall i, j :: 0 <= i < |list| && 0 <= j < |list[i].fields| ==> list[i].fields[j].0 in r
    ensures forall k :: k in r ==> exists i :: 0 <= i < |list| && HasKey(list[i].fields, k)
    decreases |list|
  {
    if list == [] then {}
    else
      var last := list[|list| - 1].fields;
      assert forall i :: 0 <= i < |list| - 1 ==> list[..|list| - 1][i] == list[i];
      KeySet(list[..|list| - 1]) + set j | 0 <= j < |last| :: last[j].0
  }

  /** What the list contributes to key `k`: the value under the first key of each row whose first key is `k`. */
  function Group(list: seq<Json>, k: string): seq<Json>
    requires AllRows(list)
    decreases |list|
  {
    if list == [] then []
    else
      var last := list[|list| - 1].fields[0];
      assert forall i :: 0 <= i < |list| - 1 ==> list[..|list| - 1][i] == list[i];
      Group(list[..|list| - 1], k) + (if last.0 == k then [last.1] else [])
  }

  /**
   * `convert_list_solution_to_dict`: every key of every row gets a list,
   * and each row's value under its first key is appended to that key's list.
   * A row that is not a dict fails on `.keys()` before any row is grouped;
   * an empty dict fails on `[0]`. The key order of the output comes from a
   * set and is unspecified, so the result is a map.
   */
  method ConvertListSolutionToDict(solutionList: seq<Json>) returns (r: Result<map<string, seq<Json>>>)
    ensures r.Ok? <==> AllRows(solutionList)
    ensures r.Err? ==> r.error == (if AllObjects(solutionList) then IndexError else AttributeError)
    ensures r.Ok? ==> r.value.Keys == KeySet(solutionList)
    ensures r.Ok? ==> forall k :: k in r.value ==> r.value[k] == Group(solutionList, k)
  {
    var allKeys :- CollectKeys(solutionList);
    r := GroupRows(solutionList, allKeys);
  }

  /** The first pass: the union of all keys, or `AttributeError` at the first row that is not a dict. */
  method CollectKeys(solutionList: seq<Json>) returns (r: Result<set<string>>)
    ensures r.Ok? <==> AllObjects(solutionList)
    ensures r.Err? ==> r.error == AttributeError
    ensures r.Ok? ==> r.value == KeySet(solutionList)
  {
    var allKeys: set<string> := {};
    var i := 0;
    while i < |solutionList|
      invariant 0 <= i <= |solutionList|
      invariant AllObjects(solutionList[..i])
      invariant allKeys == KeySet(solutionList[..i])
    {
      if !solutionList[i].JObj? {
        return Err(AttributeError);
      }
      var fields := solutionList[i].fields;
      assert solutionList[..i + 1][..i] == solutionList[..i];
      allKeys := allKeys + set j | 0 <= j < |fields| :: fields[j].0;
      i := i + 1;
    }
    assert solutionList[..i] == solutionList;
    return Ok(allKeys);
  }

  /** The second pass: each row's first value appended under its first key, or `IndexError` at the first empty dict. */
  method GroupRows(solutionList: seq<Json>, allKeys: set<string>) returns (r: Result<map<string, seq<Json>>>)
    requires AllObjects(solutionList) && allKeys == KeySet(solutionList)
    ensures r.Ok? <==> AllRows(solutionList)
    ensures r.Err? ==> r.error == IndexError
    ensures r.Ok? ==> r.value.Keys == allKeys
    ensures r.Ok? ==> forall k :: k in r.value ==> r.value[k] == Group(solutionList, k)
  {
    var corrected: map<string, seq<Json>> := map k | k in allKeys :: [];
    var i := 0;
    while i < |solutionList|
      invariant 0 <= i <= |solutionList|
      invariant AllRows(solutionList[..i])
      invariant corrected.Keys == allKeys
      invariant forall k :: k in corrected ==> corrected[k] == Group(solutionList[..i], k)
    {
      var fields := solutionList[i].fields;
      if |fields| == 0 {
        return Err(IndexError);
      }
      GroupSnoc(solutionList, i);
      corrected := corrected[fields[0].0 := corrected[fields[0].0] + [fields[0].1]];
      i := i + 1;
    }
    assert solutionList[..i] == solutionList;
    return Ok(corrected);
  }

  lemma GroupSnoc(list: seq<Json>, i: nat)
    requires i < |list| && AllRows(list[..i]) && list[i].JObj? && |list[i].fields| > 0
    ensures AllRows(list[..i + 1])
    ensures forall k :: Group(list[..i + 1], k)
                        == Group(list[..i], k) + (if list[i].fields[0].0 == k then [list[i].fields[0].1] else [])
  {
    assert list[..i + 1][..i] == list[..i];
  }

  lemma {:induction false} GroupSingles(pairs: Dict<Json>, k: string)
    ensures AllRows(Singles(pairs))
    ensures Group(Singles(pairs), k) == Lookup(pairs, k)
    decreases |pairs|
  {
    if pairs != [] {
      var n := |pairs| - 1;
      GroupSingles(pairs[..n], k);
      GroupSinglesSnoc(pairs, k);
      TakeLast(pairs);
      LookupConcat(pairs[..n], [pairs[n]], k);
    }
  }

  /** The last pair's row contributes its value under its own key. */
  lemma GroupSinglesSnoc(pairs: Dict<Json>, k: string)
    requires pairs != [] && AllRows(Singles(pairs[..|pairs| - 1]))
    ensures AllRows(Singles(pairs))
    ensures Group(Singles(pairs), k)
            == Group(Singles(pairs[..|pairs| - 1]), k) + (if pairs[|pairs| - 1].0 == k then [pairs[|pairs| - 1].1] else [])
  {
    var n := |pairs| - 1;
    assert Singles(pairs)[..n] == Singles(pairs[..n]);
  }

  lemma KeySetSingles(pairs: Dict<Json>, k: string)
    ensures AllObjects(Singles(pairs))
    ensures k in KeySet(Singles(pairs)) <==> HasKey(pairs, k)
  {
    var rows := Singles(pairs);
    if HasKey(pairs, k) {
      var i := IndexOf(pairs, k).value;
      assert rows[i].fields[0].0 == k;
    }
  }

  /**
   * Preparing a solution and converting its rows back regroups it: the
   * persons that come back are exactly those with a non-empty list, each
   * with the items it listed, in order. Persons with no items disappear.
   */
  lemma PreparedRegroups(solutions: string, loads: Loads, k: string)
    requires PreparedPairs(solutions, loads).Ok?
    requires WellFormed(loads(solutions).value)
    ensures var rows := Singles(PreparedPairs(solutions, loads).value);
            var entries := loads(solutions).value.fields;
            && AllRows(rows)
            && (k in KeySet(rows) <==> HasKey(entries, k) && Truthy(Get(entries, k).value))
            && (HasKey(entries, k) ==> Visited(Get(entries, k).value).Ok?)
            && Group(rows, k) == if HasKey(entries, k) then Visited(Get(entries, k).value).value else []
  {
    var entries := loads(solutions).value.fields;
    var pairs := PreparedPairs(solutions, loads).value;
    PairsFromLookup([], entries, k);
    GroupSingles(pairs, k);
    KeySetSingles(pairs, k);
    LookupEmpty(pairs, k);
  }

  /**
   * A solution id as a dict key: a string is used as it is, a list or dict
   * is unhashable (`TypeError`), and any other scalar is a key that no
   * verdict, whose keys are strings, can ever name (`None`).
   */
  function IdKey(id: Json): (r: Result<Option<string>>)
    ensures r.Ok? <==> !id.JArr? && !id.JObj?
    ensures r.Ok? ==> (r.value.Some? <==> id.JStr?) && (id.JStr? ==> r.value == Some(id.s))
    ensures r.Err? ==> r.error == TypeError
  {
    match id
    case JStr(s) => Ok(Some(s))
    case JArr(_) => Err(TypeError)
    case JObj(_) => Err(TypeError)
    case _ => Ok(None)
  }

  /** In a proper dict, the key at position `i` subscripts to the value there. */
  lemma FieldAt(fields: Dict<Json>, i: nat)
    requires Wf(fields) && i < |fields|
    ensures Subscript(JObj(fields), fields[i].0) == Ok(fields[i].1)
  {
    assert IndexOf(fields, fields[i].0) == Some(i);
  }

  /** The record `categorize_solutions` keeps for one proposed item of `person`. */
  function ProposalRecord(person: string, inner: Json): (r: Result<Json>)
    ensures r.Ok? <==> inner.JObj? && HasKey(inner.fields, ReasoningKey) && HasKey(inner.fields, ContextField)
                       && HasKey(inner.fields, IdentifierField)
    ensures r.Err? ==> r.error == (if inner.JObj? then KeyError else TypeError)
    ensures r.Ok? ==> && Subscript(r.value, IdentifierField) == Subscript(inner, IdentifierField)
                      && Subscript(r.value, ContextField) == Subscript(inner, ContextField)
                      && Subscript(r.value, PersonField) == Ok(JStr(person))
  {
    var reasoning :- Subscript(inner, ReasoningKey);
    var context :- Subscript(inner, ContextField);
    var identifier :- Subscript(inner, IdentifierField);
    var fields := [(ReasoningKey, reasoning), (ContextField, context), (IdentifierField, identifier), (PersonField, JStr(person))];
    FieldAt(fields, 1);
    FieldAt(fields, 2);
    FieldAt(fields, 3);
    Ok(JObj(fields))
  }

  /**
   * One step of the `solution_temp_dict` comprehension: the id is read
   * first, then the record is built, then the id is hashed.
   */
  function AddProposal(table: Dict<Json>, person: string, inner: Json): (r: Result<Dict<Json>>)
    ensures r.Ok? ==> && Subscript(inner, SolutionIdField).Ok? && ProposalRecord(person, inner).Ok?
                      && r.value == if Subscript(inner, SolutionIdField).value.JStr?
                                    then Put(table, Subscript(inner, SolutionIdField).value.s, ProposalRecord(person, inner).value)
                                    else table
  {
    var id :- Subscript(inner, SolutionIdField);
    var record :- ProposalRecord(person, inner);
    var key :- IdKey(id);
    if key.Some? then Ok(Put(table, key.value, record)) else Ok(table)
  }

  /**
   * `solution_temp_dict`, continuing from `table`; the rows of
   * `prepare_solution_for_verification` each hold one (person, item) pair,
   * so `solution.items()` visits exactly that pair.
   */
  function ProposalTableFrom(table: Dict<Json>, pairs: Dict<Json>): Result<Dict<Json>>
    decreases |pairs|
  {
    if pairs == [] then Ok(table)
    else
      var t :- AddProposal(table, pairs[0].0, pairs[0].1);
      ProposalTableFrom(t, pairs[1..])
  }

  /**
   * The proposal table is a proper dict, and every item with a string id
   * is in it.
   */
  lemma ProposalTableShape(table: Dict<Json>, pairs: Dict<Json>)
    requires Wf(table)
    requires ProposalTableFrom(table, pairs).Ok?
    ensures Wf(ProposalTableFrom(table, pairs).value)
    ensures forall k :: HasKey(table, k) ==> HasKey(ProposalTableFrom(table, pairs).value, k)
    ensures forall j :: 0 <= j < |pairs| && Subscript(pairs[j].1, SolutionIdField).Ok?
                        && Subscript(pairs[j].1, SolutionIdField).value.JStr? ==>
                          HasKey(ProposalTableFrom(table, pairs).value, Subscript(pairs[j].1, SolutionIdField).value.s)
  {
    ProposalTableKeeps(table, pairs);
    forall j | 0 <= j < |pairs| && Subscript(pairs[j].1, SolutionIdField).Ok? && Subscript(pairs[j].1, SolutionIdField).value.JStr?
      ensures HasKey(ProposalTableFrom(table, pairs).value, Subscript(pairs[j].1, SolutionIdField).value.s)
    {
      ProposalTableHolds(table, pairs, j, Subscript(pairs[j].1, SolutionIdField).value.s);
    }
  }

  /** A successful comprehension is a successful first step followed by the rest. */
  lemma ProposalTableFromHead(table: Dict<Json>, pairs: Dict<Json>)
    requires pairs != [] && ProposalTableFrom(table, pairs).Ok?
    ensures AddProposal(table, pairs[0].0, pairs[0].1).Ok?
    ensures ProposalTableFrom(table, pairs) == ProposalTableFrom(AddProposal(table, pairs[0].0, pairs[0].1).value, pairs[1..])
  {
  }

  /** The comprehension keeps the table a proper dict and keeps every key it had. */
  lemma {:induction false} ProposalTableKeeps(table: Dict<Json>, pairs: Dict<Json>)
    requires Wf(table)
    requires ProposalTableFrom(table, pairs).Ok?
    ensures Wf(ProposalTableFrom(table, pairs).value)
    ensures forall k :: HasKey(table, k) ==> HasKey(ProposalTableFrom(table, pairs).value, k)
    decreases |pairs|, 1
  {
    if pairs != [] {
      AddProposalShape(table, pairs[0].0, pairs[0].1);
      ProposalTableFromHead(table, pairs);
      ProposalTableKeepsTail(AddProposal(table, pairs[0].0, pairs[0].1).value, pairs);
    }
  }

  lemma {:induction false} ProposalTableKeepsTail(t: Dict<Json>, pairs: Dict<Json>)
    requires pairs != [] && Wf(t)
    requires ProposalTableFrom(t, pairs[1..]).Ok?
    ensures Wf(ProposalTableFrom(t, pairs[1..]).value)
    ensures forall k :: HasKey(t, k) ==> HasKey(ProposalTableFrom(t, pairs[1..]).value, k)
    decreases |pairs|, 0
  {
    ProposalTableKeeps(t, pairs[1..]);
  }

  /** The item of pair `j`, when its id is a string, is in the table. */
  lemma {:induction false} ProposalTableHolds(table: Dict<Json>, pairs: Dict<Json>, j: nat, id: string)
    requires Wf(table)
    requires ProposalTableFrom(table, pairs).Ok?
    requires j < |pairs| && Subscript(pairs[j].1, SolutionIdField) == Ok(JStr(id))
    ensures HasKey(ProposalTableFrom(table, pairs).value, id)
    decreases |pairs|, 1
  {
    AddProposalShape(table, pairs[0].0, pairs[0].1);
    ProposalTableFromHead(table, pairs);
    var t := AddProposal(table, pairs[0].0, pairs[0].1).value;
    if j == 0 {
      ProposalTableKeepsTail(t, pairs);
    } else {
      ProposalTableHoldsTail(t, pairs, j, id);
    }
  }

  lemma {:induction false} ProposalTableHoldsTail(t: Dict<Json>, pairs: Dict<Json>, j: nat, id: string)
    requires Wf(t)
    requires 0 < j < |pairs| && ProposalTableFrom(t, pairs[1..]).Ok?
    requires Subscript(pairs[j].1, SolutionIdField) == Ok(JStr(id))
    ensures HasKey(ProposalTableFrom(t, pairs[1..]).value, id)
    decreases |pairs|, 0
  {
    DropIndex(pairs, 1, j - 1);
    ProposalTableHolds(t, pairs[1..], j - 1, id);
  }

  /** One comprehension step keeps the table a proper dict of records and holds the item's string id. */
  lemma AddProposalShape(table: Dict<Json>, person: string, inner: Json)
    requires Wf(table)
    requires AddProposal(table, person, inner).Ok?
    ensures var t := AddProposal(table, person, inner).value;
            && Wf(t)
            && (forall k :: HasKey(table, k) ==> HasKey(t, k))
            && (Subscript(inner, SolutionIdField).value.JStr? ==> HasKey(t, Subscript(inner, SolutionIdField).value.s))
  {
    var id := Subscript(inner, SolutionIdField).value;
    var record := ProposalRecord(person, inner).value;
    if id.JStr? {
      PutRecord(table, id.s, record);
    }
  }

  /** Writing a key keeps a proper dict proper, and holds the written key and the old ones. */
  lemma PutRecord(table: Dict<Json>, key: string, record: Json)
    requires Wf(table)
    ensures var t := Put(table, key, record);
            && Wf(t) && HasKey(t, key)
            && (forall k :: HasKey(table, k) ==> HasKey(t, k))
  {
    PutWf(table, key, record);
    PutGet(table, key, record, key);
    forall k | HasKey(table, k) ensures HasKey(Put(table, key, record), k) {
      PutGet(table, key, record, k);
    }
  }

  lemma PutGetAll(d: Dict<Json>, k: string, v: Json)
    ensures forall k' :: Get(Put(d, k, v), k') == if k' == k then Some(v) else Get(d, k')
  {
    forall k' {
      PutGet(d, k, v, k');
    }
  }

  /** One verdict reply: its parse and the value under its first key. */
  function VerdictEntry(reply: string, loads: Loads): (r: Result<(string, Json)>)
    ensures r.Ok? ==> && ExtractJsonFromResponse(reply, loads).Ok?
                      && AsJson(ExtractJsonFromResponse(reply, loads).value).JObj?
                      && |AsJson(ExtractJsonFromResponse(reply, loads).value).fields| > 0
                      && r.value == AsJson(ExtractJsonFromResponse(reply, loads).value).fields[0]
    ensures r.Err? ==> r.error in {JsonDecodeError, AttributeError, IndexError}
  {
    var extracted :- ExtractJsonFromResponse(reply, loads);
    var temp := AsJson(extracted);
    var key :- FirstKey(temp);
    Ok((key, temp.fields[0].1))
  }

  /** `verification_results_dict`, continuing from `acc`: one entry per reply, later replies winning. */
  function VerdictTableFrom(acc: Dict<Json>, replies: seq<string>, loads: Loads): (r: Result<Dict<Json>>)
    ensures r.Ok? && Wf(acc) ==> Wf(r.value)
    decreases |replies|
  {
    if replies == [] then Ok(acc)
    else
      var entry :- VerdictEntry(replies[0], loads);
      if Wf(acc) then
        PutWf(acc, entry.0, entry.1);
        VerdictTableFrom(Put(acc, entry.0, entry.1), replies[1..], loads)
      else VerdictTableFrom(Put(acc, entry.0, entry.1), replies[1..], loads)
  }

  /** The fields the proposals, the verdict entries and the person records are read and written under. */
  const IdentifierField: string := "identifier"
  const ContextField: string := "context"
  const PersonField: string := "uuid_person"
  const ReasonField: string := "reason_why_false"
  const PersonUuidField: string := "person_uuid"
  const SolutionIdField: string := "uuid_of_solution"

  /** What the verdict loop has produced so far. */
  datatype Categories = Categories(corrected: seq<Json>, incorrect: Dict<Json>)

  /**
   * One verdict: its `bool` is read, the proposal with its id looked up
   * (`KeyError` when there is none) and its identifier read; a holding
   * verdict contributes that identifier, a failing one an entry with the
   * identifier, the verdict's reasoning, and the proposal's context and person.
   */
  function SortVerdict(c: Categories, table: Dict<Json>, key: string, verdict: Json): Result<Categories>
  {
    var flag :- Subscript(verdict, BoolKey);
    var record :- Subscript(JObj(table), key);
    var identifier :- Subscript(record, IdentifierField);
    if Truthy(flag) then Ok(Categories(c.corrected + [identifier], c.incorrect))
    else
      var reason :- Subscript(verdict, ReasoningKey);
      var context :- Subscript(record, ContextField);
      var person :- Subscript(record, PersonField);
      Ok(Categories(c.corrected, Put(c.incorrect, key, Rejection(identifier, reason, context, person))))
  }

  /** The entry of `incorrect_dict` for a solution that failed verification. */
  function Rejection(identifier: Json, reason: Json, context: Json, person: Json): Json
  {
    JObj([(IdentifierField, identifier), (ReasonField, reason), (ContextField, context), (PersonField, person)])
  }

  function SortFrom(c: Categories, table: Dict<Json>, verdicts: Dict<Json>): Result<Categories>
    decreases |verdicts|
  {
    if verdicts == [] then Ok(c)
    else
      var c' :- SortVerdict(c, table, verdicts[0].0, verdicts[0].1);
      SortFrom(c', table, verdicts[1..])
  }

  /** The last loop of `categorize_solutions`, over the verdicts in order. */
  method SortVerdicts(table: Dict<Json>, verdicts: Dict<Json>) returns (r: Result<Categories>)
    ensures r == SortFrom(Categories([], []), table, verdicts)
  {
    var c := Categories([], []);
    var i := 0;
    while i < |verdicts|
      invariant 0 <= i <= |verdicts|
      invariant SortFrom(Categories([], []), table, verdicts) == SortFrom(c, table, verdicts[i..])
    {
      assert verdicts[i..][1..] == verdicts[i + 1..];
      c :- SortVerdict(c, table, verdicts[i].0, verdicts[i].1);
      i := i + 1;
    }
    assert verdicts[i..] == [];
    return Ok(c);
  }

  /** Whether verdict `v` of `key` holds; `None` when it cannot be read or has no proposal. */
  function Holds(table: Dict<Json>, key: string, v: Json): Option<bool>
  {
    if Subscript(v, BoolKey).Ok? && HasKey(table, key) then Some(Truthy(Subscript(v, BoolKey).value)) else None
  }

  /** What one verdict adds to the corrected list: its proposal's identifier when it holds. */
  function HeldHead(table: Dict<Json>, key: string, v: Json): seq<Json>
  {
    if Holds(table, key, v) == Some(true) && Subscript(Get(table, key).value, IdentifierField).Ok?
    then [Subscript(Get(table, key).value, IdentifierField).value] else []
  }

  /** Reference for the corrected list: the identifiers of the holding verdicts, in order. */
  function HeldIdentifiers(table: Dict<Json>, verdicts: Dict<Json>): seq<Json>
    decreases |verdicts|
  {
    if verdicts == [] then [] else HeldHead(table, verdicts[0].0, verdicts[0].1) + HeldIdentifiers(table, verdicts[1..])
  }

  lemma SortVerdictCorrected(c: Categories, table: Dict<Json>, key: string, verdict: Json)
    requires SortVerdict(c, table, key, verdict).Ok?
    ensures SortVerdict(c, table, key, verdict).value.corrected == c.corrected + HeldHead(table, key, verdict)
  {
    SortVerdictOk(c, table, key, verdict);
    if !Truthy(Subscript(verdict, BoolKey).value) {
      assert c.corrected + [] == c.corrected;
    }
  }

  /** What one successful verdict step did. */
  lemma SortVerdictOk(c: Categories, table: Dict<Json>, key: string, verdict: Json)
    requires SortVerdict(c, table, key, verdict).Ok?
    ensures Subscript(verdict, BoolKey).Ok? && HasKey(table, key) && Subscript(Get(table, key).value, IdentifierField).Ok?
    ensures var record := Get(table, key).value;
            var identifier := Subscript(record, IdentifierField).value;
            Truthy(Subscript(verdict, BoolKey).value) ==>
              SortVerdict(c, table, key, verdict).value == Categories(c.corrected + [identifier], c.incorrect)
    ensures var record := Get(table, key).value;
            var identifier := Subscript(record, IdentifierField).value;
            !Truthy(Subscript(verdict, BoolKey).value) ==>
              && Subscript(verdict, ReasoningKey).Ok? && Subscript(record, ContextField).Ok? && Subscript(record, PersonField).Ok?
              && SortVerdict(c, table, key, verdict).value
                 == Categories(c.corrected, Put(c.incorrect, key,
                      Rejection(identifier, Subscript(verdict, ReasoningKey).value,
                                Subscript(record, ContextField).value, Subscript(record, PersonField).value)))
  {
  }


  /** A successful run of the loop is a successful first step followed by a successful rest. */
  lemma SortFromStep(c: Categories, table: Dict<Json>, verdicts: Dict<Json>)
    requires verdicts != [] && SortFrom(c, table, verdicts).Ok?
    ensures SortVerdict(c, table, verdicts[0].0, verdicts[0].1).Ok?
    ensures SortFrom(c, table, verdicts) == SortFrom(SortVerdict(c, table, verdicts[0].0, verdicts[0].1).value, table, verdicts[1..])
  {
  }

  /** The corrected list is the identifiers of the holding verdicts, in verdict order. */
  lemma {:induction false} SortedCorrected(c: Categories, table: Dict<Json>, verdicts: Dict<Json>)
    requires SortFrom(c, table, verdicts).Ok?
    ensures SortFrom(c, table, verdicts).value.corrected == c.corrected + HeldIdentifiers(table, verdicts)
    decreases |verdicts|
  {
    if verdicts == [] {
      assert c.corrected + [] == c.corrected;
    } else {
      SortFromStep(c, table, verdicts);
      var c' := SortVerdict(c, table, verdicts[0].0, verdicts[0].1).value;
      SortVerdictCorrected(c, table, verdicts[0].0, verdicts[0].1);
      SortedCorrected(c', table, verdicts[1..]);
      var head := HeldHead(table, verdicts[0].0, verdicts[0].1);
      var tail := HeldIdentifiers(table, verdicts[1..]);
      assert HeldIdentifiers(table, verdicts) == head + tail;
      Assoc(c.corrected, head, tail);
    }
  }

  /**
   * `incorrect_dict` gains exactly the keys whose verdict fails, and the
   * entries it had are left alone.
   */
  lemma {:induction false} SortedIncorrect(c: Categories, table: Dict<Json>, verdicts: Dict<Json>, k: string)
    requires Wf(verdicts) && Wf(c.incorrect)
    requires forall i :: 0 <= i < |verdicts| ==> !HasKey(c.incorrect, verdicts[i].0)
    requires SortFrom(c, table, verdicts).Ok?
    ensures var s := SortFrom(c, table, verdicts).value;
            && Wf(s.incorrect)
            && (HasKey(verdicts, k) ==> Holds(table, k, Get(verdicts, k).value).Some?)
            && (HasKey(s.incorrect, k) <==> HasKey(c.incorrect, k)
                                             || (HasKey(verdicts, k) && Holds(table, k, Get(verdicts, k).value) == Some(false)))
            && (HasKey(c.incorrect, k) ==> Get(s.incorrect, k) == Get(c.incorrect, k))
    decreases |verdicts|, 1
  {
    if verdicts != [] {
      var key := verdicts[0].0;
      var c' := SortVerdict(c, table, key, verdicts[0].1).value;
      var rest := verdicts[1..];
      SortVerdictOk(c, table, key, verdicts[0].1);
      IncorrectStep(c, c', key);
      HasKeyCons(verdicts);
      SortedIncorrectTail(c', table, verdicts, k);
      if key != k && HasKey(rest, k) {
        var i := IndexOf(rest, k).value;
        assert verdicts[i + 1] == rest[i];
        assert Get(verdicts, k) == Get(rest, k);
      }
    }
  }

  lemma {:induction false} SortedIncorrectTail(c: Categories, table: Dict<Json>, verdicts: Dict<Json>, k: string)
    requires verdicts != [] && Wf(verdicts) && Wf(c.incorrect)
    requires forall i :: 1 <= i < |verdicts| ==> !HasKey(c.incorrect, verdicts[i].0)
    requires SortFrom(c, table, verdicts[1..]).Ok?
    ensures var s := SortFrom(c, table, verdicts[1..]).value;
            && Wf(s.incorrect)
            && (HasKey(verdicts[1..], k) ==> Holds(table, k, Get(verdicts[1..], k).value).Some?)
            && (HasKey(s.incorrect, k) <==> HasKey(c.incorrect, k)
                                             || (HasKey(verdicts[1..], k) && Holds(table, k, Get(verdicts[1..], k).value) == Some(false)))
            && (HasKey(c.incorrect, k) ==> Get(s.incorrect, k) == Get(c.incorrect, k))
    decreases |verdicts|, 0
  {
    var rest := verdicts[1..];
    assert Wf(rest);
    forall i | 0 <= i < |rest| ensures !HasKey(c.incorrect, rest[i].0) {
      DropIndex(verdicts, 1, i);
    }
    SortedIncorrect(c, table, rest, k);
  }

  /** A verdict step either leaves `incorrect_dict` alone or appends its fresh key. */
  lemma IncorrectStep(c: Categories, c': Categories, key: string)
    requires Wf(c.incorrect) && !HasKey(c.incorrect, key)
    requires c'.incorrect == c.incorrect || exists v :: c'.incorrect == Put(c.incorrect, key, v)
    ensures Wf(c'.incorrect)
    ensures forall k :: HasKey(c'.incorrect, k) <==> HasKey(c.incorrect, k) || (k == key && c'.incorrect != c.incorrect)
    ensures forall k :: HasKey(c.incorrect, k) ==> Get(c'.incorrect, k) == Get(c.incorrect, k)
  {
    if c'.incorrect != c.incorrect {
      var v :| c'.incorrect == Put(c.incorrect, key, v);
      PutWf(c.incorrect, key, v);
      assert c'.incorrect == c.incorrect + [(key, v)];
      forall k ensures HasKey(c'.incorrect, k) <==> HasKey(c.incorrect, k) || k == key {
        HasKeyConcat(c.incorrect, [(key, v)], k);
        assert [(key, v)][0].0 == key;
      }
      forall k | HasKey(c.incorrect, k) ensures Get(c'.incorrect, k) == Get(c.incorrect, k) {
        PutGet(c.incorrect, key, v, k);
      }
    }
  }

  /** A verdict whose id no proposal carries makes the verdict loop fail. */
  lemma SortMissingProposal(c: Categories, table: Dict<Json>, verdicts: Dict<Json>, i: nat)
    requires i < |verdicts| && !HasKey(table, verdicts[i].0)
    ensures SortFrom(c, table, verdicts).Err?
  {
    SortMissingKey(c, table, verdicts, i, verdicts[i].0);
  }

  lemma {:induction false} SortMissingKey(c: Categories, table: Dict<Json>, verdicts: Dict<Json>, i: nat, key: string)
    requires i < |verdicts| && verdicts[i].0 == key && !HasKey(table, key)
    ensures SortFrom(c, table, verdicts).Err?
    decreases |verdicts|, 1
  {
    var head := SortVerdict(c, table, verdicts[0].0, verdicts[0].1);
    if i == 0 {
      SortVerdictMissing(c, table, key, verdicts[0].1);
    } else if head.Ok? {
      SortMissingTail(head.value, table, verdicts, i, key);
      SortFromHeadOk(c, table, verdicts);
    }
  }

  lemma {:induction false} SortMissingTail(c: Categories, table: Dict<Json>, verdicts: Dict<Json>, i: nat, key: string)
    requires 0 < i < |verdicts| && verdicts[i].0 == key && !HasKey(table, key)
    ensures SortFrom(c, table, verdicts[1..]).Err?
    decreases |verdicts|, 0
  {
    DropIndex(verdicts, 1, i - 1);
    SortMissingKey(c, table, verdicts[1..], i - 1, key);
  }

  /** A verdict that sorts hands its categories on to the rest of the loop. */
  lemma SortFromHeadOk(c: Categories, table: Dict<Json>, verdicts: Dict<Json>)
    requires verdicts != [] && SortVerdict(c, table, verdicts[0].0, verdicts[0].1).Ok?
    ensures SortFrom(c, table, verdicts) == SortFrom(SortVerdict(c, table, verdicts[0].0, verdicts[0].1).value, table, verdicts[1..])
  {
  }

  /** A verdict whose id has no proposal raises. */
  lemma SortVerdictMissing(c: Categories, table: Dict<Json>, key: string, verdict: Json)
    requires !HasKey(table, key)
    ensures SortVerdict(c, table, key, verdict).Err?
  {
  }

  /** An incorrect entry carries the identifier, context and person of its proposal. */
  predicate AgreesWith(entry: Json, record: Json)
  {
    && Subscript(entry, IdentifierField) == Subscript(record, IdentifierField)
    && Subscript(entry, ContextField) == Subscript(record, ContextField)
    && Subscript(entry, PersonField) == Subscript(record, PersonField)
  }

  predicate FromProposals(table: Dict<Json>, incorrect: Dict<Json>)
  {
    forall i :: 0 <= i < |incorrect| ==> HasKey(table, incorrect[i].0) && AgreesWith(incorrect[i].1, Get(table, incorrect[i].0).value)
  }

  lemma RejectionAgrees(identifier: Json, reason: Json, context: Json, person: Json, record: Json)
    requires Subscript(record, IdentifierField) == Ok(identifier)
    requires Subscript(record, ContextField) == Ok(context)
    requires Subscript(record, PersonField) == Ok(person)
    ensures AgreesWith(Rejection(identifier, reason, context, person), record)
  {
    var f := Rejection(identifier, reason, context, person).fields;
    FieldAt(f, 0);
    FieldAt(f, 2);
    FieldAt(f, 3);
  }

  lemma PutAgrees(table: Dict<Json>, incorrect: Dict<Json>, key: string, entry: Json)
    requires FromProposals(table, incorrect)
    requires HasKey(table, key) && AgreesWith(entry, Get(table, key).value)
    ensures FromProposals(table, Put(incorrect, key, entry))
  {
  }

  /** Every incorrect entry the loop writes agrees with the proposal of its key. */
  lemma {:induction false} IncorrectFromProposals(c: Categories, table: Dict<Json>, verdicts: Dict<Json>)
    requires FromProposals(table, c.incorrect)
    requires SortFrom(c, table, verdicts).Ok?
    ensures FromProposals(table, SortFrom(c, table, verdicts).value.incorrect)
    decreases |verdicts|
  {
    if verdicts != [] {
      var key := verdicts[0].0;
      var c' := SortVerdict(c, table, key, verdicts[0].1).value;
      SortVerdictOk(c, table, key, verdicts[0].1);
      if !Truthy(Subscript(verdicts[0].1, BoolKey).value) {
        var record := Get(table, key).value;
        var identifier := Subscript(record, IdentifierField).value;
        var reason := Subscript(verdicts[0].1, ReasoningKey).value;
        var context := Subscript(record, ContextField).value;
        var person := Subscript(record, PersonField).value;
        var rej := Rejection(identifier, reason, context, person);
        RejectionAgrees(identifier, reason, context, person, record);
        PutAgrees(table, c.incorrect, key, rej);
      }
      IncorrectFromProposals(c', table, verdicts[1..]);
    }
  }

  /** `categorize_solutions` of the meta prompter for individuals, as one value. */
  function Categorized(solutions: string, verificationResults: seq<string>, loads: Loads): Result<Categories>
  {
    var pairs :- PreparedPairs(solutions, loads);
    var table :- ProposalTableFrom([], pairs);
    var verdicts :- VerdictTableFrom([], verificationResults, loads);
    SortFrom(Categories([], []), table, verdicts)
  }

  /**
   * `categorize_solutions`: the proposals are tabled by solution id, the
   * verdict replies by their first key, and every verdict sorted into the
   * corrected identifiers or the incorrect entries.
   */
  method CategorizeSolutions(solutions: string, verificationResults: seq<string>, loads: Loads)
    returns (r: Result<Categories>)
    ensures r == Categorized(solutions, verificationResults, loads)
  {
    var rows :- PrepareSolutionForVerification(solutions, loads);
    var pairs := PreparedPairs(solutions, loads).value;
    var table :- ProposalTableFrom([], pairs);
    var verdicts :- VerdictTableFrom([], verificationResults, loads);
    r := SortVerdicts(table, verdicts);
  }

  /**
   * What `categorize_solutions` promises: every verdict key lands on
   * exactly one side, by its `bool`, and the incorrect entries carry the
   * proposal's identifier; a verdict id that names no proposal is an error.
   */
  lemma CategorizedPartition(solutions: string, verificationResults: seq<string>, loads: Loads, k: string)
    requires Categorized(solutions, verificationResults, loads).Ok?
    ensures var table := ProposalTableFrom([], PreparedPairs(solutions, loads).value).value;
            var verdicts := VerdictTableFrom([], verificationResults, loads).value;
            var c := Categorized(solutions, verificationResults, loads).value;
            && c.corrected == HeldIdentifiers(table, verdicts)
            && (HasKey(verdicts, k) ==> HasKey(table, k) && Subscript(Get(verdicts, k).value, BoolKey).Ok?)
            && (HasKey(c.incorrect, k) <==> HasKey(verdicts, k) && !Truthy(Subscript(Get(verdicts, k).value, BoolKey).value))
            && (HasKey(c.incorrect, k) ==> AgreesWith(Get(c.incorrect, k).value, Get(table, k).value))
  {
    var table := ProposalTableFrom([], PreparedPairs(solutions, loads).value).value;
    var verdicts := VerdictTableFrom([], verificationResults, loads).value;
    var c := Categorized(solutions, verificationResults, loads).value;
    SortedCorrected(Categories([], []), table, verdicts);
    SortedIncorrect(Categories([], []), table, verdicts, k);
    IncorrectFromProposals(Categories([], []), table, verdicts);
    if HasKey(c.incorrect, k) {
      var i := IndexOf(c.incorrect, k).value;
      assert Get(c.incorrect, k) == Some(c.incorrect[i].1);
    }
  }

  /** What one person's value yields to `for solution in solutions_person`: nothing for `None`. */
  function PersonSolutions(v: Json): (r: Result<seq<Json>>)
    ensures v.JNull? ==> r == Ok([])
    ensures !v.JNull? ==> r == Iterate(v)
  {
    if v.JNull? then Ok([]) else Iterate(v)
  }

  /** The record `solutions_proposed` keeps for one solution of `person`. */
  function PersonRecord(person: string, reasoning: Json, identifier: Json, context: Json): Json
  {
    JObj([(ReasoningKey, reasoning), (IdentifierField, identifier), (ContextField, context), (PersonUuidField, JStr(person))])
  }

  /** A proposal record carries the three fields a verdict takes over; `Copied` needs them. */
  predicate CarriesFields(p: Json)
  {
    forall j :: 0 <= j < |PersonFields| ==> Subscript(p, PersonFields[j]).Ok?
  }

  /** The fields a verdict takes over from its proposal: `person_uuid`, `identifier`, then `context`. */
  const PersonFields: seq<string> := [PersonUuidField, IdentifierField, ContextField]

  lemma PersonRecordFields(person: string, reasoning: Json, identifier: Json, context: Json)
    ensures Subscript(PersonRecord(person, reasoning, identifier, context), PersonUuidField) == Ok(JStr(person))
    ensures Subscript(PersonRecord(person, reasoning, identifier, context), IdentifierField) == Ok(identifier)
    ensures Subscript(PersonRecord(person, reasoning, identifier, context), ContextField) == Ok(context)
    ensures CarriesFields(PersonRecord(person, reasoning, identifier, context))
  {
    var f := PersonRecord(person, reasoning, identifier, context).fields;
    FieldAt(f, 1);
    FieldAt(f, 2);
    FieldAt(f, 3);
  }

  /**
   * `solutions_proposed[solution[SolutionIdField]] = {...}` for one
   * solution: the right-hand side is evaluated first, then the id is read
   * and hashed.
   */
  function AddPersonProposal(table: Dict<Json>, person: string, solution: Json): (r: Result<Dict<Json>>)
    ensures r.Ok? ==> && Subscript(solution, ReasoningKey).Ok? && Subscript(solution, IdentifierField).Ok?
                      && Subscript(solution, ContextField).Ok? && Subscript(solution, SolutionIdField).Ok?
    ensures r.Ok? ==> var id := Subscript(solution, SolutionIdField).value;
                      var record := PersonRecord(person, Subscript(solution, ReasoningKey).value,
                                                 Subscript(solution, IdentifierField).value, Subscript(solution, ContextField).value);
                      r.value == if id.JStr? then Put(table, id.s, record) else table
    ensures r.Err? ==> r.error in {KeyError, TypeError}
  {
    var reasoning :- Subscript(solution, ReasoningKey);
    var identifier :- Subscript(solution, IdentifierField);
    var context :- Subscript(solution, ContextField);
    var id :- Subscript(solution, SolutionIdField);
    var key :- IdKey(id);
    var record := PersonRecord(person, reasoning, identifier, context);
    if key.Some? then Ok(Put(table, key.value, record)) else Ok(table)
  }

  /** The solutions of one person added in order. */
  function AddPersonSolutions(table: Dict<Json>, person: string, solutions: seq<Json>): Result<Dict<Json>>
    decreases |solutions|
  {
    if solutions == [] then Ok(table)
    else
      var t :- AddPersonProposal(table, person, solutions[0]);
      AddPersonSolutions(t, person, solutions[1..])
  }

  /** `solutions_proposed`, continuing from `table` over the remaining persons. */
  function PersonTableFrom(table: Dict<Json>, entries: Dict<Json>): Result<Dict<Json>>
    decreases |entries|
  {
    if entries == [] then Ok(table)
    else
      var solutions :- PersonSolutions(entries[0].1);
      var t :- AddPersonSolutions(table, entries[0].0, solutions);
      PersonTableFrom(t, entries[1..])
  }

  /** The proposal table of `process_verification_results`; a value without `.items()` is an `AttributeError`. */
  function PersonTable(unverified: Json): Result<Dict<Json>>
  {
    var entries :- Items(unverified);
    PersonTableFrom([], entries)
  }

  /** Proper dicts whose every record carries the copied fields. */
  predicate GoodTable(table: Dict<Json>)
  {
    Wf(table) && forall i :: 0 <= i < |table| ==> CarriesFields(table[i].1)
  }

  lemma AddPersonProposalGood(table: Dict<Json>, person: string, solution: Json)
    requires GoodTable(table) && AddPersonProposal(table, person, solution).Ok?
    ensures GoodTable(AddPersonProposal(table, person, solution).value)
  {
    var id := Subscript(solution, SolutionIdField).value;
    var record := PersonRecord(person, Subscript(solution, ReasoningKey).value,
                               Subscript(solution, IdentifierField).value, Subscript(solution, ContextField).value);
    if id.JStr? {
      PersonRecordFields(person, Subscript(solution, ReasoningKey).value,
                         Subscript(solution, IdentifierField).value, Subscript(solution, ContextField).value);
      PutWf(table, id.s, record);
      PutPreserves(table, id.s, record, CarriesFields);
    }
  }

  lemma {:induction false} AddPersonSolutionsGood(table: Dict<Json>, person: string, solutions: seq<Json>)
    requires GoodTable(table) && AddPersonSolutions(table, person, solutions).Ok?
    ensures GoodTable(AddPersonSolutions(table, person, solutions).value)
    decreases |solutions|
  {
    if solutions != [] {
      AddPersonProposalGood(table, person, solutions[0]);
      AddPersonSolutionsGood(AddPersonProposal(table, person, solutions[0]).value, person, solutions[1..]);
    }
  }

  /** The proposal table is a proper dict, and each of its records carries the copied fields. */
  lemma {:induction false} PersonTableGood(table: Dict<Json>, entries: Dict<Json>)
    requires GoodTable(table) && PersonTableFrom(table, entries).Ok?
    ensures GoodTable(PersonTableFrom(table, entries).value)
    decreases |entries|
  {
    if entries != [] {
      var solutions := PersonSolutions(entries[0].1).value;
      AddPersonSolutionsGood(table, entries[0].0, solutions);
      PersonTableGood(AddPersonSolutions(table, entries[0].0, solutions).value, entries[1..]);
    }
  }

  /** The inner loop: one person's solutions entered in order. */
  method EnterPersonSolutions(table: Dict<Json>, person: string, solutions: seq<Json>) returns (r: Result<Dict<Json>>)
    ensures r == AddPersonSolutions(table, person, solutions)
  {
    var t := table;
    var j := 0;
    while j < |solutions|
      invariant 0 <= j <= |solutions|
      invariant AddPersonSolutions(table, person, solutions) == AddPersonSolutions(t, person, solutions[j..])
    {
      assert solutions[j..][1..] == solutions[j + 1..];
      t :- AddPersonProposal(t, person, solutions[j]);
      j := j + 1;
    }
    assert solutions[j..] == [];
    return Ok(t);
  }

  /** The first loop of `process_verification_results`: the proposals of every person, tabled by solution id. */
  method PersonProposals(unverified: Json) returns (r: Result<Dict<Json>>)
    ensures r == PersonTable(unverified)
  {
    var entries :- Items(unverified);
    var table: Dict<Json> := [];
    var i := 0;
    while i < |entries|
      invariant 0 <= i <= |entries|
      invariant PersonTableFrom([], entries) == PersonTableFrom(table, entries[i..])
    {
      assert entries[i..][1..] == entries[i + 1..];
      var solutions :- PersonSolutions(entries[i].1);
      table :- EnterPersonSolutions(table, entries[i].0, solutions);
      i := i + 1;
    }
    assert entries[i..] == [];
    return Ok(table);
  }

  /**
   * `process_verification_results` of the conversation for individuals:
   * the proposals of every person are tabled by solution id, the verdict
   * replies merged into one dict, and every verdict given the person,
   * identifier and context of the proposal with its id. The result has
   * exactly the verdict keys; it fails exactly when some verdict id has no
   * proposal or some verdict is not a dict.
   */
  method ProcessVerificationResults(verificationResults: seq<string>, unverified: Json, loads: Loads)
    returns (r: Result<Dict<Json>>)
    ensures !unverified.JObj? ==> r == Err(AttributeError)
    ensures r.Ok? ==> PersonTable(unverified).Ok? && IndependentSolutions.VerdictsFrom([], verificationResults, loads).Ok?
    ensures r.Ok? ==> var verdicts := IndependentSolutions.VerdictsFrom([], verificationResults, loads).value;
                      var proposed := PersonTable(unverified).value;
                      && Keys(r.value) == Keys(verdicts)
                      && forall i :: 0 <= i < |verdicts| ==>
                           && IndependentSolutions.Annotatable(proposed, verdicts[i].0, verdicts[i].1, PersonFields)
                           && r.value[i].1 == IndependentSolutions.Annotated(proposed, verdicts[i].0, verdicts[i].1, PersonFields)
    ensures PersonTable(unverified).Ok? && IndependentSolutions.VerdictsFrom([], verificationResults, loads).Ok? ==>
              var verdicts := IndependentSolutions.VerdictsFrom([], verificationResults, loads).value;
              var proposed := PersonTable(unverified).value;
              (r.Ok? <==> forall i :: 0 <= i < |verdicts| ==> HasKey(proposed, verdicts[i].0) && verdicts[i].1.JObj?)
  {
    var proposed :- PersonProposals(unverified);
    PersonTableGood([], Items(unverified).value);
    var verdicts :- IndependentSolutions.Verdicts(verificationResults, loads);
    IndependentSolutions.VerdictsFromWf([], verificationResults, loads);
    r := IndependentSolutions.Annotate(verdicts, proposed, PersonFields);
    forall i | 0 <= i < |verdicts| && HasKey(proposed, verdicts[i].0)
      ensures CarriesFields(Get(proposed, verdicts[i].0).value)
    {
      var j := IndexOf(proposed, verdicts[i].0).value;
      assert Get(proposed, verdicts[i].0) == Some(proposed[j].1);
    }
  }
}
