/**
 * The record shaping of `src/module/entity_designation.py`: the codes the
 * model extracted, sorted into government ids, codes and telephone
 * numbers; the extracted codes not found in the text, numbered as errors;
 * the location records across the seven location categories; and the
 * person-location links. The model's replies are JSON values; the
 * database writes are not part of this model.
 */
module EntityDesignation {
  import opened Wrappers
  import opened Text
  import opened Dicts
  import opened Json
  import opened Folds
  import opened Seqs
  import Evaluation

  /** The id generator: the `n`-th id drawn (`str(uuid.uuid4())[:18]`). */
  type Uuids = nat -> string

  const GovernmentIdsKey: string := "government_ids"
  const CodesKey: string := "codes"
  const TelephoneNumbersKey: string := "telephone_numbers"
  const IdentifierKey: string := "identifier"
  const ContextKey: string := "context"
  const TypeKey: string := "type"
  const PersonUuidKey: string := "person_uuid"
  const ItemKey: string := "item"
  const UuidKey: string := "uuid"
  const ErrorPrefix: string := "error_"

  // ---------------------------------------------------------------------
  // extract_codes_from_dict

  datatype CodeKind = GovernmentId | Code | TelephoneNumber

  /** The list a key of a person's codes is routed to; other keys are ignored. */
  function KindOf(key: string): (r: Option<CodeKind>)
    ensures r == Some(GovernmentId) <==> key == GovernmentIdsKey
    ensures r == Some(Code) <==> key == CodesKey
    ensures r == Some(TelephoneNumber) <==> key == TelephoneNumbersKey
  {
    if key == GovernmentIdsKey then Some(GovernmentId)
    else if key == CodesKey then Some(Code)
    else if key == TelephoneNumbersKey then Some(TelephoneNumber)
    else None
  }

  /** One extracted item, before it gets its uuid. */
  datatype CodeItem = CodeItem(kind: CodeKind, personUuid: string, identifier: Json, context: Json)

  /** One record of the returned lists. */
  datatype CodeRecord = CodeRecord(personUuid: string, identifier: Json, context: Json, uuid: string)

  datatype CodeLists = CodeLists(governmentIds: seq<CodeRecord>, codes: seq<CodeRecord>, telephoneNumbers: seq<CodeRecord>)

  function ListOf(lists: CodeLists, kind: CodeKind): seq<CodeRecord>
  {
    match kind
    case GovernmentId => lists.governmentIds
    case Code => lists.codes
    case TelephoneNumber => lists.telephoneNumbers
  }

  function WithList(lists: CodeLists, kind: CodeKind, list: seq<CodeRecord>): (r: CodeLists)
    ensures ListOf(r, kind) == list
    ensures forall other :: other != kind ==> ListOf(r, other) == ListOf(lists, other)
  {
    match kind
    case GovernmentId => lists.(governmentIds := list)
    case Code => lists.(codes := list)
    case TelephoneNumber => lists.(telephoneNumbers := list)
  }

  /** `item["identifier"]`, then `item["context"]`. */
  function ItemRecord(kind: CodeKind, person: string, item: Json): Result<seq<CodeItem>>
  {
    var identifier :- Subscript(item, IdentifierKey);
    var context :- Subscript(item, ContextKey);
    Ok([CodeItem(kind, person, identifier, context)])
  }

  function ItemRecordOf(kind: CodeKind, person: string): Json -> Result<seq<CodeItem>>
  {
    item => ItemRecord(kind, person, item)
  }

  /** What `append_data` appends for a person's list under one key, before the uuids. */
  function KindItems(kind: CodeKind, person: string, items: Json): Result<seq<CodeItem>>
  {
    var xs :- Iterate(items);
    FoldConcat(xs, ItemRecordOf(kind, person))
  }

  /** One key of a person's codes: falsy values and unknown keys contribute nothing. */
  function KeyItems(person: string, entry: (string, Json)): (r: Result<seq<CodeItem>>)
    ensures !Truthy(entry.1) || KindOf(entry.0).None? ==> r == Ok([])
  {
    if !Truthy(entry.1) then Ok([])
    else match KindOf(entry.0)
      case None => Ok([])
      case Some(kind) => KindItems(kind, person, entry.1)
  }

  function KeyItemsOf(person: string): ((string, Json)) -> Result<seq<CodeItem>>
  {
    entry => KeyItems(person, entry)
  }

  /** One person of the reply: `codes.items()` needs a dict. */
  function PersonItems(entry: (string, Json)): Result<seq<CodeItem>>
  {
    var fields :- Items(entry.1);
    FoldConcat(fields, KeyItemsOf(entry.0))
  }

  /** The items of all persons, person by person, key by key, item by item. */
  function CodeItems(codesDict: Json): Result<seq<CodeItem>>
  {
    var persons :- Items(codesDict);
    FoldConcat(persons, PersonItems)
  }

  /** The record of one item, with the uuid drawn for it. */
  function RecordOf(item: CodeItem, uuid: string): CodeRecord
  {
    CodeRecord(item.personUuid, item.identifier, item.context, uuid)
  }

  /** The items with the uuids drawn for them, one per item, in order. */
  function Stamp(uuids: Uuids, next: nat, items: seq<CodeItem>): (r: seq<(CodeKind, CodeRecord)>)
    ensures |r| == |items|
  {
    seq(|items|, k requires 0 <= k < |items| => (items[k].kind, RecordOf(items[k], uuids(next + k))))
  }

  /** The records of one kind's items, in order. */
  function Records(uuids: Uuids, next: nat, items: seq<CodeItem>): (r: seq<CodeRecord>)
    ensures |r| == |items|
  {
    seq(|items|, k requires 0 <= k < |items| => RecordOf(items[k], uuids(next + k)))
  }

  lemma RecordsSnoc(uuids: Uuids, next: nat, items: seq<CodeItem>, item: CodeItem)
    ensures Records(uuids, next, items + [item]) == Records(uuids, next, items) + [RecordOf(item, uuids(next + |items|))]
  {
  }

  lemma RecordsAppend(dataList: seq<CodeRecord>, uuids: Uuids, next: nat, items: seq<CodeItem>, item: CodeItem, at: nat)
    requires at == next + |items|
    ensures dataList + Records(uuids, next, items) + [RecordOf(item, uuids(at))]
            == dataList + Records(uuids, next, items + [item])
  {
    RecordsSnoc(uuids, next, items, item);
    Assoc(dataList, Records(uuids, next, items), [RecordOf(item, uuids(next + |items|))]);
  }

  lemma StampSnoc(uuids: Uuids, next: nat, items: seq<CodeItem>, item: CodeItem)
    ensures Stamp(uuids, next, items + [item]) == Stamp(uuids, next, items) + [(item.kind, RecordOf(item, uuids(next + |items|)))]
  {
  }

  /** Each stamped record appended to the list of its kind. */
  function Filed(stamped: seq<(CodeKind, CodeRecord)>): CodeLists
    decreases |stamped|
  {
    if stamped == [] then CodeLists([], [], [])
    else FileOne(Filed(stamped[..|stamped| - 1]), stamped[|stamped| - 1])
  }

  /** One record appended to the list of its kind. */
  function FileOne(lists: CodeLists, entry: (CodeKind, CodeRecord)): CodeLists
  {
    WithList(lists, entry.0, ListOf(lists, entry.0) + [entry.1])
  }

  /** `extract_codes_from_dict`: the three lists, or the first error. */
  function ExtractedCodes(uuids: Uuids, next: nat, codesDict: Json): Result<CodeLists>
  {
    var items :- CodeItems(codesDict);
    Ok(Filed(Stamp(uuids, next, items)))
  }

  /** A list holds exactly the stamped records of its kind. */
  lemma {:induction false} FiledMembers(stamped: seq<(CodeKind, CodeRecord)>, kind: CodeKind, record: CodeRecord)
    ensures record in ListOf(Filed(stamped), kind) <==> (kind, record) in stamped
    decreases |stamped|
  {
    if stamped != [] {
      var n := |stamped| - 1;
      FiledMembers(stamped[..n], kind, record);
      assert stamped == stamped[..n] + [stamped[n]];
      var lists := Filed(stamped[..n]);
      var (k, r) := stamped[n];
      if k == kind {
        assert ListOf(Filed(stamped), kind) == ListOf(lists, kind) + [r];
      } else {
        assert ListOf(Filed(stamped), kind) == ListOf(lists, kind);
      }
    }
  }

  /** Every item lands in exactly one list: the three lengths add up to the number of items. */
  lemma {:induction false} FiledTotal(stamped: seq<(CodeKind, CodeRecord)>)
    ensures var lists := Filed(stamped);
            |lists.governmentIds| + |lists.codes| + |lists.telephoneNumbers| == |stamped|
    decreases |stamped|
  {
    if stamped != [] {
      FiledTotal(stamped[..|stamped| - 1]);
    }
  }

  /** Records all of one kind, ready for filing. */
  function KindTagged(kind: CodeKind, records: seq<CodeRecord>): (r: seq<(CodeKind, CodeRecord)>)
    ensures |r| == |records|
  {
    seq(|records|, k requires 0 <= k < |records| => (kind, records[k]))
  }

  /** Filing a run of records of one kind extends that kind's list by them and leaves the others. */
  lemma {:induction false} FiledKind(stamped: seq<(CodeKind, CodeRecord)>, kind: CodeKind, records: seq<CodeRecord>)
    ensures var before := Filed(stamped);
            Filed(stamped + KindTagged(kind, records)) == WithList(before, kind, ListOf(before, kind) + records)
    decreases |records|
  {
    var before := Filed(stamped);
    if records == [] {
      assert stamped + KindTagged(kind, records) == stamped;
      assert ListOf(before, kind) + records == ListOf(before, kind);
      CodeListsExt(WithList(before, kind, ListOf(before, kind)), before);
    } else {
      var n := |records| - 1;
      var prior := stamped + KindTagged(kind, records[..n]);
      var mid := Filed(prior);
      assert mid == WithList(before, kind, ListOf(before, kind) + records[..n]) by {
        FiledKind(stamped, kind, records[..n]);
      }
      assert stamped + KindTagged(kind, records) == prior + [(kind, records[n])] by {
        Assoc(stamped, KindTagged(kind, records[..n]), [(kind, records[n])]);
        assert KindTagged(kind, records) == KindTagged(kind, records[..n]) + [(kind, records[n])];
      }
      assert ListOf(mid, kind) + [records[n]] == ListOf(before, kind) + records by {
        Assoc(ListOf(before, kind), records[..n], [records[n]]);
        assert records == records[..n] + [records[n]];
      }
      FiledSnoc(prior, kind, records[n]);
      WithListAgain(before, kind, ListOf(before, kind) + records[..n], ListOf(mid, kind) + [records[n]]);
    }
  }

  lemma FiledSnoc(stamped: seq<(CodeKind, CodeRecord)>, kind: CodeKind, record: CodeRecord)
    ensures var before := Filed(stamped);
            Filed(stamped + [(kind, record)]) == WithList(before, kind, ListOf(before, kind) + [record])
  {
    var all := stamped + [(kind, record)];
    assert all[..|all| - 1] == stamped;
  }

  lemma WithListAgain(lists: CodeLists, kind: CodeKind, first: seq<CodeRecord>, second: seq<CodeRecord>)
    ensures WithList(WithList(lists, kind, first), kind, second) == WithList(lists, kind, second)
  {
    CodeListsExt(WithList(WithList(lists, kind, first), kind, second), WithList(lists, kind, second));
  }

  /** The stamps of a run of items of one kind follow those before them. */
  lemma StampUniform(uuids: Uuids, next: nat, seen: seq<CodeItem>, added: seq<CodeItem>, kind: CodeKind, at: nat)
    requires forall k :: 0 <= k < |added| ==> added[k].kind == kind
    requires at == next + |seen|
    ensures Stamp(uuids, next, seen + added) == Stamp(uuids, next, seen) + KindTagged(kind, Records(uuids, at, added))
  {
    var l := Stamp(uuids, next, seen + added);
    var r := Stamp(uuids, next, seen) + KindTagged(kind, Records(uuids, at, added));
    forall k | 0 <= k < |l|
      ensures l[k] == r[k]
    {
      if k >= |seen| {
        assert (seen + added)[k] == added[k - |seen|];
      }
    }
  }

  lemma FiledUniform(uuids: Uuids, next: nat, seen: seq<CodeItem>, added: seq<CodeItem>, kind: CodeKind, at: nat)
    requires forall k :: 0 <= k < |added| ==> added[k].kind == kind
    requires at == next + |seen|
    ensures var before := Filed(Stamp(uuids, next, seen));
            var after := Filed(Stamp(uuids, next, seen + added));
            after == WithList(before, kind, ListOf(before, kind) + Records(uuids, at, added))
  {
    StampUniform(uuids, next, seen, added, kind, at);
    FiledKind(Stamp(uuids, next, seen), kind, Records(uuids, at, added));
  }

  lemma CodeListsExt(a: CodeLists, b: CodeLists)
    requires forall kind :: ListOf(a, kind) == ListOf(b, kind)
    ensures a == b
  {
    assert ListOf(a, GovernmentId) == ListOf(b, GovernmentId);
    assert ListOf(a, Code) == ListOf(b, Code);
    assert ListOf(a, TelephoneNumber) == ListOf(b, TelephoneNumber);
  }

  /** Items of a kind's list are of that kind and belong to the given person. */
  lemma KindItemsShape(kind: CodeKind, person: string, items: Json)
    requires KindItems(kind, person, items).Ok?
    ensures forall k :: 0 <= k < |KindItems(kind, person, items).value| ==>
              KindItems(kind, person, items).value[k].kind == kind
              && KindItems(kind, person, items).value[k].personUuid == person
  {
    var xs := Iterate(items).value;
    var r := KindItems(kind, person, items).value;
    forall k | 0 <= k < |r|
      ensures r[k].kind == kind && r[k].personUuid == person
    {
      assert r[k] in r;
      FoldConcatMembers(xs, ItemRecordOf(kind, person), r[k]);
    }
  }

  /** `it` carries the identifier and context of one of the items listed in `items`. */
  ghost predicate ItemFrom(it: CodeItem, items: Json)
  {
    Iterate(items).Ok?
    && exists i :: 0 <= i < |Iterate(items).value| && FromItem(it, Iterate(items).value[i])
  }

  ghost predicate FromItem(it: CodeItem, x: Json)
  {
    Subscript(x, IdentifierKey) == Ok(it.identifier) && Subscript(x, ContextKey) == Ok(it.context)
  }

  /** `it` comes from a truthy value under the key of its kind. */
  ghost predicate KeyRoutes(field: (string, Json), it: CodeItem)
  {
    Truthy(field.1) && KindOf(field.0) == Some(it.kind) && ItemFrom(it, field.1)
  }

  /** `it` comes from one of the keys of this person's codes, and carries the person's uuid. */
  ghost predicate PersonRoutes(entry: (string, Json), it: CodeItem)
  {
    entry.1.JObj? && it.personUuid == entry.0
    && exists j :: 0 <= j < |entry.1.fields| && KeyRoutes(entry.1.fields[j], it)
  }

  lemma ItemRecordMembers(kind: CodeKind, person: string, x: Json, it: CodeItem)
    ensures it.kind == kind && it.personUuid == person && FromItem(it, x) ==> ItemRecord(kind, person, x) == Ok([it])
    ensures ItemRecord(kind, person, x).Ok? && it in ItemRecord(kind, person, x).value ==>
              it.kind == kind && it.personUuid == person && FromItem(it, x)
  {
  }

  lemma ItemsMembers(kind: CodeKind, person: string, xs: seq<Json>, it: CodeItem)
    requires FoldConcat(xs, ItemRecordOf(kind, person)).Ok?
    ensures it in FoldConcat(xs, ItemRecordOf(kind, person)).value <==>
              it.kind == kind && it.personUuid == person && exists i :: 0 <= i < |xs| && FromItem(it, xs[i])
  {
    var f := ItemRecordOf(kind, person);
    FoldConcatMembers(xs, f, it);
    if it in FoldConcat(xs, f).value {
      var i :| 0 <= i < |xs| && f(xs[i]).Ok? && it in f(xs[i]).value;
      ItemRecordMembers(kind, person, xs[i], it);
    }
    if it.kind == kind && it.personUuid == person && exists i :: 0 <= i < |xs| && FromItem(it, xs[i]) {
      var i :| 0 <= i < |xs| && FromItem(it, xs[i]);
      ItemRecordMembers(kind, person, xs[i], it);
    }
  }

  lemma KindItemsMembers(kind: CodeKind, person: string, items: Json, it: CodeItem)
    requires KindItems(kind, person, items).Ok?
    ensures it in KindItems(kind, person, items).value <==> it.kind == kind && it.personUuid == person && ItemFrom(it, items)
  {
    ItemsMembers(kind, person, Iterate(items).value, it);
  }

  lemma KeyItemsMembers(person: string, field: (string, Json), it: CodeItem)
    requires KeyItems(person, field).Ok?
    ensures it in KeyItems(person, field).value <==> it.personUuid == person && KeyRoutes(field, it)
  {
    if Truthy(field.1) && KindOf(field.0).Some? {
      KindItemsMembers(KindOf(field.0).value, person, field.1, it);
    }
  }

  lemma PersonItemsMembers(entry: (string, Json), it: CodeItem)
    requires PersonItems(entry).Ok?
    ensures it in PersonItems(entry).value <==> PersonRoutes(entry, it)
  {
    var fields := entry.1.fields;
    var f := KeyItemsOf(entry.0);
    FoldConcatMembers(fields, f, it);
    if it in PersonItems(entry).value {
      var j :| 0 <= j < |fields| && f(fields[j]).Ok? && it in f(fields[j]).value;
      KeyItemsMembers(entry.0, fields[j], it);
    }
    if PersonRoutes(entry, it) {
      var j :| 0 <= j < |fields| && KeyRoutes(fields[j], it);
      FoldConcatOk(fields, f);
      KeyItemsMembers(entry.0, fields[j], it);
    }
  }

  /**
   * The items come exactly from the truthy values under the three known
   * keys: each carries its person's uuid and the identifier and context of
   * one item of such a value, and its kind is the key's.
   */
  lemma CodeItemsRouting(codesDict: Json, it: CodeItem)
    requires CodeItems(codesDict).Ok?
    ensures it in CodeItems(codesDict).value <==>
              exists i :: 0 <= i < |codesDict.fields| && PersonRoutes(codesDict.fields[i], it)
  {
    var persons := codesDict.fields;
    FoldConcatMembers(persons, PersonItems, it);
    if it in CodeItems(codesDict).value {
      var i :| 0 <= i < |persons| && PersonItems(persons[i]).Ok? && it in PersonItems(persons[i]).value;
      PersonItemsMembers(persons[i], it);
    }
    if exists i :: 0 <= i < |persons| && PersonRoutes(persons[i], it) {
      var i :| 0 <= i < |persons| && PersonRoutes(persons[i], it);
      FoldConcatOk(persons, PersonItems);
      PersonItemsMembers(persons[i], it);
    }
  }

  /** `append_data`: the items of one value appended to one list, each with the next uuid. */
  method AppendData(dataList: seq<CodeRecord>, personUuid: string, items: Json, kind: CodeKind, uuids: Uuids, next: nat)
    returns (r: Result<seq<CodeRecord>>)
    ensures KindItems(kind, personUuid, items).Err? ==> r == Err(KindItems(kind, personUuid, items).error)
    ensures KindItems(kind, personUuid, items).Ok? ==>
              r == Ok(dataList + Records(uuids, next, KindItems(kind, personUuid, items).value))
  {
    var xs :- Iterate(items);
    var list := dataList;
    var drawn := next;
    ghost var seen: seq<CodeItem> := [];
    for k := 0 to |xs|
      invariant FoldConcat(xs[..k], ItemRecordOf(kind, personUuid)) == Ok(seen)
      invariant list == dataList + Records(uuids, next, seen)
      invariant drawn == next + |seen|
    {
      FoldConcatStep(xs, ItemRecordOf(kind, personUuid), k);
      var item := xs[k];
      var identifier := Subscript(item, IdentifierKey);
      if identifier.Err? {
        FoldConcatErrPrefix(xs, ItemRecordOf(kind, personUuid), k + 1);
        return Err(identifier.error);
      }
      var context := Subscript(item, ContextKey);
      if context.Err? {
        FoldConcatErrPrefix(xs, ItemRecordOf(kind, personUuid), k + 1);
        return Err(context.error);
      }
      var found := CodeItem(kind, personUuid, identifier.value, context.value);
      RecordsAppend(dataList, uuids, next, seen, found, drawn);
      assert FoldConcat(xs[..k + 1], ItemRecordOf(kind, personUuid)) == Ok(seen + [found]);
      list := list + [RecordOf(found, uuids(drawn))];
      seen := seen + [found];
      drawn := drawn + 1;
    }
    FoldConcatWhole(xs, ItemRecordOf(kind, personUuid));
    r := Ok(list);
  }

  lemma FiledAppended(uuids: Uuids, next: nat, seen: seq<CodeItem>, here: seq<CodeItem>, added: seq<CodeItem>, kind: CodeKind, drawn: nat)
    requires forall k :: 0 <= k < |added| ==> added[k].kind == kind
    requires drawn == next + |seen + here|
    ensures var lists := Filed(Stamp(uuids, next, seen + here));
            WithList(lists, kind, ListOf(lists, kind) + Records(uuids, drawn, added))
              == Filed(Stamp(uuids, next, seen + (here + added)))
  {
    FiledUniform(uuids, next, seen + here, added, kind, drawn);
    Assoc(seen, here, added);
  }

  /** `extract_codes_from_dict`: each person's truthy values under the three keys, filed by key. */
  method ExtractCodesFromDict(codesDict: Json, uuids: Uuids, next: nat) returns (r: Result<CodeLists>)
    ensures r == ExtractedCodes(uuids, next, codesDict)
  {
    var persons :- Items(codesDict);
    var lists := CodeLists([], [], []);
    var drawn := next;
    ghost var seen: seq<CodeItem> := [];
    for i := 0 to |persons|
      invariant FoldConcat(persons[..i], PersonItems) == Ok(seen)
      invariant lists == Filed(Stamp(uuids, next, seen))
      invariant drawn == next + |seen|
    {
      FoldConcatStep(persons, PersonItems, i);
      var (personUuid, codes) := persons[i];
      var fields := Items(codes);
      if fields.Err? {
        FoldConcatErrPrefix(persons, PersonItems, i + 1);
        return Err(fields.error);
      }
      ghost var here: seq<CodeItem> := [];
      assert seen + here == seen;
      for j := 0 to |fields.value|
        invariant FoldConcat(fields.value[..j], KeyItemsOf(personUuid)) == Ok(here)
        invariant lists == Filed(Stamp(uuids, next, seen + here))
        invariant drawn == next + |seen + here|
      {
        FoldConcatStep(fields.value, KeyItemsOf(personUuid), j);
        var (key, items) := fields.value[j];
        if Truthy(items) && KindOf(key).Some? {
          var kind := KindOf(key).value;
          var appended := AppendData(ListOf(lists, kind), personUuid, items, kind, uuids, drawn);
          if appended.Err? {
            FoldConcatErrPrefix(fields.value, KeyItemsOf(personUuid), j + 1);
            FoldConcatErrPrefix(persons, PersonItems, i + 1);
            return Err(appended.error);
          }
          var added := KindItems(kind, personUuid, items).value;
          KindItemsShape(kind, personUuid, items);
          FiledAppended(uuids, next, seen, here, added, kind, drawn);
          drawn := drawn + (|appended.value| - |ListOf(lists, kind)|);
          lists := WithList(lists, kind, appended.value);
          here := here + added;
        } else {
          assert here + [] == here;
        }
      }
      FoldConcatWhole(fields.value, KeyItemsOf(personUuid));
      seen := seen + here;
    }
    FoldConcatWhole(persons, PersonItems);
    r := Ok(lists);
  }

  // ---------------------------------------------------------------------
  // check_codes_for_errors

  /**
   * `dict(x, **{"type": kind, "person_uuid": person})`: a new dict with the
   * entries `dict` takes from `x`, then the type and the person assigned.
   */
  function Tagged(kind: string, person: string, x: Json): (r: Result<seq<Json>>)
    ensures r.Ok? <==> DictOf(x).Ok?
    ensures r.Err? ==> r.error == DictOf(x).error
    ensures r.Ok? ==> |r.value| == 1
  {
    var pairs :- DictOf(x);
    Ok([JObj(Put(Put(Update([], pairs), TypeKey, JStr(kind)), PersonUuidKey, JStr(person)))])
  }

  function TaggedOf(kind: string, person: string): Json -> Result<seq<Json>>
  {
    x => Tagged(kind, person, x)
  }

  /**
   * A tagged entry holds its type and person, and every other key with the
   * last value the entry gives it: for a proper dict, the dict's own value.
   */
  lemma TaggedFields(kind: string, person: string, x: Json, k: string)
    requires Tagged(kind, person, x).Ok?
    ensures |Tagged(kind, person, x).value| == 1
    ensures var e := Tagged(kind, person, x).value[0];
            && e.JObj?
            && Get(e.fields, TypeKey) == Some(JStr(kind))
            && Get(e.fields, PersonUuidKey) == Some(JStr(person))
            && (k != TypeKey && k != PersonUuidKey ==> Get(e.fields, k) == LastWith(DictOf(x).value, k))
            && (x.JObj? && Wf(x.fields) && k != TypeKey && k != PersonUuidKey ==> Get(e.fields, k) == Get(x.fields, k))
  {
    var pairs := DictOf(x).value;
    var d0 := Update([], pairs);
    var d1 := Put(d0, TypeKey, JStr(kind));
    PutGet(d1, PersonUuidKey, JStr(person), TypeKey);
    PutGet(d1, PersonUuidKey, JStr(person), PersonUuidKey);
    PutGet(d1, PersonUuidKey, JStr(person), k);
    PutGet(d0, TypeKey, JStr(kind), TypeKey);
    PutGet(d0, TypeKey, JStr(kind), k);
    UpdateLast([], pairs, k);
    if x.JObj? && Wf(x.fields) {
      LastWithWf(x.fields, k);
    }
  }

  /** `[dict(x, ...) for x in values[kind]]`. */
  function KindEntries(values: Json, kind: string, person: string): Result<seq<Json>>
  {
    var list :- Subscript(values, kind);
    var xs :- Iterate(list);
    FoldConcat(xs, TaggedOf(kind, person))
  }

  datatype ToCheck = ToCheck(governmentIds: seq<Json>, codes: seq<Json>, telephoneNumbers: seq<Json>)

  /** One person's three tagged lists, government ids first. */
  function PersonToCheck(entry: (string, Json)): Result<ToCheck>
  {
    var g :- KindEntries(entry.1, GovernmentIdsKey, entry.0);
    var c :- KindEntries(entry.1, CodesKey, entry.0);
    var t :- KindEntries(entry.1, TelephoneNumbersKey, entry.0);
    Ok(ToCheck(g, c, t))
  }

  /** The three lists extended person by person. */
  function ToCheckLists(persons: Dict<Json>): Result<ToCheck>
    decreases |persons|
  {
    if persons == [] then Ok(ToCheck([], [], []))
    else
      var acc :- ToCheckLists(persons[..|persons| - 1]);
      var p :- PersonToCheck(persons[|persons| - 1]);
      Ok(ToCheck(acc.governmentIds + p.governmentIds, acc.codes + p.codes, acc.telephoneNumbers + p.telephoneNumbers))
  }

  lemma ToCheckListsStep(persons: Dict<Json>, i: nat)
    requires i < |persons|
    ensures ToCheckLists(persons[..i]).Err? ==> ToCheckLists(persons[..i + 1]) == ToCheckLists(persons[..i])
    ensures ToCheckLists(persons[..i]).Ok? && PersonToCheck(persons[i]).Err? ==>
              ToCheckLists(persons[..i + 1]) == Err(PersonToCheck(persons[i]).error)
    ensures ToCheckLists(persons[..i]).Ok? && PersonToCheck(persons[i]).Ok? ==>
              var acc := ToCheckLists(persons[..i]).value;
              var p := PersonToCheck(persons[i]).value;
              ToCheckLists(persons[..i + 1]) ==
                Ok(ToCheck(acc.governmentIds + p.governmentIds, acc.codes + p.codes, acc.telephoneNumbers + p.telephoneNumbers))
  {
    assert persons[..i + 1][..i] == persons[..i];
    assert persons[..i + 1][i] == persons[i];
  }

  lemma {:induction false} ToCheckListsErrPrefix(persons: Dict<Json>, i: nat)
    requires i <= |persons| && ToCheckLists(persons[..i]).Err?
    ensures ToCheckLists(persons) == ToCheckLists(persons[..i])
    decreases |persons|
  {
    if i == |persons| {
      TakeTake(persons, i, i);
    } else {
      var n := |persons| - 1;
      TakeTake(persons, n, i);
      ToCheckListsErrPrefix(persons[..n], i);
    }
  }

  /** Every entry to check is a dict tagged with its list's type and the uuid of a person of the reply. */
  lemma {:induction false} ToCheckTagged(persons: Dict<Json>, e: Json)
    requires ToCheckLists(persons).Ok?
    ensures var t := ToCheckLists(persons).value;
            && (e in t.governmentIds ==> TaggedBy(e, GovernmentIdsKey, persons))
            && (e in t.codes ==> TaggedBy(e, CodesKey, persons))
            && (e in t.telephoneNumbers ==> TaggedBy(e, TelephoneNumbersKey, persons))
    decreases |persons|
  {
    if persons != [] {
      var n := |persons| - 1;
      var init := persons[..n];
      ToCheckTagged(init, e);
      var person := persons[n].0;
      var values := persons[n].1;
      var acc := ToCheckLists(init).value;
      var p := PersonToCheck(persons[n]).value;
      if e in acc.governmentIds { TaggedByWider(e, GovernmentIdsKey, init, persons); }
      if e in acc.codes { TaggedByWider(e, CodesKey, init, persons); }
      if e in acc.telephoneNumbers { TaggedByWider(e, TelephoneNumbersKey, init, persons); }
      if e in p.governmentIds { KindEntriesTagged(values, GovernmentIdsKey, person, e); }
      if e in p.codes { KindEntriesTagged(values, CodesKey, person, e); }
      if e in p.telephoneNumbers { KindEntriesTagged(values, TelephoneNumbersKey, person, e); }
    }
  }

  ghost predicate TaggedBy(e: Json, kind: string, persons: Dict<Json>)
  {
    e.JObj? && Get(e.fields, TypeKey) == Some(JStr(kind))
    && exists i :: 0 <= i < |persons| && Get(e.fields, PersonUuidKey) == Some(JStr(persons[i].0))
  }

  lemma TaggedByWider(e: Json, kind: string, persons: Dict<Json>, wider: Dict<Json>)
    requires TaggedBy(e, kind, persons) && persons <= wider
    ensures TaggedBy(e, kind, wider)
  {
    var i :| 0 <= i < |persons| && Get(e.fields, PersonUuidKey) == Some(JStr(persons[i].0));
    assert wider[i] == persons[i];
  }

  lemma KindEntriesTagged(values: Json, kind: string, person: string, e: Json)
    requires KindEntries(values, kind, person).Ok? && e in KindEntries(values, kind, person).value
    ensures e.JObj? && Get(e.fields, TypeKey) == Some(JStr(kind)) && Get(e.fields, PersonUuidKey) == Some(JStr(person))
  {
    var xs := Iterate(Subscript(values, kind).value).value;
    FoldConcatMembers(xs, TaggedOf(kind, person), e);
    var i :| 0 <= i < |xs| && Tagged(kind, person, xs[i]).Ok? && e in Tagged(kind, person, xs[i]).value;
    TaggedFields(kind, person, xs[i], TypeKey);
  }

  /** Whether an entry goes to the errors: its identifier, escaped as a literal, is not found in the text. */
  function Flagged(text: string, entry: Json): (r: Result<seq<Json>>)
    ensures r.Ok? ==> r.value == [] || r.value == [entry]
  {
    var identifier :- Subscript(entry, IdentifierKey);
    if !identifier.JStr? then Err(TypeError)
    else if Contains(text, identifier.s) then Ok([])
    else Ok([entry])
  }

  function FlaggedOf(text: string): Json -> Result<seq<Json>>
  {
    entry => Flagged(text, entry)
  }

  /** `f"error_{n}"`. */
  function ErrorKey(n: nat): string
  {
    ErrorPrefix + NatStr(n)
  }

  /** `str(n)`. */
  function NatStr(n: nat): (r: string)
    ensures |r| > 0 && forall i :: 0 <= i < |r| ==> IsDigit(r[i])
    ensures DecimalValue(r) == n
    decreases n
  {
    var d := ['0' + ((n % 10) as char)];
    if n < 10 then d
    else
      var init := NatStr(n / 10);
      assert (init + d)[..|init|] == init;
      init + d
  }

  lemma ErrorKeyInjective(m: nat, n: nat)
    requires ErrorKey(m) == ErrorKey(n)
    ensures m == n
  {
    assert NatStr(m) == ErrorKey(m)[|ErrorPrefix|..];
    assert NatStr(n) == ErrorKey(n)[|ErrorPrefix|..];
  }

  /** `wrong_entries`: the flagged entries under `error_1`, `error_2`, ... */
  function Numbered(flagged: seq<Json>): (r: Dict<Json>)
    ensures |r| == |flagged|
    ensures forall i :: 0 <= i < |flagged| ==> r[i] == (ErrorKey(i + 1), flagged[i])
  {
    seq(|flagged|, i requires 0 <= i < |flagged| => (ErrorKey(i + 1), flagged[i]))
  }

  /** The error keys are distinct, so no flagged entry overwrites another. */
  lemma NumberedWf(flagged: seq<Json>)
    ensures Wf(Numbered(flagged))
  {
    var r := Numbered(flagged);
    forall i, j | 0 <= i < j < |r|
      ensures r[i].0 != r[j].0
    {
      if r[i].0 == r[j].0 {
        ErrorKeyInjective(i + 1, j + 1);
      }
    }
  }

  lemma NumberedNextFresh(flagged: seq<Json>)
    ensures !HasKey(Numbered(flagged), ErrorKey(|flagged| + 1))
  {
    var r := Numbered(flagged);
    if HasKey(r, ErrorKey(|flagged| + 1)) {
      var i :| 0 <= i < |r| && r[i].0 == ErrorKey(|flagged| + 1);
      ErrorKeyInjective(i + 1, |flagged| + 1);
    }
  }

  /** Recording one more flagged entry under the next error key numbers it after the others. */
  lemma NumberedSnoc(flagged: seq<Json>, entry: Json)
    ensures Put(Numbered(flagged), ErrorKey(|flagged| + 1), entry) == Numbered(flagged + [entry])
  {
    NumberedNextFresh(flagged);
    var a := Numbered(flagged) + [(ErrorKey(|flagged| + 1), entry)];
    var b := Numbered(flagged + [entry]);
    forall i | 0 <= i < |a|
      ensures a[i] == b[i]
    {
      if i < |flagged| {
        assert (flagged + [entry])[i] == flagged[i];
      }
    }
  }

  /** All entries in the order they are checked: government ids, then codes, then telephone numbers. */
  function FinalList(t: ToCheck): seq<Json>
  {
    t.governmentIds + t.codes + t.telephoneNumbers
  }

  /** The entries `check_codes_for_errors` reports as errors, numbered. */
  function WrongEntries(text: string, codesDict: Json): Result<Dict<Json>>
  {
    var persons :- Items(codesDict);
    var t :- ToCheckLists(persons);
    var flagged :- FoldConcat(FinalList(t), FlaggedOf(text));
    Ok(Numbered(flagged))
  }

  /**
   * The errors are exactly the checked entries whose identifier is a
   * string not occurring in the text, numbered `error_1 .. error_n` in
   * checking order, under distinct keys.
   */
  lemma WrongEntriesSpec(text: string, codesDict: Json, e: Json)
    requires WrongEntries(text, codesDict).Ok?
    ensures var r := WrongEntries(text, codesDict).value;
            var final := FinalList(ToCheckLists(codesDict.fields).value);
            && Wf(r)
            && (forall i :: 0 <= i < |r| ==> r[i].0 == ErrorKey(i + 1))
            && (e in Values(r) <==>
                  e in final && Subscript(e, IdentifierKey).Ok? && Subscript(e, IdentifierKey).value.JStr?
                  && !Contains(text, Subscript(e, IdentifierKey).value.s))
  {
    var final := FinalList(ToCheckLists(codesDict.fields).value);
    var flagged := FoldConcat(final, FlaggedOf(text)).value;
    var r := Numbered(flagged);
    NumberedWf(flagged);
    FoldConcatMembers(final, FlaggedOf(text), e);
    FoldConcatOk(final, FlaggedOf(text));
    assert e in Values(r) <==> e in flagged by {
      if e in flagged {
        var i :| 0 <= i < |flagged| && flagged[i] == e;
        assert Values(r)[i] == e;
      }
      if e in Values(r) {
        var i :| 0 <= i < |r| && Values(r)[i] == e;
        assert flagged[i] == e;
      }
    }
    if e in final && Subscript(e, IdentifierKey).Ok? && Subscript(e, IdentifierKey).value.JStr?
       && !Contains(text, Subscript(e, IdentifierKey).value.s) {
      var i :| 0 <= i < |final| && final[i] == e;
      assert Flagged(text, final[i]).value == [e];
    }
  }

  /** The first loop of `check_codes_for_errors`: each person's entries to check, kind by kind. */
  method CollectToCheck(persons: Dict<Json>) returns (r: Result<ToCheck>)
    ensures r == ToCheckLists(persons)
  {
    var governmentIdsToCheck: seq<Json> := [];
    var codesToCheck: seq<Json> := [];
    var telephoneNumbersToCheck: seq<Json> := [];
    for i := 0 to |persons|
      invariant ToCheckLists(persons[..i]) == Ok(ToCheck(governmentIdsToCheck, codesToCheck, telephoneNumbersToCheck))
    {
      ToCheckListsStep(persons, i);
      var (personUuid, values) := persons[i];
      var g := KindEntries(values, GovernmentIdsKey, personUuid);
      if g.Err? {
        ToCheckListsErrPrefix(persons, i + 1);
        return Err(g.error);
      }
      governmentIdsToCheck := governmentIdsToCheck + g.value;
      var c := KindEntries(values, CodesKey, personUuid);
      if c.Err? {
        ToCheckListsErrPrefix(persons, i + 1);
        return Err(c.error);
      }
      codesToCheck := codesToCheck + c.value;
      var t := KindEntries(values, TelephoneNumbersKey, personUuid);
      if t.Err? {
        ToCheckListsErrPrefix(persons, i + 1);
        return Err(t.error);
      }
      telephoneNumbersToCheck := telephoneNumbersToCheck + t.value;
    }
    assert persons[..|persons|] == persons;
    r := Ok(ToCheck(governmentIdsToCheck, codesToCheck, telephoneNumbersToCheck));
  }

  /** The second loop of `check_codes_for_errors`: each entry whose identifier is missing from the text, numbered. */
  method NumberErrors(text: string, finalList: seq<Json>) returns (r: Result<Dict<Json>>)
    ensures r.Ok? <==> FoldConcat(finalList, FlaggedOf(text)).Ok?
    ensures r.Ok? ==> r.value == Numbered(FoldConcat(finalList, FlaggedOf(text)).value)
    ensures r.Err? ==> r.error == FoldConcat(finalList, FlaggedOf(text)).error
  {
    var wrongEntries: Dict<Json> := [];
    var errorNumber: nat := 1;
    ghost var flagged: seq<Json> := [];
    for k := 0 to |finalList|
      invariant FoldConcat(finalList[..k], FlaggedOf(text)) == Ok(flagged)
      invariant wrongEntries == Numbered(flagged)
      invariant errorNumber == |flagged| + 1
    {
      FoldConcatStep(finalList, FlaggedOf(text), k);
      var entry := finalList[k];
      var identifier := Subscript(entry, IdentifierKey);
      if identifier.Err? || !identifier.value.JStr? {
        FoldConcatErrPrefix(finalList, FlaggedOf(text), k + 1);
        return Err(if identifier.Err? then identifier.error else TypeError);
      }
      if !Contains(text, identifier.value.s) {
        NumberedSnoc(flagged, entry);
        wrongEntries := Put(wrongEntries, ErrorKey(errorNumber), entry);
        flagged := flagged + [entry];
        errorNumber := errorNumber + 1;
      } else {
        assert flagged + [] == flagged;
      }
    }
    FoldConcatWhole(finalList, FlaggedOf(text));
    r := Ok(wrongEntries);
  }

  /** `check_codes_for_errors` up to the error list: the entries to check, then the numbered misses. */
  method CheckCodesForErrors(text: string, codesDict: Json) returns (r: Result<Dict<Json>>)
    ensures r == WrongEntries(text, codesDict)
  {
    var persons :- Items(codesDict);
    var t :- CollectToCheck(persons);
    r := NumberErrors(text, FinalList(t));
  }

  // ---------------------------------------------------------------------
  // Locations

  /** The seven location categories, in loading order. */
  const Categories: seq<string> := ["address", "district", "city", "area", "country", "continent", "landmark"]

  /** A value of `object_dict`. */
  datatype LocationValue = LocationValue(category: string, context: Json, name: Json)

  /** One record of the `Locations` list. */
  datatype LocationRecord = LocationRecord(name: Json, context: Json, category: string, uuid: string)

  /** `entry["context"]`, then `entry["item"]`. */
  function LocationEntry(category: string, entry: Json): (r: Result<seq<LocationValue>>)
    ensures r.Ok? ==> |r.value| == 1
  {
    var context :- Subscript(entry, ContextKey);
    var name :- Subscript(entry, ItemKey);
    Ok([LocationValue(category, context, name)])
  }

  function LocationEntryOf(category: string): Json -> Result<seq<LocationValue>>
  {
    entry => LocationEntry(category, entry)
  }

  /** `all_location_list[category]`, iterated. */
  function CategoryEntries(locationDict: Json, category: string): Result<seq<Json>>
  {
    var list :- Subscript(locationDict, category);
    Iterate(list)
  }

  /** `_populate_location_dict`: entry `k` stored under the `k`-th uuid drawn. */
  function Populated(uuids: Uuids, next: nat, category: string, entries: seq<Json>, objectDict: Dict<LocationValue>): Result<Dict<LocationValue>>
    decreases |entries|
  {
    if entries == [] then Ok(objectDict)
    else
      var n := |entries| - 1;
      Extended(Populated(uuids, next, category, entries[..n], objectDict), LocationEntry(category, entries[n]), uuids(next + n))
  }

  /** One more entry stored under `key`, after the earlier ones; the first error otherwise. */
  function Extended(init: Result<Dict<LocationValue>>, last: Result<seq<LocationValue>>, key: string): Result<Dict<LocationValue>>
    requires last.Ok? ==> |last.value| == 1
  {
    if init.Err? then init
    else if last.Err? then Err(last.error)
    else Ok(Put(init.value, key, last.value[0]))
  }

  /** The categories' dicts as `load_location_into_database` fills them, and the uuids drawn. */
  function CategoryDicts(uuids: Uuids, next: nat, locationDict: Json, categories: seq<string>): Result<(seq<Dict<LocationValue>>, nat)>
    decreases |categories|
  {
    if categories == [] then Ok(([], next))
    else
      var n := |categories| - 1;
      var init :- CategoryDicts(uuids, next, locationDict, categories[..n]);
      var entries :- CategoryEntries(locationDict, categories[n]);
      var filled :- Populated(uuids, init.1, categories[n], entries, []);
      Ok((init.0 + [filled], init.1 + |entries|))
  }

  /** The records built from the merged dicts, one per key. */
  function RecordsOf(combined: Dict<LocationValue>): (r: seq<LocationRecord>)
    ensures |r| == |combined|
    ensures forall i :: 0 <= i < |combined| ==>
              r[i] == LocationRecord(combined[i].1.name, combined[i].1.context, combined[i].1.category, combined[i].0)
  {
    seq(|combined|, i requires 0 <= i < |combined| =>
      LocationRecord(combined[i].1.name, combined[i].1.context, combined[i].1.category, combined[i].0))
  }

  /** `load_location_into_database` up to the query: the `Locations` records. */
  function LocationRecords(uuids: Uuids, next: nat, locationDict: Json): Result<seq<LocationRecord>>
  {
    var dicts :- CategoryDicts(uuids, next, locationDict, Categories);
    Ok(RecordsOf(Evaluation.Combined(dicts.0)))
  }

  /** The entries of all categories in loading order, each tagged with its category. */
  function CategoryItems(locationDict: Json, category: string): Result<seq<LocationValue>>
  {
    var entries :- CategoryEntries(locationDict, category);
    FoldConcat(entries, LocationEntryOf(category))
  }

  function CategoryItemsOf(locationDict: Json): string -> Result<seq<LocationValue>>
  {
    category => CategoryItems(locationDict, category)
  }

  function LocationItems(locationDict: Json): Result<seq<LocationValue>>
  {
    FoldConcat(Categories, CategoryItemsOf(locationDict))
  }

  /** The ids `uuids(lo) .. uuids(hi - 1)` are pairwise distinct. */
  ghost predicate DistinctIds(uuids: Uuids, lo: nat, hi: nat)
  {
    forall m, n :: lo <= m < n < hi ==> uuids(m) != uuids(n)
  }

  /** The values with the uuids drawn for them. */
  function Keyed(uuids: Uuids, next: nat, values: seq<LocationValue>): (r: Dict<LocationValue>)
    ensures |r| == |values|
  {
    seq(|values|, k requires 0 <= k < |values| => (uuids(next + k), values[k]))
  }

  lemma KeyedHasKey(uuids: Uuids, next: nat, values: seq<LocationValue>, key: string)
    ensures HasKey(Keyed(uuids, next, values), key) <==> exists m :: next <= m < next + |values| && uuids(m) == key
  {
    var r := Keyed(uuids, next, values);
    if HasKey(r, key) {
      var k :| 0 <= k < |r| && r[k].0 == key;
      assert uuids(next + k) == key;
    }
    if exists m :: next <= m < next + |values| && uuids(m) == key {
      var m :| next <= m < next + |values| && uuids(m) == key;
      assert r[m - next].0 == key;
    }
  }

  lemma KeyedWf(uuids: Uuids, next: nat, values: seq<LocationValue>)
    requires DistinctIds(uuids, next, next + |values|)
    ensures Wf(Keyed(uuids, next, values))
  {
    var r := Keyed(uuids, next, values);
    forall i, j | 0 <= i < j < |r|
      ensures r[i].0 != r[j].0
    {
      assert r[i].0 == uuids(next + i) && r[j].0 == uuids(next + j);
    }
  }

  lemma KeyedConcat(uuids: Uuids, next: nat, a: seq<LocationValue>, b: seq<LocationValue>, at: nat)
    requires at == next + |a|
    ensures Keyed(uuids, next, a + b) == Keyed(uuids, next, a) + Keyed(uuids, at, b)
  {
    var l := Keyed(uuids, next, a + b);
    var r := Keyed(uuids, next, a) + Keyed(uuids, at, b);
    forall k | 0 <= k < |l|
      ensures l[k] == r[k]
    {
      if k >= |a| {
        assert r[k] == Keyed(uuids, at, b)[k - |a|];
      }
    }
  }

  /** The ids a narrower range draws are distinct too. */
  lemma DistinctNarrow(uuids: Uuids, lo: nat, hi: nat, lo': nat, hi': nat)
    requires DistinctIds(uuids, lo, hi) && lo <= lo' && hi' <= hi
    ensures DistinctIds(uuids, lo', hi')
  {
  }

  /**
   * Populating a dict fails exactly when listing the category's entries
   * fails, with the same error; otherwise it draws one uuid per entry.
   */
  lemma {:induction false} PopulatedOutcome(uuids: Uuids, next: nat, category: string, entries: seq<Json>, objectDict: Dict<LocationValue>)
    ensures Populated(uuids, next, category, entries, objectDict).Ok? <==> FoldConcat(entries, LocationEntryOf(category)).Ok?
    ensures Populated(uuids, next, category, entries, objectDict).Err? ==>
              Populated(uuids, next, category, entries, objectDict).error == FoldConcat(entries, LocationEntryOf(category)).error
    ensures FoldConcat(entries, LocationEntryOf(category)).Ok? ==> |FoldConcat(entries, LocationEntryOf(category)).value| == |entries|
    decreases |entries|
  {
    if entries != [] {
      PopulatedOutcome(uuids, next, category, entries[..|entries| - 1], objectDict);
    }
  }

  lemma KeyedSingle(uuids: Uuids, at: nat, value: seq<LocationValue>)
    requires |value| == 1
    ensures Keyed(uuids, at, value) == [(uuids(at), value[0])]
  {
  }

  lemma PopulatedSnoc(uuids: Uuids, next: nat, category: string, entries: seq<Json>, objectDict: Dict<LocationValue>, at: nat)
    requires entries != [] && at == next + |entries| - 1
    ensures var init := Populated(uuids, next, category, entries[..|entries| - 1], objectDict);
            init.Err? ==> Populated(uuids, next, category, entries, objectDict) == init
    ensures var init := Populated(uuids, next, category, entries[..|entries| - 1], objectDict);
            var last := LocationEntry(category, entries[|entries| - 1]);
            init.Ok? && last.Err? ==> Populated(uuids, next, category, entries, objectDict) == Err(last.error)
    ensures var init := Populated(uuids, next, category, entries[..|entries| - 1], objectDict);
            var last := LocationEntry(category, entries[|entries| - 1]);
            init.Ok? && last.Ok? ==>
              |last.value| == 1 && Populated(uuids, next, category, entries, objectDict) == Ok(Put(init.value, uuids(at), last.value[0]))
  {
    PopulatedSnocOk(uuids, next, category, entries, objectDict, at);
  }

  lemma PopulatedSnocOk(uuids: Uuids, next: nat, category: string, entries: seq<Json>, objectDict: Dict<LocationValue>, at: nat)
    requires entries != [] && at == next + (|entries| - 1)
    ensures var init := Populated(uuids, next, category, entries[..|entries| - 1], objectDict);
            var last := LocationEntry(category, entries[|entries| - 1]);
            init.Ok? && last.Ok? ==>
              Populated(uuids, next, category, entries, objectDict) == Ok(Put(init.value, uuids(at), last.value[0]))
  {
    var n := |entries| - 1;
    var init := Populated(uuids, next, category, entries[..n], objectDict);
    var last := LocationEntry(category, entries[n]);
    assert Populated(uuids, next, category, entries, objectDict) == Extended(init, last, uuids(at));
  }

  /** With distinct uuids, a category's dict holds its entries in order, each under the uuid drawn for it. */
  lemma {:induction false} PopulatedKeyed(uuids: Uuids, next: nat, category: string, entries: seq<Json>)
    requires DistinctIds(uuids, next, next + |entries|)
    requires Populated(uuids, next, category, entries, []).Ok?
    ensures FoldConcat(entries, LocationEntryOf(category)).Ok?
    ensures Populated(uuids, next, category, entries, []).value == Keyed(uuids, next, FoldConcat(entries, LocationEntryOf(category)).value)
    decreases |entries|
  {
    PopulatedOutcome(uuids, next, category, entries, []);
    if entries != [] {
      var n := |entries| - 1;
      var f := LocationEntryOf(category);
      PopulatedKeyed(uuids, next, category, entries[..n]);
      PopulatedOutcome(uuids, next, category, entries[..n], []);
      var init := FoldConcat(entries[..n], f).value;
      var value := LocationEntry(category, entries[n]).value;
      var at := next + n;
      var d := Keyed(uuids, next, init);
      PopulatedSnoc(uuids, next, category, entries, [], at);
      assert Populated(uuids, next, category, entries, []) == Ok(Put(d, uuids(at), value[0]));
      assert !HasKey(d, uuids(at)) by {
        KeyedHasKey(uuids, next, init, uuids(at));
      }
      KeyedConcat(uuids, next, init, value, at);
      KeyedSingle(uuids, at, value);
      assert FoldConcat(entries, f).value == init + value;
    }
  }

  /** `d.update(e)` with keys new to `d`: the entries of `e` appended. */
  lemma {:induction false} UpdateAppends<V>(d: Dict<V>, e: Dict<V>)
    requires Wf(e) && forall i :: 0 <= i < |e| ==> !HasKey(d, e[i].0)
    ensures Update(d, e) == d + e
    decreases |e|
  {
    if e != [] {
      var d' := d + [e[0]];
      assert Put(d, e[0].0, e[0].1) == d' by {
        assert !HasKey(d, e[0].0);
      }
      assert Wf(e[1..]) && forall i :: 0 <= i < |e[1..]| ==> !HasKey(d', e[1..][i].0) by {
        forall i | 0 <= i < |e[1..]|
          ensures !HasKey(d', e[1..][i].0)
        {
          assert e[1..][i] == e[i + 1];
          HasKeyConcat(d, [e[0]], e[i + 1].0);
        }
      }
      UpdateAppends(d', e[1..]);
      assert d' + e[1..] == d + e by {
        Assoc(d, [e[0]], e[1..]);
        assert [e[0]] + e[1..] == e;
      }
    }
  }

  /** The categories' dicts: one per category, failing exactly as the listing of all entries does. */
  lemma {:induction false} CategoryDictsOutcome(uuids: Uuids, next: nat, locationDict: Json, categories: seq<string>)
    ensures CategoryDicts(uuids, next, locationDict, categories).Ok? <==> FoldConcat(categories, CategoryItemsOf(locationDict)).Ok?
    ensures CategoryDicts(uuids, next, locationDict, categories).Err? ==>
              CategoryDicts(uuids, next, locationDict, categories).error == FoldConcat(categories, CategoryItemsOf(locationDict)).error
    ensures CategoryDicts(uuids, next, locationDict, categories).Ok? ==>
              |CategoryDicts(uuids, next, locationDict, categories).value.0| == |categories|
              && CategoryDicts(uuids, next, locationDict, categories).value.1
                 == next + |FoldConcat(categories, CategoryItemsOf(locationDict)).value|
    decreases |categories|
  {
    if categories != [] {
      var n := |categories| - 1;
      CategoryDictsOutcome(uuids, next, locationDict, categories[..n]);
      var init := CategoryDicts(uuids, next, locationDict, categories[..n]);
      var entries := CategoryEntries(locationDict, categories[n]);
      if init.Ok? && entries.Ok? {
        PopulatedOutcome(uuids, init.value.1, categories[n], entries.value, []);
      }
    }
  }

  /** Merging the categories' dicts in order, for distinct uuids: all entries, keyed, in category order. */
  lemma {:induction false} CategoryDictsKeyed(uuids: Uuids, next: nat, locationDict: Json, categories: seq<string>)
    requires CategoryDicts(uuids, next, locationDict, categories).Ok?
    requires DistinctIds(uuids, next, CategoryDicts(uuids, next, locationDict, categories).value.1)
    ensures FoldConcat(categories, CategoryItemsOf(locationDict)).Ok?
    ensures Evaluation.Combined(CategoryDicts(uuids, next, locationDict, categories).value.0)
              == Keyed(uuids, next, FoldConcat(categories, CategoryItemsOf(locationDict)).value)
    decreases |categories|
  {
    CategoryDictsOutcome(uuids, next, locationDict, categories);
    if categories != [] {
      var n := |categories| - 1;
      var whole := CategoryDicts(uuids, next, locationDict, categories).value;
      var init := CategoryDicts(uuids, next, locationDict, categories[..n]).value;
      var entries := CategoryEntries(locationDict, categories[n]).value;
      CategoryDictsOutcome(uuids, next, locationDict, categories[..n]);
      DistinctNarrow(uuids, next, whole.1, next, init.1);
      CategoryDictsKeyed(uuids, next, locationDict, categories[..n]);
      var initItems := FoldConcat(categories[..n], CategoryItemsOf(locationDict)).value;
      DistinctNarrow(uuids, next, whole.1, init.1, init.1 + |entries|);
      PopulatedKeyed(uuids, init.1, categories[n], entries);
      PopulatedOutcome(uuids, init.1, categories[n], entries, []);
      var lastItems := FoldConcat(entries, LocationEntryOf(categories[n])).value;
      var filled := Keyed(uuids, init.1, lastItems);
      assert whole.0 == init.0 + [filled];
      CombinedSnocKeyed(uuids, next, init.1, init.0, initItems, lastItems);
      assert FoldConcat(categories, CategoryItemsOf(locationDict)).value == initItems + lastItems;
    }
  }

  /** Merging one more dict keyed by fresh uuids extends the keyed listing by its values. */
  lemma CombinedSnocKeyed(uuids: Uuids, next: nat, at: nat, dicts: seq<Dict<LocationValue>>,
                          initItems: seq<LocationValue>, lastItems: seq<LocationValue>)
    requires Evaluation.Combined(dicts) == Keyed(uuids, next, initItems)
    requires at == next + |initItems| && DistinctIds(uuids, next, at + |lastItems|)
    ensures Evaluation.Combined(dicts + [Keyed(uuids, at, lastItems)]) == Keyed(uuids, next, initItems + lastItems)
  {
    var filled := Keyed(uuids, at, lastItems);
    var a := Keyed(uuids, next, initItems);
    assert (dicts + [filled])[..|dicts|] == dicts;
    forall i | 0 <= i < |filled|
      ensures !HasKey(a, filled[i].0)
    {
      KeyedHasKey(uuids, next, initItems, uuids(at + i));
    }
    DistinctNarrow(uuids, next, at + |lastItems|, at, at + |lastItems|);
    KeyedWf(uuids, at, lastItems);
    UpdateAppends(a, filled);
    KeyedConcat(uuids, next, initItems, lastItems, at);
  }

  /**
   * `load_location_into_database` with distinct uuids: one record per entry
   * of the seven categories, in category order, each with its category,
   * its context and item, and the uuid drawn for it.
   */
  lemma LocationRecordsSpec(uuids: Uuids, next: nat, locationDict: Json)
    requires CategoryDicts(uuids, next, locationDict, Categories).Ok?
    requires DistinctIds(uuids, next, CategoryDicts(uuids, next, locationDict, Categories).value.1)
    ensures LocationItems(locationDict).Ok? && LocationRecords(uuids, next, locationDict).Ok?
    ensures var items := LocationItems(locationDict).value;
            var records := LocationRecords(uuids, next, locationDict).value;
            && |records| == |items|
            && forall k :: 0 <= k < |items| ==>
                 records[k] == LocationRecord(items[k].name, items[k].context, items[k].category, uuids(next + k))
  {
    CategoryDictsKeyed(uuids, next, locationDict, Categories);
    RecordsOfKeyed(uuids, next, LocationItems(locationDict).value);
  }

  lemma RecordsOfKeyed(uuids: Uuids, next: nat, items: seq<LocationValue>)
    ensures |RecordsOf(Keyed(uuids, next, items))| == |items|
    ensures forall k :: 0 <= k < |items| ==>
              RecordsOf(Keyed(uuids, next, items))[k] == LocationRecord(items[k].name, items[k].context, items[k].category, uuids(next + k))
  {
    var keyed := Keyed(uuids, next, items);
    forall k | 0 <= k < |items|
      ensures RecordsOf(keyed)[k] == LocationRecord(items[k].name, items[k].context, items[k].category, uuids(next + k))
    {
      assert keyed[k] == (uuids(next + k), items[k]);
    }
  }

  /** The loading fails exactly when listing the seven categories' entries fails, with the same error. */
  lemma LocationRecordsOutcome(uuids: Uuids, next: nat, locationDict: Json)
    ensures LocationRecords(uuids, next, locationDict).Ok? <==> LocationItems(locationDict).Ok?
    ensures LocationRecords(uuids, next, locationDict).Err? ==>
              LocationRecords(uuids, next, locationDict).error == LocationItems(locationDict).error
  {
    CategoryDictsOutcome(uuids, next, locationDict, Categories);
  }

  /** A category missing from a dict reply stops the loading with `KeyError`. */
  lemma {:induction false} MissingCategory(locationDict: Json, categories: seq<string>, i: nat)
    requires locationDict.JObj? && i < |categories| && !HasKey(locationDict.fields, categories[i])
    requires FoldConcat(categories[..i], CategoryItemsOf(locationDict)).Ok?
    ensures FoldConcat(categories, CategoryItemsOf(locationDict)) == Err(KeyError)
  {
    FoldConcatStep(categories, CategoryItemsOf(locationDict), i);
    FoldConcatErrPrefix(categories, CategoryItemsOf(locationDict), i + 1);
  }

  /** Every listed entry carries one of the seven categories. */
  lemma ItemCategories(locationDict: Json, v: LocationValue)
    requires LocationItems(locationDict).Ok? && v in LocationItems(locationDict).value
    ensures v.category in Categories
  {
    ItemsOfCategories(locationDict, Categories, v);
  }

  /** Each entry gathered over a list of categories carries one of them. */
  lemma ItemsOfCategories(locationDict: Json, categories: seq<string>, v: LocationValue)
    requires FoldConcat(categories, CategoryItemsOf(locationDict)).Ok?
    requires v in FoldConcat(categories, CategoryItemsOf(locationDict)).value
    ensures v.category in categories
  {
    FoldConcatMembers(categories, CategoryItemsOf(locationDict), v);
    var c :| 0 <= c < |categories| && CategoryItems(locationDict, categories[c]).Ok?
             && v in CategoryItems(locationDict, categories[c]).value;
    ItemOfCategory(locationDict, categories[c], v);
  }

  /** Each entry gathered for one category carries that category. */
  lemma ItemOfCategory(locationDict: Json, category: string, v: LocationValue)
    requires CategoryItems(locationDict, category).Ok? && v in CategoryItems(locationDict, category).value
    ensures v.category == category
  {
    var entries := CategoryEntries(locationDict, category).value;
    FoldConcatMembers(entries, LocationEntryOf(category), v);
  }

  /** `_populate_location_dict`: the category's entries stored in `object_dict`, one uuid each. */
  method PopulateLocationDict(category: string, allLocationList: Json, objectDict: Dict<LocationValue>, uuids: Uuids, next: nat)
    returns (r: Result<Dict<LocationValue>>)
    ensures CategoryEntries(allLocationList, category).Err? ==> r == Err(CategoryEntries(allLocationList, category).error)
    ensures CategoryEntries(allLocationList, category).Ok? ==>
              r == Populated(uuids, next, category, CategoryEntries(allLocationList, category).value, objectDict)
  {
    var list :- Subscript(allLocationList, category);
    var entries :- Iterate(list);
    var filled := objectDict;
    for k := 0 to |entries|
      invariant Populated(uuids, next, category, entries[..k], objectDict) == Ok(filled)
    {
      var at := next + k;
      PopulatedStep(uuids, next, category, entries, objectDict, k, at);
      var entry := entries[k];
      var context := Subscript(entry, ContextKey);
      if context.Err? {
        PopulatedErrPrefix(uuids, next, category, entries, objectDict, k + 1);
        return Err(context.error);
      }
      var name := Subscript(entry, ItemKey);
      if name.Err? {
        PopulatedErrPrefix(uuids, next, category, entries, objectDict, k + 1);
        return Err(name.error);
      }
      filled := Put(filled, uuids(at), LocationValue(category, context.value, name.value));
    }
    assert entries[..|entries|] == entries;
    r := Ok(filled);
  }

  lemma PopulatedStep(uuids: Uuids, next: nat, category: string, entries: seq<Json>, objectDict: Dict<LocationValue>, k: nat, at: nat)
    requires k < |entries| && at == next + k
    ensures var init := Populated(uuids, next, category, entries[..k], objectDict);
            init.Err? ==> Populated(uuids, next, category, entries[..k + 1], objectDict) == init
    ensures var init := Populated(uuids, next, category, entries[..k], objectDict);
            var last := LocationEntry(category, entries[k]);
            init.Ok? && last.Err? ==> Populated(uuids, next, category, entries[..k + 1], objectDict) == Err(last.error)
    ensures var init := Populated(uuids, next, category, entries[..k], objectDict);
            var last := LocationEntry(category, entries[k]);
            init.Ok? && last.Ok? ==>
              |last.value| == 1 && Populated(uuids, next, category, entries[..k + 1], objectDict) == Ok(Put(init.value, uuids(at), last.value[0]))
  {
    var prefix := entries[..k + 1];
    assert prefix[..k] == entries[..k];
    assert prefix[k] == entries[k];
    PopulatedSnoc(uuids, next, category, prefix, objectDict, at);
  }

  lemma {:induction false} PopulatedErrPrefix(uuids: Uuids, next: nat, category: string, entries: seq<Json>, objectDict: Dict<LocationValue>, i: nat)
    requires i <= |entries| && Populated(uuids, next, category, entries[..i], objectDict).Err?
    ensures Populated(uuids, next, category, entries, objectDict) == Populated(uuids, next, category, entries[..i], objectDict)
    decreases |entries|
  {
    if i == |entries| {
      TakeTake(entries, i, i);
    } else {
      var n := |entries| - 1;
      TakeTake(entries, n, i);
      PopulatedErrPrefix(uuids, next, category, entries[..n], objectDict, i);
    }
  }

  /** `load_location_into_database` up to the query: the category dicts filled in order, merged, listed. */
  method LoadLocationRecords(locationDict: Json, uuids: Uuids, next: nat) returns (r: Result<seq<LocationRecord>>)
    ensures r == LocationRecords(uuids, next, locationDict)
  {
    var mappingDict :- FillCategories(locationDict, Categories, uuids, next);
    var combinedDicts := Evaluation.Combine(mappingDict.0);
    var locations := ListLocations(combinedDicts);
    r := Ok(locations);
  }

  /** The loop of `load_location_into_database` over the categories: one populated dict each, in order. */
  method FillCategories(locationDict: Json, categories: seq<string>, uuids: Uuids, next: nat)
    returns (r: Result<(seq<Dict<LocationValue>>, nat)>)
    ensures r == CategoryDicts(uuids, next, locationDict, categories)
  {
    var mappingDict: seq<Dict<LocationValue>> := [];
    var drawn := next;
    for i := 0 to |categories|
      invariant CategoryDicts(uuids, next, locationDict, categories[..i]).Ok?
      invariant CategoryDicts(uuids, next, locationDict, categories[..i]).value.0 == mappingDict
      invariant CategoryDicts(uuids, next, locationDict, categories[..i]).value.1 == drawn
    {
      CategoryDictsStep(uuids, next, locationDict, categories, i);
      var element := categories[i];
      var entries := CategoryEntries(locationDict, element);
      var filled := PopulateLocationDict(element, locationDict, [], uuids, drawn);
      if filled.Err? {
        CategoryDictsErrPrefix(uuids, next, locationDict, categories, i + 1);
        return Err(filled.error);
      }
      mappingDict := mappingDict + [filled.value];
      drawn := drawn + |entries.value|;
    }
    assert categories[..|categories|] == categories;
    r := Ok((mappingDict, drawn));
  }

  /** One more category, as seen from a prefix of the category list. */
  lemma CategoryDictsStep(uuids: Uuids, next: nat, locationDict: Json, categories: seq<string>, i: nat)
    requires i < |categories|
    ensures var init := CategoryDicts(uuids, next, locationDict, categories[..i]);
            var entries := CategoryEntries(locationDict, categories[i]);
            init.Ok? && entries.Ok? && Populated(uuids, init.value.1, categories[i], entries.value, []).Ok? ==>
              var r := CategoryDicts(uuids, next, locationDict, categories[..i + 1]);
              r.Ok? && r.value.0 == init.value.0 + [Populated(uuids, init.value.1, categories[i], entries.value, []).value]
              && r.value.1 == init.value.1 + |entries.value|
    ensures var init := CategoryDicts(uuids, next, locationDict, categories[..i]);
            var entries := CategoryEntries(locationDict, categories[i]);
            init.Ok? && entries.Ok? && Populated(uuids, init.value.1, categories[i], entries.value, []).Err? ==>
              CategoryDicts(uuids, next, locationDict, categories[..i + 1])
                == Err(Populated(uuids, init.value.1, categories[i], entries.value, []).error)
    ensures var init := CategoryDicts(uuids, next, locationDict, categories[..i]);
            var entries := CategoryEntries(locationDict, categories[i]);
            init.Ok? && entries.Err? ==> CategoryDicts(uuids, next, locationDict, categories[..i + 1]) == Err(entries.error)
  {
    var prefix := categories[..i + 1];
    assert prefix[..i] == categories[..i];
    assert prefix[i] == categories[i];
    CategoryDictsSnoc(uuids, next, locationDict, prefix);
    CategoryDictsSnocFilledErr(uuids, next, locationDict, prefix);
    CategoryDictsSnocErr(uuids, next, locationDict, prefix);
  }

  /** The last category populated: its dict is appended and the uuid counter advances by its entries. */
  lemma CategoryDictsSnoc(uuids: Uuids, next: nat, locationDict: Json, categories: seq<string>)
    requires categories != []
    ensures var init := CategoryDicts(uuids, next, locationDict, categories[..|categories| - 1]);
            var entries := CategoryEntries(locationDict, categories[|categories| - 1]);
            init.Ok? && entries.Ok? && Populated(uuids, init.value.1, categories[|categories| - 1], entries.value, []).Ok? ==>
              var r := CategoryDicts(uuids, next, locationDict, categories);
              r.Ok? && r.value.0 == init.value.0 + [Populated(uuids, init.value.1, categories[|categories| - 1], entries.value, []).value]
              && r.value.1 == init.value.1 + |entries.value|
  {
  }

  /** The last category's dict fails to fill: that error is the outcome. */
  lemma CategoryDictsSnocFilledErr(uuids: Uuids, next: nat, locationDict: Json, categories: seq<string>)
    requires categories != []
    ensures var init := CategoryDicts(uuids, next, locationDict, categories[..|categories| - 1]);
            var entries := CategoryEntries(locationDict, categories[|categories| - 1]);
            init.Ok? && entries.Ok? && Populated(uuids, init.value.1, categories[|categories| - 1], entries.value, []).Err? ==>
              CategoryDicts(uuids, next, locationDict, categories)
                == Err(Populated(uuids, init.value.1, categories[|categories| - 1], entries.value, []).error)
  {
  }

  /** The last category is missing or not a list: that error is the outcome. */
  lemma CategoryDictsSnocErr(uuids: Uuids, next: nat, locationDict: Json, categories: seq<string>)
    requires categories != []
    ensures var init := CategoryDicts(uuids, next, locationDict, categories[..|categories| - 1]);
            var entries := CategoryEntries(locationDict, categories[|categories| - 1]);
            init.Ok? && entries.Err? ==> CategoryDicts(uuids, next, locationDict, categories) == Err(entries.error)
  {
  }

  /** The `Locations` list: one record per key of the merged dict, in order. */
  method ListLocations(combinedDicts: Dict<LocationValue>) returns (locations: seq<LocationRecord>)
    ensures locations == RecordsOf(combinedDicts)
  {
    locations := [];
    for k := 0 to |combinedDicts|
      invariant locations == RecordsOf(combinedDicts[..k])
    {
      var (location, values) := combinedDicts[k];
      assert combinedDicts[..k + 1] == combinedDicts[..k] + [combinedDicts[k]];
      locations := locations + [LocationRecord(values.name, values.context, values.category, location)];
    }
    assert combinedDicts[..|combinedDicts|] == combinedDicts;
  }

  lemma {:induction false} CategoryDictsErrPrefix(uuids: Uuids, next: nat, locationDict: Json, categories: seq<string>, i: nat)
    requires i <= |categories| && CategoryDicts(uuids, next, locationDict, categories[..i]).Err?
    ensures CategoryDicts(uuids, next, locationDict, categories) == CategoryDicts(uuids, next, locationDict, categories[..i])
    decreases |categories|
  {
    if i == |categories| {
      assert categories[..i] == categories;
    } else {
      var n := |categories| - 1;
      assert categories[..n][..i] == categories[..i];
      CategoryDictsErrPrefix(uuids, next, locationDict, categories[..n], i);
    }
  }

  // ---------------------------------------------------------------------
  // Links

  datatype LinkRecord = LinkRecord(personUuid: string, locationUuid: Json, context: Json)

  /** `{"person_uuid": key, "location_uuid": val["uuid"], "context": val["context"]}`. */
  function Link(person: string, val: Json): Result<seq<LinkRecord>>
  {
    var locationUuid :- Subscript(val, UuidKey);
    var context :- Subscript(val, ContextKey);
    Ok([LinkRecord(person, locationUuid, context)])
  }

  function LinkOf(person: string): Json -> Result<seq<LinkRecord>>
  {
    val => Link(person, val)
  }

  function PersonLinks(entry: (string, Json)): Result<seq<LinkRecord>>
  {
    var vals :- Iterate(entry.1);
    FoldConcat(vals, LinkOf(entry.0))
  }

  /** The `Links` list of `load_links_individual_with_location_into_database`. */
  function Links(linkageDict: Json): Result<seq<LinkRecord>>
  {
    var persons :- Items(linkageDict);
    FoldConcat(persons, PersonLinks)
  }

  /** A person's links: one per value listed for the person, in order, keyed by the person. */
  lemma PersonLinksSpec(entry: (string, Json))
    requires PersonLinks(entry).Ok?
    ensures var vals := Iterate(entry.1).value;
            var links := PersonLinks(entry).value;
            && |links| == |vals|
            && forall k :: 0 <= k < |vals| ==>
                 Subscript(vals[k], UuidKey).Ok? && Subscript(vals[k], ContextKey).Ok?
                 && links[k] == LinkRecord(entry.0, Subscript(vals[k], UuidKey).value, Subscript(vals[k], ContextKey).value)
  {
    var vals := Iterate(entry.1).value;
    FoldConcatOk(vals, LinkOf(entry.0));
    FoldConcatSingles(vals, LinkOf(entry.0));
  }

  /** Every link is one (person, value) pair of the reply, with the value's uuid as location. */
  lemma LinksMembers(linkageDict: Json, link: LinkRecord)
    requires Links(linkageDict).Ok?
    ensures link in Links(linkageDict).value <==>
              exists i, k :: 0 <= i < |linkageDict.fields| && Iterate(linkageDict.fields[i].1).Ok?
                && 0 <= k < |Iterate(linkageDict.fields[i].1).value|
                && link.personUuid == linkageDict.fields[i].0
                && Subscript(Iterate(linkageDict.fields[i].1).value[k], UuidKey) == Ok(link.locationUuid)
                && Subscript(Iterate(linkageDict.fields[i].1).value[k], ContextKey) == Ok(link.context)
  {
    var persons := linkageDict.fields;
    FoldConcatMembers(persons, PersonLinks, link);
    FoldConcatOk(persons, PersonLinks);
    if link in Links(linkageDict).value {
      var i :| 0 <= i < |persons| && PersonLinks(persons[i]).Ok? && link in PersonLinks(persons[i]).value;
      PersonLinksSpec(persons[i]);
      var links := PersonLinks(persons[i]).value;
      var k :| 0 <= k < |links| && links[k] == link;
      assert Subscript(Iterate(persons[i].1).value[k], UuidKey) == Ok(link.locationUuid);
    }
    if exists i, k :: 0 <= i < |persons| && Iterate(persons[i].1).Ok?
         && 0 <= k < |Iterate(persons[i].1).value|
         && link.personUuid == persons[i].0
         && Subscript(Iterate(persons[i].1).value[k], UuidKey) == Ok(link.locationUuid)
         && Subscript(Iterate(persons[i].1).value[k], ContextKey) == Ok(link.context) {
      var i, k :| 0 <= i < |persons| && Iterate(persons[i].1).Ok?
         && 0 <= k < |Iterate(persons[i].1).value|
         && link.personUuid == persons[i].0
         && Subscript(Iterate(persons[i].1).value[k], UuidKey) == Ok(link.locationUuid)
         && Subscript(Iterate(persons[i].1).value[k], ContextKey) == Ok(link.context);
      PersonLinksSpec(persons[i]);
      assert PersonLinks(persons[i]).value[k] == link;
    }
  }
}
