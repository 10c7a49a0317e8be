/**
 * The records `Neo4jConnection` builds before it sends them to the graph
 * database: the person nodes read back by `read_persons`, the pii nodes of
 * `create_nodes_pii_independent` and the individual nodes of
 * `create_nodes_individual`, with the `full name` lookup of
 * `catch_key_exception`. The Cypher queries themselves are I/O.
 */
module Neo4jRecords {
  import opened Wrappers
  import opened Text
  import opened Dicts
  import opened Json
  import opened Folds

  const FullNameKey: string := "full name"
  const FullNameFallbackKey: string := "full_name"
  const IdentifierKey: string := "identifier"
  const ContextKey: string := "context"
  const AbbreviationsKey: string := "abbreviations"
  const AliasesKey: string := "aliases"

  // ---------------------------------------------------------------------
  // catch_key_exception

  /** A name value: the last name of a list (`None` for an empty list), any other value itself. */
  function NameFrom(names: Json): Json
  {
    match names
    case JArr(items) => if items == [] then JNull else items[|items| - 1]
    case _ => names
  }

  /**
   * `catch_key_exception(value)`: the name under `"full name"`, or under
   * `"full_name"` when the first key is missing; subscripting a non-dict
   * raises `TypeError`, a dict with neither key `KeyError`.
   */
  function CatchKeyException(value: Json): (r: Result<Json>)
    ensures r.Ok? <==> value.JObj? && (HasKey(value.fields, FullNameKey) || HasKey(value.fields, FullNameFallbackKey))
    ensures !value.JObj? ==> r == Err(TypeError)
    ensures value.JObj? && !HasKey(value.fields, FullNameKey) && !HasKey(value.fields, FullNameFallbackKey) ==> r == Err(KeyError)
    ensures value.JObj? && HasKey(value.fields, FullNameKey) ==> r == Ok(NameFrom(Get(value.fields, FullNameKey).value))
    ensures value.JObj? && !HasKey(value.fields, FullNameKey) && HasKey(value.fields, FullNameFallbackKey) ==>
              r == Ok(NameFrom(Get(value.fields, FullNameFallbackKey).value))
  {
    match Subscript(value, FullNameKey)
    case Ok(names) => Ok(NameFrom(names))
    case Err(KeyError) =>
      var names :- Subscript(value, FullNameFallbackKey);
      Ok(NameFrom(names))
    case Err(e) => Err(e)
  }

  /** The three shapes of a name value: a non-empty list gives its last element, an empty one `None`. */
  lemma NameFromShapes(names: Json)
    ensures names.JArr? && names.items != [] ==> NameFrom(names) == names.items[|names.items| - 1]
                                                 && NameFrom(names) in names.items
    ensures names.JArr? && names.items == [] ==> NameFrom(names) == JNull
    ensures !names.JArr? ==> NameFrom(names) == names
  {
  }

  // ---------------------------------------------------------------------
  // create_nodes_pii_independent

  /** One element of the `piis` parameter. */
  datatype PiiNode = PiiNode(identifier: string, context: Json, uuid: string)

  /** `s.lower()`: only strings have the method. */
  function LowerOf(v: Json): (r: Result<string>)
    ensures r.Ok? <==> v.JStr?
    ensures r.Ok? ==> r.value == Lower(v.s)
    ensures r.Err? ==> r.error == AttributeError
  {
    match v
    case JStr(s) => Ok(Lower(s))
    case _ => Err(AttributeError)
  }

  /** The record of one `key, value` pair: the identifier lower-cased, then the context, keyed by `key`. */
  function PiiNodeOf(entry: (string, Json)): Result<seq<PiiNode>>
  {
    var identifier :- Subscript(entry.1, IdentifierKey);
    var lowered :- LowerOf(identifier);
    var context :- Subscript(entry.1, ContextKey);
    Ok([PiiNode(lowered, context, entry.0)])
  }

  /** `for key, value in result_dict.items()`. */
  function DictNodes(resultDict: Json): Result<seq<PiiNode>>
  {
    var entries :- Items(resultDict);
    FoldConcat(entries, PiiNodeOf)
  }

  /**
   * `create_nodes_pii_independent` up to the query: the title-cased label
   * and the records of every pair of every dict in `result`.
   */
  function PiiNodes(pii: string, result: Json): Result<(string, seq<PiiNode>)>
  {
    var dicts :- Iterate(result);
    var nodes :- FoldConcat(dicts, DictNodes);
    Ok((Title(pii), nodes))
  }

  /** The pair `entry` yields the record `n`. */
  ghost predicate NodeFrom(entry: (string, Json), n: PiiNode)
  {
    n.uuid == entry.0
    && Subscript(entry.1, IdentifierKey).Ok? && Subscript(entry.1, IdentifierKey).value.JStr?
    && n.identifier == Lower(Subscript(entry.1, IdentifierKey).value.s)
    && Subscript(entry.1, ContextKey) == Ok(n.context)
  }

  /** Some pair of the dict `d` yields `n`. */
  ghost predicate DictYields(d: Json, n: PiiNode)
  {
    d.JObj? && exists j :: 0 <= j < |d.fields| && NodeFrom(d.fields[j], n)
  }

  /** The pair is usable: a dict holding a string identifier and a context. */
  ghost predicate PairOk(entry: (string, Json))
  {
    entry.1.JObj? && HasKey(entry.1.fields, IdentifierKey) && Get(entry.1.fields, IdentifierKey).value.JStr?
    && HasKey(entry.1.fields, ContextKey)
  }

  /** Every element of `d` is a dict whose pairs are all usable. */
  ghost predicate DictOk(d: Json)
  {
    d.JObj? && forall j :: 0 <= j < |d.fields| ==> PairOk(d.fields[j])
  }

  lemma PiiNodeOfSpec(entry: (string, Json), n: PiiNode)
    ensures PiiNodeOf(entry).Ok? <==> PairOk(entry)
    ensures PiiNodeOf(entry).Ok? ==> |PiiNodeOf(entry).value| == 1 && NodeFrom(entry, PiiNodeOf(entry).value[0])
    ensures PiiNodeOf(entry).Ok? ==> (n in PiiNodeOf(entry).value <==> NodeFrom(entry, n))
  {
  }

  /** The records are built exactly when `result` is iterable and every pair of every dict is usable. */
  lemma PiiNodesOk(pii: string, result: Json)
    ensures PiiNodes(pii, result).Ok? <==>
              Iterate(result).Ok? && forall i :: 0 <= i < |Iterate(result).value| ==> DictOk(Iterate(result).value[i])
    ensures PiiNodes(pii, result).Ok? ==> PiiNodes(pii, result).value.0 == Title(pii)
  {
    if Iterate(result).Ok? {
      var dicts := Iterate(result).value;
      FoldConcatOk(dicts, DictNodes);
      forall i | 0 <= i < |dicts|
        ensures DictNodes(dicts[i]).Ok? <==> DictOk(dicts[i])
      {
        if dicts[i].JObj? {
          FoldConcatOk(dicts[i].fields, PiiNodeOf);
          forall j | 0 <= j < |dicts[i].fields|
            ensures PiiNodeOf(dicts[i].fields[j]).Ok? <==> PairOk(dicts[i].fields[j])
          {
            PiiNodeOfSpec(dicts[i].fields[j], PiiNode([], JNull, []));
          }
        }
      }
    }
  }

  /** The records of one dict are exactly those of its pairs. */
  lemma DictNodesMembers(d: Json, n: PiiNode)
    requires DictNodes(d).Ok?
    ensures n in DictNodes(d).value <==> DictYields(d, n)
  {
    FoldConcatMembers(d.fields, PiiNodeOf, n);
    if n in DictNodes(d).value {
      var j :| 0 <= j < |d.fields| && PiiNodeOf(d.fields[j]).Ok? && n in PiiNodeOf(d.fields[j]).value;
      PiiNodeOfSpec(d.fields[j], n);
    }
    if DictYields(d, n) {
      var j :| 0 <= j < |d.fields| && NodeFrom(d.fields[j], n);
      FoldConcatOk(d.fields, PiiNodeOf);
      PiiNodeOfSpec(d.fields[j], n);
    }
  }

  /** Every record comes from a pair of a dict in `result`, and every pair's record is present. */
  lemma PiiNodesMembers(pii: string, result: Json, n: PiiNode)
    requires PiiNodes(pii, result).Ok?
    ensures n in PiiNodes(pii, result).value.1 <==>
              exists i :: 0 <= i < |Iterate(result).value| && DictYields(Iterate(result).value[i], n)
  {
    var dicts := Iterate(result).value;
    FoldConcatMembers(dicts, DictNodes, n);
    FoldConcatOk(dicts, DictNodes);
    forall i | 0 <= i < |dicts|
      ensures DictNodes(dicts[i]).Ok? && (n in DictNodes(dicts[i]).value <==> DictYields(dicts[i], n))
    {
      DictNodesMembers(dicts[i], n);
    }
  }

  /** With single-key dicts, as the extraction produces them, record `i` is keyed by the key of dict `i`. */
  lemma PiiNodesSingleKey(pii: string, result: Json)
    requires PiiNodes(pii, result).Ok?
    requires forall i :: 0 <= i < |Iterate(result).value| ==>
               Iterate(result).value[i].JObj? && |Iterate(result).value[i].fields| == 1
    ensures |PiiNodes(pii, result).value.1| == |Iterate(result).value|
    ensures forall i :: 0 <= i < |Iterate(result).value| ==>
              NodeFrom(Iterate(result).value[i].fields[0], PiiNodes(pii, result).value.1[i])
  {
    var dicts := Iterate(result).value;
    FoldConcatOk(dicts, DictNodes);
    forall i | 0 <= i < |dicts|
      ensures DictNodes(dicts[i]).Ok? ==>
                |DictNodes(dicts[i]).value| == 1 && NodeFrom(dicts[i].fields[0], DictNodes(dicts[i]).value[0])
    {
      if DictNodes(dicts[i]).Ok? {
        FoldConcatOk(dicts[i].fields, PiiNodeOf);
        PiiNodeOfSpec(dicts[i].fields[0], PiiNode([], JNull, []));
        FoldConcatSingles(dicts[i].fields, PiiNodeOf);
      }
    }
    FoldConcatSingles(dicts, DictNodes);
  }

  // ---------------------------------------------------------------------
  // create_nodes_individual

  /** One element of the `individuals` parameter. */
  datatype IndividualNode = IndividualNode(fullName: Json, abbreviations: Json, aliases: Json, uuidPerson: string)

  /** The record of one person: the name first, then the abbreviations and the aliases. */
  function IndividualNodeOf(entry: (string, Json)): Result<seq<IndividualNode>>
  {
    var fullName :- CatchKeyException(entry.1);
    var abbreviations :- Subscript(entry.1, AbbreviationsKey);
    var aliases :- Subscript(entry.1, AliasesKey);
    Ok([IndividualNode(fullName, abbreviations, aliases, entry.0)])
  }

  /** `create_nodes_individual` up to the query: one record per `uuid, value` of `result.items()`. */
  function IndividualNodes(result: Json): Result<seq<IndividualNode>>
  {
    var persons :- Items(result);
    FoldConcat(persons, IndividualNodeOf)
  }

  /** The person's record carries its uuid, its looked-up name and its two lists. */
  ghost predicate PersonRecord(entry: (string, Json), n: IndividualNode)
  {
    n.uuidPerson == entry.0
    && CatchKeyException(entry.1) == Ok(n.fullName)
    && Subscript(entry.1, AbbreviationsKey) == Ok(n.abbreviations)
    && Subscript(entry.1, AliasesKey) == Ok(n.aliases)
  }

  /** The person can be recorded: a name is found and both lists are present. */
  ghost predicate PersonOk(entry: (string, Json))
  {
    CatchKeyException(entry.1).Ok? && HasKey(entry.1.fields, AbbreviationsKey) && HasKey(entry.1.fields, AliasesKey)
  }

  /** The records are built exactly when `result` is a dict whose every person can be recorded. */
  lemma IndividualNodesOk(result: Json)
    ensures IndividualNodes(result).Ok? <==> result.JObj? && forall i :: 0 <= i < |result.fields| ==> PersonOk(result.fields[i])
    ensures !result.JObj? ==> IndividualNodes(result) == Err(AttributeError)
  {
    if result.JObj? {
      FoldConcatOk(result.fields, IndividualNodeOf);
    }
  }

  /** One record per person, in the order of `result`, each built from that person's entry. */
  lemma IndividualNodesSpec(result: Json)
    requires IndividualNodes(result).Ok?
    ensures |IndividualNodes(result).value| == |result.fields|
    ensures forall i :: 0 <= i < |result.fields| ==> PersonRecord(result.fields[i], IndividualNodes(result).value[i])
  {
    var persons := result.fields;
    FoldConcatOk(persons, IndividualNodeOf);
    forall i | 0 <= i < |persons|
      ensures IndividualNodeOf(persons[i]).Ok? ==> |IndividualNodeOf(persons[i]).value| == 1
    {
      IndividualNodeOfSpec(persons[i]);
    }
    FoldConcatSingles(persons, IndividualNodeOf);
    forall i | 0 <= i < |persons|
      ensures PersonRecord(persons[i], IndividualNodes(result).value[i])
    {
      IndividualNodeOfSpec(persons[i]);
    }
  }

  /** A person's record, when it can be built, is the one record its entry describes. */
  lemma IndividualNodeOfSpec(entry: (string, Json))
    ensures IndividualNodeOf(entry).Ok? ==> |IndividualNodeOf(entry).value| == 1 && PersonRecord(entry, IndividualNodeOf(entry).value[0])
  {
  }

  // ---------------------------------------------------------------------
  // read_persons

  /** A returned `designation` node: its uuid and its other properties. */
  datatype DesignationNode = DesignationNode(uuid: string, properties: Dict<Json>)

  /** `node.get(key)`: the property, or `None` when the node lacks it. */
  function Property(node: DesignationNode, key: string): Json
  {
    if HasKey(node.properties, key) then Get(node.properties, key).value else JNull
  }

  /** The value stored for one person. */
  function PersonEntry(node: DesignationNode): (r: Json)
    ensures r.JObj? && Wf(r.fields) && Keys(r.fields) == [FullNameKey, AbbreviationsKey, AliasesKey]
    ensures Get(r.fields, FullNameKey) == Some(Property(node, FullNameFallbackKey))
    ensures Get(r.fields, AbbreviationsKey) == Some(Property(node, AbbreviationsKey))
    ensures Get(r.fields, AliasesKey) == Some(Property(node, AliasesKey))
  {
    JObj([(FullNameKey, Property(node, FullNameFallbackKey)),
          (AbbreviationsKey, Property(node, AbbreviationsKey)),
          (AliasesKey, Property(node, AliasesKey))])
  }

  /** One assignment `person_dict[uuid] = {...}` per returned node, in order. */
  function PersonPairs(nodes: seq<DesignationNode>): (r: Dict<Json>)
    ensures |r| == |nodes|
    ensures forall i :: 0 <= i < |nodes| ==> r[i] == (nodes[i].uuid, PersonEntry(nodes[i]))
  {
    seq(|nodes|, i requires 0 <= i < |nodes| => (nodes[i].uuid, PersonEntry(nodes[i])))
  }

  /** `person_dict` after the loop of `read_persons` over the returned nodes. */
  function PersonsDict(nodes: seq<DesignationNode>): Dict<Json>
  {
    Update([], PersonPairs(nodes))
  }

  /** `read_persons`: the persons of the returned nodes, keyed by uuid, rendered by `json.dumps`. */
  method ReadPersons(nodes: seq<DesignationNode>, dumps: Render) returns (r: string)
    ensures r == dumps(JObj(PersonsDict(nodes)))
  {
    ghost var pairs := PersonPairs(nodes);
    var personDict: Dict<Json> := [];
    for k := 0 to |nodes|
      invariant Update(personDict, pairs[k..]) == PersonsDict(nodes)
    {
      var person := nodes[k];
      UpdateStep(personDict, pairs, k);
      personDict := Put(personDict, person.uuid, PersonEntry(person));
    }
    r := dumps(JObj(personDict));
  }

  /** The dict has no repeated key, and its keys are exactly the nodes' uuids. */
  lemma PersonsDictKeys(nodes: seq<DesignationNode>, k: string)
    ensures Wf(PersonsDict(nodes))
    ensures HasKey(PersonsDict(nodes), k) <==> exists i :: 0 <= i < |nodes| && nodes[i].uuid == k
  {
    var pairs := PersonPairs(nodes);
    UpdateWf([], pairs);
    UpdateHasKey([], pairs, k);
    assert HasKey(pairs, k) <==> exists i :: 0 <= i < |nodes| && nodes[i].uuid == k by {
      if HasKey(pairs, k) {
        var i :| 0 <= i < |pairs| && pairs[i].0 == k;
        assert nodes[i].uuid == k;
      }
    }
  }

  /** A uuid returned more than once keeps the entry of its last node. */
  lemma PersonsDictLast(nodes: seq<DesignationNode>, i: nat)
    requires i < |nodes| && forall j :: i < j < |nodes| ==> nodes[j].uuid != nodes[i].uuid
    ensures Get(PersonsDict(nodes), nodes[i].uuid) == Some(PersonEntry(nodes[i]))
  {
    var pairs := PersonPairs(nodes);
    assert forall j :: i < j < |pairs| ==> pairs[j].0 != pairs[i].0;
    UpdateFromEmptyAt(pairs, i);
  }
}
