/**
 * Python dictionaries with string keys, kept in insertion order: assigning
 * to an existing key updates it in place, assigning to a new key appends it.
 */
module Dicts {
  import opened Wrappers
  import opened Seqs

  type Dict<V> = seq<(string, V)>

  function Keys<V>(d: Dict<V>): (r: seq<string>)
    ensures |r| == |d|
    ensures forall i :: 0 <= i < |d| ==> r[i] == d[i].0
  {
    seq(|d|, i requires 0 <= i < |d| => d[i].0)
  }

  function Values<V>(d: Dict<V>): (r: seq<V>)
    ensures |r| == |d|
    ensures forall i :: 0 <= i < |d| ==> r[i] == d[i].1
  {
    seq(|d|, i requires 0 <= i < |d| => d[i].1)
  }

  /** No key occurs twice, as in every Python dict. */
  predicate Wf<V>(d: Dict<V>)
  {
    forall i, j :: 0 <= i < j < |d| ==> d[i].0 != d[j].0
  }

  predicate HasKey<V>(d: Dict<V>, k: string)
  {
    exists i :: 0 <= i < |d| && d[i].0 == k
  }

  /** Index of the first entry with key `k`. */
  function IndexOf<V>(d: Dict<V>, k: string): (r: Option<nat>)
    ensures r.Some? ==> r.value < |d| && d[r.value].0 == k
                        && forall i :: 0 <= i < r.value ==> d[i].0 != k
    ensures r.None? <==> !HasKey(d, k)
  {
    if |d| == 0 then None
    else if d[0].0 == k then Some(0)
    else match IndexOf(d[1..], k)
         case None => None
         case Some(i) => Some(i + 1)
  }

  /** `d.get(k)`: the value stored under `k`. */
  function Get<V>(d: Dict<V>, k: string): (r: Option<V>)
    ensures r.Some? <==> HasKey(d, k)
    ensures Wf(d) ==> forall i :: 0 <= i < |d| && d[i].0 == k ==> r == Some(d[i].1)
  {
    match IndexOf(d, k)
    case None => None
    case Some(i) => Some(d[i].1)
  }

  /** `d[k] = v`. */
  function Put<V>(d: Dict<V>, k: string, v: V): (r: Dict<V>)
    ensures HasKey(d, k) ==> |r| == |d| && Keys(r) == Keys(d)
    ensures HasKey(d, k) ==> r == d[IndexOf(d, k).value := (k, v)]
    ensures !HasKey(d, k) ==> r == d + [(k, v)]
  {
    match IndexOf(d, k)
    case None => d + [(k, v)]
    case Some(i) => d[i := (k, v)]
  }

  /**
   * The picture of a loop that rewrites the values of `orig` in place, key
   * by key: the first `i` entries hold `f` of the original entry, the rest
   * are untouched, and the keys are those of `orig`.
   */
  ghost predicate MappedUpTo<V>(orig: Dict<V>, f: (string, V) -> Result<V>, table: Dict<V>, i: nat)
  {
    && i <= |orig|
    && |table| == |orig| && Keys(table) == Keys(orig) && Wf(table)
    && (forall j :: 0 <= j < i ==> f(orig[j].0, orig[j].1).Ok?)
    && (forall j :: 0 <= j < i ==> table[j] == (orig[j].0, f(orig[j].0, orig[j].1).value))
    && (forall j :: i <= j < |orig| ==> table[j] == orig[j])
  }

  /** Rewriting key `i` moves the picture on by one. */
  lemma MappedStep<V>(orig: Dict<V>, f: (string, V) -> Result<V>, table: Dict<V>, i: nat)
    requires MappedUpTo(orig, f, table, i) && i < |orig| && f(orig[i].0, orig[i].1).Ok?
    ensures Get(table, orig[i].0) == Some(orig[i].1)
    ensures MappedUpTo(orig, f, Put(table, orig[i].0, f(orig[i].0, orig[i].1).value), i + 1)
  {
    assert table[i] == orig[i];
    PutAt(table, i, f(orig[i].0, orig[i].1).value);
  }

  /** Assigning to the key at index `i` of a well-formed dict replaces that entry in place. */
  /** In a proper dict the value of an entry's key is that entry's value. */
  lemma GetAt<V>(d: Dict<V>, i: nat)
    requires Wf(d) && i < |d|
    ensures Get(d, d[i].0) == Some(d[i].1)
  {
    assert IndexOf(d, d[i].0) == Some(i);
  }

  lemma PutAt<V>(d: Dict<V>, i: nat, v: V)
    requires Wf(d) && i < |d|
    ensures Get(d, d[i].0) == Some(d[i].1)
    ensures Put(d, d[i].0, v) == d[i := (d[i].0, v)]
    ensures Keys(Put(d, d[i].0, v)) == Keys(d) && Wf(Put(d, d[i].0, v))
  {
    assert IndexOf(d, d[i].0) == Some(i);
    var r := Put(d, d[i].0, v);
    assert forall j :: 0 <= j < |r| ==> Keys(r)[j] == Keys(d)[j];
  }

  /** After `d[k] = v` the keys are the old ones and `k`. */
  lemma PutHasKey<V>(d: Dict<V>, k: string, v: V, k': string)
    ensures HasKey(Put(d, k, v), k') <==> k' == k || HasKey(d, k')
  {
    if HasKey(d, k) {
      var i := IndexOf(d, k).value;
      if HasKey(d, k') {
        var j :| 0 <= j < |d| && d[j].0 == k';
        assert Put(d, k, v)[j].0 == k';
      }
      if k' == k {
        assert Put(d, k, v)[i].0 == k';
      }
    } else {
      assert Put(d, k, v)[|d|].0 == k;
      if HasKey(d, k') {
        var j :| 0 <= j < |d| && d[j].0 == k';
        assert Put(d, k, v)[j].0 == k';
      }
    }
  }

  lemma PutWf<V>(d: Dict<V>, k: string, v: V)
    requires Wf(d)
    ensures Wf(Put(d, k, v))
  {
    var r := Put(d, k, v);
    if HasKey(d, k) {
      assert forall i :: 0 <= i < |d| ==> r[i].0 == Keys(r)[i] == Keys(d)[i] == d[i].0;
    }
  }

  /** After `d[k] = v`, `k` maps to `v` and every other key is unchanged. */
  lemma PutGet<V>(d: Dict<V>, k: string, v: V, k': string)
    ensures Get(Put(d, k, v), k') == if k' == k then Some(v) else Get(d, k')
  {
    match IndexOf(d, k)
    case None => PutGetNew(d, k, v, k');
    case Some(i) => PutGetExisting(d, k, v, k', i);
  }

  lemma PutGetNew<V>(d: Dict<V>, k: string, v: V, k': string)
    requires !HasKey(d, k)
    ensures Get(d + [(k, v)], k') == if k' == k then Some(v) else Get(d, k')
  {
    var r := d + [(k, v)];
    assert r[|d|] == (k, v);
    if k' != k && HasKey(d, k') {
      var j := IndexOf(d, k').value;
      assert r[j] == d[j];
    }
  }

  lemma PutGetExisting<V>(d: Dict<V>, k: string, v: V, k': string, i: nat)
    requires IndexOf(d, k) == Some(i)
    ensures Get(d[i := (k, v)], k') == if k' == k then Some(v) else Get(d, k')
  {
    var r := d[i := (k, v)];
    if k' == k {
      assert r[i].0 == k;
    } else if HasKey(d, k') {
      var j := IndexOf(d, k').value;
      assert r[j].0 == k';
      var j' := IndexOf(r, k').value;
      assert d[j'] == r[j'];
    }
  }

  /** `d.pop(k, None)`: the entry with key `k` removed, the rest in order. */
  function Remove<V>(d: Dict<V>, k: string): (r: Dict<V>)
    ensures !HasKey(r, k)
    ensures forall k' :: k' != k ==> (HasKey(r, k') <==> HasKey(d, k'))
    ensures |r| <= |d|
  {
    if |d| == 0 then []
    else
      HasKeyCons(d);
      if d[0].0 == k then Remove(d[1..], k)
      else
        HasKeyCons([d[0]] + Remove(d[1..], k));
        assert ([d[0]] + Remove(d[1..], k))[1..] == Remove(d[1..], k);
        [d[0]] + Remove(d[1..], k)
  }

  lemma HasKeyCons<V>(d: Dict<V>)
    requires |d| > 0
    ensures forall k :: HasKey(d, k) <==> d[0].0 == k || HasKey(d[1..], k)
  {
    forall k | HasKey(d, k) && d[0].0 != k ensures HasKey(d[1..], k) {
      var i :| 0 <= i < |d| && d[i].0 == k;
      assert d[1..][i - 1].0 == k;
    }
  }

  /** The rest of a proper dict is proper and lacks the first key. */
  lemma WfCons<V>(d: Dict<V>)
    requires |d| > 0 && Wf(d)
    ensures Wf(d[1..]) && !HasKey(d[1..], d[0].0)
  {
    forall i | 0 <= i < |d| - 1 ensures d[1..][i].0 != d[0].0 {
      assert d[1..][i] == d[i + 1];
    }
  }

  lemma {:induction false} RemoveGet<V>(d: Dict<V>, k: string, k': string)
    requires k' != k
    ensures Get(Remove(d, k), k') == Get(d, k')
  {
    if |d| > 0 {
      RemoveGet(d[1..], k, k');
      GetCons(d, k');
      if d[0].0 != k {
        var r := [d[0]] + Remove(d[1..], k);
        ConcatTail([d[0]], [], Remove(d[1..], k));
        GetCons(r, k');
      }
    }
  }

  /** A lookup checks the first entry, then the rest. */
  lemma GetCons<V>(d: Dict<V>, k: string)
    requires |d| > 0
    ensures Get(d, k) == if d[0].0 == k then Some(d[0].1) else Get(d[1..], k)
  {
  }

  lemma {:induction false} RemoveWf<V>(d: Dict<V>, k: string)
    requires Wf(d)
    ensures Wf(Remove(d, k))
  {
    if |d| > 0 {
      RemoveWf(d[1..], k);
      if d[0].0 != k {
        var r := Remove(d[1..], k);
        assert !HasKey(d[1..], d[0].0);
        forall j | 0 <= j < |r| ensures r[j].0 != d[0].0 {
          assert HasKey(r, r[j].0);
        }
      }
    }
  }

  /** `d.update(e)`: the entries of `e` assigned one after another. */
  function Update<V>(d: Dict<V>, e: Dict<V>): Dict<V>
    decreases |e|
  {
    if |e| == 0 then d else Update(Put(d, e[0].0, e[0].1), e[1..])
  }

  lemma {:induction false} UpdateWf<V>(d: Dict<V>, e: Dict<V>)
    requires Wf(d)
    ensures Wf(Update(d, e))
    decreases |e|
  {
    if |e| > 0 {
      PutWf(d, e[0].0, e[0].1);
      UpdateWf(Put(d, e[0].0, e[0].1), e[1..]);
    }
  }

  /** After `d.update(e)` a key of `e` holds its value from `e`; any other key keeps its value from `d`. */
  lemma {:induction false} UpdateGet<V>(d: Dict<V>, e: Dict<V>, k: string)
    requires Wf(d) && Wf(e)
    ensures Get(Update(d, e), k) == if HasKey(e, k) then Get(e, k) else Get(d, k)
    decreases |e|
  {
    if |e| > 0 {
      var d' := Put(d, e[0].0, e[0].1);
      PutWf(d, e[0].0, e[0].1);
      PutGet(d, e[0].0, e[0].1, k);
      UpdateGet(d', e[1..], k);
      assert Wf(e[1..]);
      if k == e[0].0 {
        assert !HasKey(e[1..], k);
      } else if HasKey(e, k) {
        var j :| 0 <= j < |e| && e[j].0 == k;
        assert e[1..][j - 1].0 == k;
      } else {
        assert !HasKey(e[1..], k);
      }
    }
  }

  /** A key is present after `d.update(e)` exactly when it was present in `d` or in `e`. */
  lemma {:induction false} UpdateHasKey<V>(d: Dict<V>, e: Dict<V>, k: string)
    ensures HasKey(Update(d, e), k) <==> HasKey(d, k) || HasKey(e, k)
    decreases |e|
  {
    if |e| > 0 {
      PutHasKey(d, e[0].0, e[0].1, k);
      UpdateHasKey(Put(d, e[0].0, e[0].1), e[1..], k);
      HasKeyCons(e);
    }
  }

  /** The next key of a proper dict is not among the earlier ones. */
  lemma PrefixLacksNext<V>(d: Dict<V>, i: nat)
    requires Wf(d) && i < |d|
    ensures !HasKey(d[..i], d[i].0)
  {
  }

  lemma HasKeyConcat<V>(a: Dict<V>, b: Dict<V>, k: string)
    ensures HasKey(a + b, k) <==> HasKey(a, k) || HasKey(b, k)
  {
    if HasKey(a, k) {
      var j :| 0 <= j < |a| && a[j].0 == k;
      assert (a + b)[j] == a[j];
    }
    if HasKey(b, k) {
      var j :| 0 <= j < |b| && b[j].0 == k;
      assert (a + b)[|a| + j] == b[j];
    }
  }

  /** A property of every value survives writing a value that has it. */
  lemma PutPreserves<V>(d: Dict<V>, k: string, v: V, P: V -> bool)
    requires forall i :: 0 <= i < |d| ==> P(d[i].1)
    requires P(v)
    ensures forall i :: 0 <= i < |Put(d, k, v)| ==> P(Put(d, k, v)[i].1)
  {
  }

  /** One step of `d.update(e)` from position `i` on. */
  lemma UpdateStep<V>(d: Dict<V>, e: Dict<V>, i: nat)
    requires i < |e|
    ensures Update(d, e[i..]) == Update(Put(d, e[i].0, e[i].1), e[i + 1..])
  {
    assert e[i..][1..] == e[i + 1..];
  }

  /** The value of the last entry with key `k`: what a run of assignments leaves behind. */
  function LastWith<V>(e: Dict<V>, k: string): (r: Option<V>)
    ensures r.Some? <==> HasKey(e, k)
    ensures r.Some? ==> exists j :: 0 <= j < |e| && e[j] == (k, r.value)
    decreases |e|
  {
    if |e| == 0 then None
    else
      HasKeyCons(e);
      match LastWith(e[1..], k)
      case Some(v) => Some(v)
      case None => if e[0].0 == k then Some(e[0].1) else None
  }

  /** After `d.update(e)` a key of `e` holds the value of its last entry in `e`. */
  lemma {:induction false} UpdateLast<V>(d: Dict<V>, e: Dict<V>, k: string)
    requires Wf(d)
    ensures Get(Update(d, e), k) == if HasKey(e, k) then LastWith(e, k) else Get(d, k)
    decreases |e|
  {
    if |e| > 0 {
      HasKeyCons(e);
      PutWf(d, e[0].0, e[0].1);
      PutGet(d, e[0].0, e[0].1, k);
      UpdateLast(Put(d, e[0].0, e[0].1), e[1..], k);
    }
  }

  /** The entries of a later part win over those of an earlier part. */
  lemma {:induction false} LastWithConcat<V>(a: Dict<V>, b: Dict<V>, k: string)
    ensures LastWith(a + b, k) == if HasKey(b, k) then LastWith(b, k) else LastWith(a, k)
    decreases |a|
  {
    if |a| > 0 {
      assert (a + b)[1..] == a[1..] + b;
      LastWithConcat(a[1..], b, k);
    } else {
      assert a + b == b;
    }
  }

  /** Without repeated keys the last entry is the only one. */
  lemma {:induction false} LastWithWf<V>(e: Dict<V>, k: string)
    requires Wf(e)
    ensures LastWith(e, k) == Get(e, k)
    decreases |e|
  {
    if |e| > 0 {
      HasKeyCons(e);
      assert Wf(e[1..]);
      LastWithWf(e[1..], k);
      if e[0].0 == k {
        assert !HasKey(e[1..], k);
      } else if HasKey(e[1..], k) {
        var j := IndexOf(e[1..], k).value;
        assert e[j + 1] == e[1..][j];
      }
    }
  }

  /** An entry that no later entry overrides is the one a run of assignments leaves behind. */
  lemma {:induction false} LastWithAt<V>(e: Dict<V>, i: nat)
    requires i < |e| && forall j :: i < j < |e| ==> e[j].0 != e[i].0
    ensures LastWith(e, e[i].0) == Some(e[i].1)
    decreases |e|
  {
    HasKeyCons(e);
    if i > 0 {
      assert forall j :: i - 1 < j < |e[1..]| ==> e[1..][j] == e[j + 1];
      LastWithAt(e[1..], i - 1);
    }
  }

  /** Assigning the entries of `e` to an empty dict leaves each key with its last value. */
  lemma UpdateFromEmptyAt<V>(e: Dict<V>, i: nat)
    requires i < |e| && forall j :: i < j < |e| ==> e[j].0 != e[i].0
    ensures Get(Update([], e), e[i].0) == Some(e[i].1)
  {
    UpdateLast([], e, e[i].0);
    LastWithAt(e, i);
    assert HasKey(e, e[i].0);
  }

  /**
   * The dict whose entries are those of `d`, each value replaced by `f` of
   * its entry, or the error of the first entry `f` refuses: what a loop
   * rewriting a dict's values key by key, stopping at the first exception,
   * leaves behind.
   */
  function MapEntries<V>(d: Dict<V>, f: (string, V) -> Result<V>): (r: Result<Dict<V>>)
    ensures r.Ok? <==> forall i :: 0 <= i < |d| ==> f(d[i].0, d[i].1).Ok?
    ensures r.Ok? ==> |r.value| == |d|
    ensures r.Ok? ==> forall i :: 0 <= i < |d| ==> r.value[i] == (d[i].0, f(d[i].0, d[i].1).value)
    ensures r.Err? ==> exists j :: 0 <= j < |d| && (forall i :: 0 <= i < j ==> f(d[i].0, d[i].1).Ok?)
                                  && f(d[j].0, d[j].1) == Err(r.error)
    decreases |d|
  {
    if |d| == 0 then Ok([])
    else
      var head := f(d[0].0, d[0].1);
      if head.Err? then Err(head.error)
      else
        var rest := MapEntries(d[1..], f);
        assert forall i :: 0 <= i < |d| - 1 ==> d[1..][i] == d[i + 1];
        if rest.Err? then
          assert exists j :: 0 <= j < |d| && (forall i :: 0 <= i < j ==> f(d[i].0, d[i].1).Ok?)
                             && f(d[j].0, d[j].1) == Err(rest.error) by {
            var j :| 0 <= j < |d| - 1 && (forall i :: 0 <= i < j ==> f(d[1..][i].0, d[1..][i].1).Ok?)
                     && f(d[1..][j].0, d[1..][j].1) == Err(rest.error);
            assert forall i :: 0 < i < j + 1 ==> f(d[i].0, d[i].1).Ok?;
          }
          Err(rest.error)
        else
          Ok([(d[0].0, head.value)] + rest.value)
  }

  /** Once entry `j` is the first one `f` refuses, its error is the outcome. */
  lemma {:induction false} MapEntriesFirstError<V>(d: Dict<V>, f: (string, V) -> Result<V>, j: nat)
    requires j < |d| && f(d[j].0, d[j].1).Err?
    requires forall i :: 0 <= i < j ==> f(d[i].0, d[i].1).Ok?
    ensures MapEntries(d, f) == Err(f(d[j].0, d[j].1).error)
    decreases |d|
  {
    if j > 0 {
      assert forall i :: 0 <= i < |d| - 1 ==> d[1..][i] == d[i + 1];
      MapEntriesFirstError(d[1..], f, j - 1);
    }
  }

  /** The dictionary's contents as an unordered map. */
  function ToMap<V>(d: Dict<V>): (m: map<string, V>)
    ensures forall k :: k in m <==> HasKey(d, k)
  {
    map k | k in Keys(d) :: Get(d, k).value
  }
}

/** JSON values as `json.loads` produces them, and the Python operations applied to them. */
module Json {
  import opened Wrappers
  import opened Dicts

  /** The keys under which a verdict holds its flag and its reasoning. */
  const BoolKey: string := "bool"
  const ReasoningKey: string := "reasoning"

  /** Objects keep their keys in insertion order; floating-point numbers are not modelled. */
  datatype Json =
    | JNull
    | JBool(b: bool)
    | JInt(i: int)
    | JStr(s: string)
    | JArr(items: seq<Json>)
    | JObj(fields: Dict<Json>)

  /** The parser: `Some(v)` when the text is valid JSON denoting `v`, `None` for `JSONDecodeError`. */
  type Loads = string -> Option<Json>

  /** `json.loads(text)` with its failure as `JSONDecodeError`. */
  function Decode(loads: Loads, text: string): (r: Result<Json>)
    ensures r.Ok? <==> loads(text).Some?
    ensures r.Ok? ==> r.value == loads(text).value
    ensures r.Err? ==> r.error == JsonDecodeError
  {
    match loads(text)
    case Some(v) => Ok(v)
    case None => Err(JsonDecodeError)
  }

  /** `json.dumps` and `str(...)` of a value: opaque renderings. */
  type Render = Json -> string

  /** Python truthiness: `None`, `False`, `0` and empty strings, lists and dicts are false. */
  predicate Truthy(v: Json)
  {
    match v
    case JNull => false
    case JBool(b) => b
    case JInt(i) => i != 0
    case JStr(s) => |s| > 0
    case JArr(items) => |items| > 0
    case JObj(fields) => |fields| > 0
  }

  /** `v[key]` with a string key. */
  function Subscript(v: Json, key: string): (r: Result<Json>)
    ensures r.Ok? <==> v.JObj? && HasKey(v.fields, key)
    ensures r.Ok? ==> Some(r.value) == Get(v.fields, key)
    ensures r.Err? ==> r.error == (if v.JObj? then KeyError else TypeError)
  {
    match v
    case JObj(fields) =>
      (match Get(fields, key)
       case Some(x) => Ok(x)
       case None => Err(KeyError))
    case _ => Err(TypeError)
  }

  /** `v[key] = x`: only a dict accepts it; lists, strings and scalars raise `TypeError`. */
  function SetItem(v: Json, key: string, x: Json): (r: Result<Json>)
    ensures r.Ok? <==> v.JObj?
    ensures r.Ok? ==> r.value == JObj(Put(v.fields, key, x))
    ensures r.Err? ==> r.error == TypeError
  {
    match v
    case JObj(fields) => Ok(JObj(Put(fields, key, x)))
    case _ => Err(TypeError)
  }

  /**
   * `v.pop(key, None)`: a dict loses the key; a list's `pop` refuses two
   * arguments (`TypeError`); other values have no `pop` (`AttributeError`).
   */
  function PopKey(v: Json, key: string): (r: Result<Json>)
    ensures r.Ok? <==> v.JObj?
    ensures r.Ok? ==> r.value == JObj(Remove(v.fields, key))
    ensures r.Err? ==> r.error == (if v.JArr? then TypeError else AttributeError)
  {
    match v
    case JObj(fields) => Ok(JObj(Remove(fields, key)))
    case JArr(_) => Err(TypeError)
    case _ => Err(AttributeError)
  }

  /** What `for x in v` visits: list items, dict keys, or string characters. */
  function Iterate(v: Json): (r: Result<seq<Json>>)
    ensures r.Ok? <==> v.JArr? || v.JObj? || v.JStr?
    ensures v.JArr? ==> r == Ok(v.items)
    ensures v.JObj? ==> r.Ok? && |r.value| == |v.fields|
                        && forall i :: 0 <= i < |v.fields| ==> r.value[i] == JStr(v.fields[i].0)
    ensures v.JStr? ==> r.Ok? && |r.value| == |v.s|
                        && forall i :: 0 <= i < |v.s| ==> r.value[i] == JStr([v.s[i]])
    ensures r.Err? ==> r.error == TypeError
  {
    match v
    case JArr(items) => Ok(items)
    case JObj(fields) => Ok(seq(|fields|, i requires 0 <= i < |fields| => JStr(fields[i].0)))
    case JStr(s) => Ok(seq(|s|, i requires 0 <= i < |s| => JStr([s[i]])))
    case _ => Err(TypeError)
  }

  /** `v.items()`: only dicts have it. */
  function Items(v: Json): (r: Result<Dict<Json>>)
    ensures r.Ok? <==> v.JObj?
    ensures r.Ok? ==> r.value == v.fields
    ensures r.Err? ==> r.error == AttributeError
  {
    match v
    case JObj(fields) => Ok(fields)
    case _ => Err(AttributeError)
  }

  /**
   * One element of the sequence `dict.update` and `dict(...)` read pairs
   * from: it must iterate to exactly two items (`ValueError` otherwise),
   * the first of them the key. A list, a two-character string or a
   * two-key dict qualifies; a scalar is not iterable (`TypeError`). Only
   * string keys are modelled: a pair with any other key is a `TypeError`.
   */
  function PairOf(v: Json): (r: Result<(string, Json)>)
    ensures r.Ok? <==> (|| (v.JArr? && |v.items| == 2 && v.items[0].JStr?)
                        || (v.JStr? && |v.s| == 2)
                        || (v.JObj? && |v.fields| == 2))
    ensures v.JArr? && |v.items| == 2 && v.items[0].JStr? ==> r == Ok((v.items[0].s, v.items[1]))
    ensures v.JStr? && |v.s| == 2 ==> r == Ok(([v.s[0]], JStr([v.s[1]])))
    ensures v.JObj? && |v.fields| == 2 ==> r == Ok((v.fields[0].0, JStr(v.fields[1].0)))
    ensures r.Err? ==> r.error == (if || (v.JArr? && |v.items| != 2)
                                     || (v.JStr? && |v.s| != 2)
                                     || (v.JObj? && |v.fields| != 2)
                                  then ValueError else TypeError)
  {
    match v
    case JArr(items) =>
      if |items| != 2 then Err(ValueError)
      else if items[0].JStr? then Ok((items[0].s, items[1]))
      else Err(TypeError)
    case JStr(s) => if |s| != 2 then Err(ValueError) else Ok(([s[0]], JStr([s[1]])))
    case JObj(fields) => if |fields| != 2 then Err(ValueError) else Ok((fields[0].0, JStr(fields[1].0)))
    case _ => Err(TypeError)
  }

  /** The pairs of a sequence of elements, in order, or the error of the first element that is not a pair. */
  function PairsOf(items: seq<Json>): (r: Result<Dict<Json>>)
    ensures r.Ok? <==> forall i :: 0 <= i < |items| ==> PairOf(items[i]).Ok?
    ensures r.Ok? ==> |r.value| == |items|
    ensures r.Ok? ==> forall i :: 0 <= i < |items| ==> r.value[i] == PairOf(items[i]).value
    ensures r.Err? ==> exists j :: 0 <= j < |items| && (forall i :: 0 <= i < j ==> PairOf(items[i]).Ok?)
                                  && PairOf(items[j]) == Err(r.error)
    decreases |items|
  {
    if |items| == 0 then Ok([])
    else
      var head :- PairOf(items[0]);
      var rest := PairsOf(items[1..]);
      assert forall i :: 0 <= i < |items| - 1 ==> items[1..][i] == items[i + 1];
      if rest.Err? then
        assert exists j :: 0 <= j < |items| && (forall i :: 0 <= i < j ==> PairOf(items[i]).Ok?)
                           && PairOf(items[j]) == Err(rest.error) by {
          var j :| 0 <= j < |items| - 1 && (forall i :: 0 <= i < j ==> PairOf(items[1..][i]).Ok?)
                   && PairOf(items[1..][j]) == Err(rest.error);
          assert forall i :: 0 < i < j + 1 ==> PairOf(items[i]).Ok?;
        }
        Err(rest.error)
      else
        Ok([head] + rest.value)
  }

  /**
   * The entries `d.update(v)` and `dict(v, **kw)` take from `v`: a dict's
   * own entries, the pairs of a list, nothing from an empty string; any
   * other string iterates to one-character elements (`ValueError`), and a
   * scalar is not iterable (`TypeError`). Later pairs with a repeated key
   * override earlier ones when the entries are assigned.
   */
  function DictOf(v: Json): (r: Result<Dict<Json>>)
    ensures v.JObj? ==> r == Ok(v.fields)
    ensures v.JArr? ==> r == PairsOf(v.items)
    ensures v.JStr? ==> (r.Ok? <==> |v.s| == 0)
    ensures v.JStr? && r.Ok? ==> r.value == []
    ensures v.JStr? && r.Err? ==> r.error == ValueError
    ensures v.JNull? || v.JBool? || v.JInt? ==> r == Err(TypeError)
  {
    match v
    case JObj(fields) => Ok(fields)
    case JArr(items) => PairsOf(items)
    case JStr(s) =>
      var chars := seq(|s|, i requires 0 <= i < |s| => JStr([s[i]]));
      assert |s| > 0 ==> PairOf(chars[0]).Err?;
      PairsOf(chars)
    case _ => Err(TypeError)
  }

  /** The list of `[key, value]` pairs of a dict. */
  function PairList(d: Dict<Json>): (r: seq<Json>)
    ensures |r| == |d|
    ensures forall i :: 0 <= i < |d| ==> r[i] == JArr([JStr(d[i].0), d[i].1])
  {
    seq(|d|, i requires 0 <= i < |d| => JArr([JStr(d[i].0), d[i].1]))
  }

  /** Converting a dict's pair list back gives the dict's entries, in order. */
  lemma PairListRoundTrip(d: Dict<Json>)
    ensures DictOf(JArr(PairList(d))) == Ok(d)
  {
    var r := PairsOf(PairList(d));
    assert forall i :: 0 <= i < |d| ==> PairOf(PairList(d)[i]) == Ok(d[i]);
    assert r.Ok?;
    assert r.value == d;
  }

  /** `list(v.keys())[0]`: the first key of a dict. */
  function FirstKey(v: Json): (r: Result<string>)
    ensures r.Ok? <==> v.JObj? && |v.fields| > 0
    ensures r.Ok? ==> r.value == v.fields[0].0
    ensures r.Err? ==> r.error == (if v.JObj? then IndexError else AttributeError)
  {
    match v
    case JObj(fields) => if |fields| == 0 then Err(IndexError) else Ok(fields[0].0)
    case _ => Err(AttributeError)
  }

  /** A one-entry dict `{k: v}`. */
  function Single(k: string, v: Json): Json
  {
    JObj([(k, v)])
  }

  /** Every object inside the value has distinct keys, as `json.loads` guarantees. */
  predicate WellFormed(v: Json)
  {
    match v
    case JArr(items) => forall i :: 0 <= i < |items| ==> WellFormed(items[i])
    case JObj(fields) => Wf(fields) && forall i :: 0 <= i < |fields| ==> WellFormed(fields[i].1)
    case _ => true
  }
}
