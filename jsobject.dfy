/** Plain JavaScript objects used as dictionaries: an ordered list of key/value pairs
    (objects keep insertion order), read with `o[k]` and updated with the spread
    `{ ...o, [k]: v }`, which overwrites an existing key in place or appends a new one. */
module JsObject {
  import opened Seqs

  type Obj<V> = seq<(string, V)>

  predicate UniqueKeys<V>(o: Obj<V>)
  {
    forall i, j :: 0 <= i < j < |o| ==> o[i].0 != o[j].0
  }

  predicate HasKey<V>(o: Obj<V>, k: string)
  {
    exists i :: 0 <= i < |o| && o[i].0 == k
  }

  /** `o[k]`: the value stored under `k`, `None` standing for `undefined`. */
  function Get<V>(o: Obj<V>, k: string): (r: Option<V>)
    ensures r.None? <==> !HasKey(o, k)
    ensures r.Some? ==> exists i :: 0 <= i < |o| && o[i] == (k, r.value)
  {
    if o == [] then None
    else if o[0].0 == k then Some(o[0].1)
    else Get(o[1..], k)
  }

  /** `{ ...o, [k]: v }`. */
  function Set<V>(o: Obj<V>, k: string, v: V): (r: Obj<V>)
    ensures HasKey(o, k) ==> |r| == |o|
    ensures !HasKey(o, k) ==> r == o + [(k, v)]
    ensures forall i :: 0 <= i < |o| ==> r[i].0 == o[i].0
  {
    if o == [] then [(k, v)]
    else if o[0].0 == k then [(k, v)] + o[1..]
    else [o[0]] + Set(o[1..], k, v)
  }

  lemma {:induction false} GetSet<V>(o: Obj<V>, k: string, v: V, k': string)
    ensures Get(Set(o, k, v), k') == if k' == k then Some(v) else Get(o, k')
  {
    if o != [] && o[0].0 != k {
      GetSet(o[1..], k, v, k');
    }
  }

  lemma {:induction false} SetUniqueKeys<V>(o: Obj<V>, k: string, v: V)
    requires UniqueKeys(o)
    ensures UniqueKeys(Set(o, k, v))
  {
    if o != [] && o[0].0 != k {
      SetUniqueKeys(o[1..], k, v);
      var r := Set(o, k, v);
      if !HasKey(o[1..], k) {
        assert r == [o[0]] + o[1..] + [(k, v)];
      }
    }
  }

  /** The first pair with a key is the one `o[k]` reads. */
  lemma {:induction false} GetAt<V>(o: Obj<V>, i: nat)
    requires i < |o|
    requires forall j :: 0 <= j < i ==> o[j].0 != o[i].0
    ensures Get(o, o[i].0) == Some(o[i].1)
  {
    if i > 0 {
      GetAt(o[1..], i - 1);
    }
  }

  // ---------------------------------------------------------------------------------------
  // Error objects built by successive `errors.key = message` assignments

  /** The entry a check contributes: one key when it produced a message, none otherwise. */
  function Entry<V>(key: string, e: Option<V>): Obj<V>
  {
    if e.Some? then [(key, e.value)] else []
  }

  /** `if (message) errors.key = message`. */
  function Put<V>(o: Obj<V>, key: string, e: Option<V>): Obj<V>
  {
    if e.Some? then Set(o, key, e.value) else o
  }

  /** Setting a key the object does not have yet appends it. */
  lemma AppendFresh<V>(o: Obj<V>, k: string, v: V)
    requires !HasKey(o, k)
    ensures Set(o, k, v) == o + [(k, v)]
  {
  }

  lemma EntryLacks<V>(key: string, e: Option<V>, k: string)
    requires key != k
    ensures !HasKey(Entry(key, e), k)
  {
  }

  lemma ConcatLacks<V>(a: Obj<V>, b: Obj<V>, k: string)
    requires !HasKey(a, k) && !HasKey(b, k)
    ensures !HasKey(a + b, k)
  {
    forall i | 0 <= i < |a + b|
      ensures (a + b)[i].0 != k
    {
      if i < |a| {
        assert (a + b)[i] == a[i];
      } else {
        assert (a + b)[i] == b[i - |a|];
      }
    }
  }

  lemma UniqueAppend<V>(a: Obj<V>, key: string, e: Option<V>)
    requires UniqueKeys(a) && !HasKey(a, key)
    ensures UniqueKeys(a + Entry(key, e))
  {
  }

  /** Assigning a key the object lacks appends the check's entry, keeping keys unique. */
  lemma PutFresh<V>(o: Obj<V>, key: string, e: Option<V>)
    requires UniqueKeys(o) && !HasKey(o, key)
    ensures Put(o, key, e) == o + Entry(key, e)
    ensures UniqueKeys(o + Entry(key, e))
  {
    if e.Some? {
      AppendFresh(o, key, e.value);
    }
    UniqueAppend(o, key, e);
  }

  /** Four checks on four distinct keys, assigned in turn, leave one entry per failing check,
      in the order of the checks, and no key twice. */
  lemma PutChain<V>(k1: string, k2: string, k3: string, k4: string,
                    e1: Option<V>, e2: Option<V>, e3: Option<V>, e4: Option<V>)
    requires k1 != k2 && k1 != k3 && k1 != k4 && k2 != k3 && k2 != k4 && k3 != k4
    ensures Put(Put(Put(Put([], k1, e1), k2, e2), k3, e3), k4, e4) ==
            Entry(k1, e1) + Entry(k2, e2) + Entry(k3, e3) + Entry(k4, e4)
    ensures UniqueKeys(Entry(k1, e1) + Entry(k2, e2) + Entry(k3, e3) + Entry(k4, e4))
  {
    var a := Entry(k1, e1);
    var b := Entry(k2, e2);
    var c := Entry(k3, e3);
    assert Put([], k1, e1) == a;
    EntryLacks(k1, e1, k2);
    PutFresh(a, k2, e2);
    EntryLacks(k1, e1, k3);
    EntryLacks(k2, e2, k3);
    ConcatLacks(a, b, k3);
    PutFresh(a + b, k3, e3);
    EntryLacks(k1, e1, k4);
    EntryLacks(k2, e2, k4);
    EntryLacks(k3, e3, k4);
    ConcatLacks(a, b, k4);
    ConcatLacks(a + b, c, k4);
    PutFresh(a + b + c, k4, e4);
  }

  /** A JavaScript value as parsed from JSON. Numbers are integers here. */
  datatype Json =
    | JNull
    | JBool(b: bool)
    | JNum(n: int)
    | JStr(s: string)
    | JArr(items: seq<Json>)
    | JObj(fields: seq<(string, Json)>)

  /** Truthiness: `null`, `false`, `0` and `""` are falsy, every array and object truthy. */
  predicate Truthy(j: Json)
  {
    match j
    case JNull => false
    case JBool(b) => b
    case JNum(n) => n != 0
    case JStr(s) => s != []
    case JArr(_) => true
    case JObj(_) => true
  }

  /** `typeof j === 'object'` for a truthy value: arrays and plain objects. */
  predicate IsObject(j: Json)
  {
    j.JArr? || j.JObj?
  }

  /** `j[k]` for a property name: only a plain object has named properties. */
  function Member(j: Json, k: string): (r: Option<Json>)
    ensures !j.JObj? ==> r.None?
    ensures j.JObj? ==> r == Get(j.fields, k)
  {
    if j.JObj? then Get(j.fields, k) else None
  }

  /** `{ ...j }`: an object's own entries; nothing for `null`, booleans and numbers. */
  function Fields(j: Json): Obj<Json>
  {
    if j.JObj? then j.fields else []
  }

  /** The values of an object's entries, in order. */
  function FieldValues(fields: seq<(string, Json)>): (r: seq<Json>)
    ensures |r| == |fields|
    ensures forall i :: 0 <= i < |fields| ==> r[i] == fields[i].1
  {
    seq(|fields|, i requires 0 <= i < |fields| => fields[i].1)
  }

  /** `Object.values(j)`: an object's values in order, an array's items, a string's
      characters; booleans and numbers have none, and `null` throws (`None`). */
  function ObjectValues(j: Json): (r: Option<seq<Json>>)
    ensures r.None? <==> j.JNull?
  {
    match j
    case JNull => None
    case JBool(_) => Some([])
    case JNum(_) => Some([])
    case JStr(s) => Some(seq(|s|, i requires 0 <= i < |s| => JStr([s[i]])))
    case JArr(items) => Some(items)
    case JObj(fields) => Some(FieldValues(fields))
  }
}
