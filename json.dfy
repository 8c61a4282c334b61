/** JSON values as `json.dump` writes them and `json.load` reads them back. An object is
    a Python dict: its members keep insertion order, and assigning an existing key
    replaces the value where it stands. Only objects with distinct keys (`DistinctKeys`)
    stand for what `json.load` returns; `Get` reads the first member with a key. */
module Json {
  import opened Outcomes

  datatype Json =
    | JNull
    | JBool(b: bool)
    | JInt(i: int)
    | JStr(s: string)
    | JArr(items: seq<Json>)
    | JObj(members: seq<(string, Json)>)

  function Keys(members: seq<(string, Json)>): (ks: seq<string>)
    ensures |ks| == |members|
    ensures forall i :: 0 <= i < |members| ==> ks[i] == members[i].0
  {
    if members == [] then [] else [members[0].0] + Keys(members[1..])
  }

  /** No key occurs twice, as in every dict `json.load` returns. */
  predicate DistinctKeys(members: seq<(string, Json)>)
  {
    forall i, j :: 0 <= i < j < |members| ==> Keys(members)[i] != Keys(members)[j]
  }

  /** `d.get(key)`. */
  function Get(members: seq<(string, Json)>, key: string): Option<Json>
  {
    if members == [] then None
    else if members[0].0 == key then Some(members[0].1)
    else Get(members[1..], key)
  }

  /** `d[key] = value`. */
  function Put(members: seq<(string, Json)>, key: string, value: Json): seq<(string, Json)>
  {
    if members == [] then [(key, value)]
    else if members[0].0 == key then [(key, value)] + members[1..]
    else [members[0]] + Put(members[1..], key, value)
  }

  lemma {:induction false} GetSome(members: seq<(string, Json)>, key: string)
    ensures Get(members, key).Some? <==> key in Keys(members)
  {
    if members != [] {
      GetSome(members[1..], key);
      assert Keys(members) == [members[0].0] + Keys(members[1..]);
    }
  }

  /** A key missing from the front part is looked up in the rest. */
  lemma {:induction false} GetAppend(a: seq<(string, Json)>, b: seq<(string, Json)>, key: string)
    requires key !in Keys(a)
    ensures Get(a + b, key) == Get(b, key)
  {
    if a != [] {
      assert (a + b)[0] == a[0] && (a + b)[1..] == a[1..] + b;
      assert Keys(a) == [a[0].0] + Keys(a[1..]);
      GetAppend(a[1..], b, key);
    } else {
      assert a + b == b;
    }
  }

  /** The value of a key is the one at its first occurrence. */
  lemma {:induction false} GetAt(members: seq<(string, Json)>, i: nat, key: string)
    requires i < |members| && members[i].0 == key
    requires forall j :: 0 <= j < i ==> members[j].0 != key
    ensures Get(members, key) == Some(members[i].1)
  {
    if i > 0 {
      assert members[0].0 != key;
      GetAt(members[1..], i - 1, key);
    }
  }

  /** Reading a key back gives what was last put there; other keys are unchanged. */
  lemma {:induction false} GetPut(members: seq<(string, Json)>, key: string, value: Json, other: string)
    ensures Get(Put(members, key, value), key) == Some(value)
    ensures other != key ==> Get(Put(members, key, value), other) == Get(members, other)
  {
    if members != [] && members[0].0 != key {
      GetPut(members[1..], key, value, other);
    }
  }

  /** A new key goes at the end; an existing key keeps its position. */
  lemma {:induction false} KeysPut(members: seq<(string, Json)>, key: string, value: Json)
    ensures key in Keys(members) ==> Keys(Put(members, key, value)) == Keys(members)
    ensures key !in Keys(members) ==> Keys(Put(members, key, value)) == Keys(members) + [key]
  {
    if members != [] {
      KeysPut(members[1..], key, value);
      assert Keys(members) == [members[0].0] + Keys(members[1..]);
      if members[0].0 != key {
        assert Keys(Put(members, key, value)) == [members[0].0] + Keys(Put(members[1..], key, value));
      }
    }
  }

  /** Assignment keeps the keys of a dict distinct. */
  lemma PutDistinct(members: seq<(string, Json)>, key: string, value: Json)
    requires DistinctKeys(members)
    ensures DistinctKeys(Put(members, key, value))
  {
    KeysPut(members, key, value);
    var ks := Keys(Put(members, key, value));
    if key !in Keys(members) {
      forall i, j | 0 <= i < j < |ks| ensures ks[i] != ks[j] {
        if j == |members| {
          assert ks[i] == Keys(members)[i];
        } else {
          assert ks[i] == Keys(members)[i] && ks[j] == Keys(members)[j];
        }
      }
    }
  }
}
