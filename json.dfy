/**
 * The JSON objects the client receives from its callers (org.json's
 * JSONObject), reduced to what the client uses: a list of key/value entries
 * in key-iteration order, `put`, and the `toString()` of a stored value.
 */
module Json {
  import opened Wrappers
  import opened JavaLang

  /** A value stored in a JSON object. */
  datatype JsonValue =
    | JString(text: string)   // java.lang.String
    | JInt(n: int32)          // java.lang.Integer (what `put(key, int)` stores)
    | JBool(b: bool)          // java.lang.Boolean
    | JOther(repr: string)    // any other object (a double, a nested object, ...), given by its toString()

  /** `toString()` of a stored value: a string is its own text, with no quotes. */
  function ToString(v: JsonValue): string {
    match v
    case JString(s) => s
    case JInt(n) => IntToString(n)
    case JBool(b) => if b then "true" else "false"
    case JOther(t) => t
  }

  datatype Entry = Entry(key: string, value: JsonValue)

  /** The keys of `es`, in iteration order. */
  function Keys(es: seq<Entry>): (ks: seq<string>)
    ensures |ks| == |es|
    ensures forall i :: 0 <= i < |es| ==> ks[i] == es[i].key
  {
    if es == [] then [] else [es[0].key] + Keys(es[1..])
  }

  /** A JSON object never holds the same key twice. */
  predicate UniqueKeys(es: seq<Entry>) {
    forall i, j :: 0 <= i < j < |es| ==> es[i].key != es[j].key
  }

  /** `json.get(key)`, or None when the key is absent. */
  function Lookup(es: seq<Entry>, key: string): (r: Option<JsonValue>)
    ensures r.None? <==> key !in Keys(es)
  {
    if es == [] then None
    else if es[0].key == key then Some(es[0].value)
    else Lookup(es[1..], key)
  }

  /**
   * `json.put(key, value)`: an existing key keeps its place and takes the new
   * value; a new key is added after the others.
   */
  function PutEntry(es: seq<Entry>, key: string, value: JsonValue): (r: seq<Entry>)
    ensures Keys(r) == if key in Keys(es) then Keys(es) else Keys(es) + [key]
  {
    if es == [] then [Entry(key, value)]
    else if es[0].key == key then [Entry(key, value)] + es[1..]
    else [es[0]] + PutEntry(es[1..], key, value)
  }

  lemma {:induction false} LookupAt(es: seq<Entry>, i: nat)
    requires UniqueKeys(es) && i < |es|
    ensures Lookup(es, es[i].key) == Some(es[i].value)
  {
    if i > 0 {
      assert es[0].key != es[i].key;
      LookupAt(es[1..], i - 1);
    }
  }

  /** After `put(key, value)`, the key maps to the new value. */
  lemma {:induction false} PutLookupSame(es: seq<Entry>, key: string, value: JsonValue)
    ensures Lookup(PutEntry(es, key, value), key) == Some(value)
  {
    if es != [] && es[0].key != key {
      PutLookupSame(es[1..], key, value);
    }
  }

  /** `put(key, value)` leaves the value of every other key as it was. */
  lemma {:induction false} PutLookupOther(es: seq<Entry>, key: string, value: JsonValue, other: string)
    requires other != key
    ensures Lookup(PutEntry(es, key, value), other) == Lookup(es, other)
  {
    if es != [] && es[0].key != key {
      PutLookupOther(es[1..], key, value, other);
    }
  }

  /** `put` keeps the keys of an object distinct. */
  lemma PutKeepsKeysUnique(es: seq<Entry>, key: string, value: JsonValue)
    requires UniqueKeys(es)
    ensures UniqueKeys(PutEntry(es, key, value))
  {
  }

  /** org.json's JSONObject: a mutable key/value object. */
  class JsonObject {
    var entries: seq<Entry>

    ghost predicate Valid()
      reads this
    {
      UniqueKeys(entries)
    }

    constructor ()
      ensures Valid() && entries == []
    {
      entries := [];
    }

    method Put(key: string, value: JsonValue)
      requires Valid()
      modifies this
      ensures Valid()
      ensures entries == PutEntry(old(entries), key, value)
    {
      PutKeepsKeysUnique(entries, key, value);
      entries := PutEntry(entries, key, value);
    }
  }
}
