/**
 * JSONItem: a second, simpler flattening of a JSON object into items, one
 * per key. Unlike the record builders it renders every value with plain
 * toString() (a string is not quoted), and its constructor never assigns the
 * `key` field, so every item it produces reports a null key.
 */
module JsonItems {
  import opened Wrappers
  import opened Json
  import opened Records

  /** A JSONItem; `key` is None where the Java field is null. */
  datatype JsonItem = JsonItem(key: Option<string>, value: string, nested: set<string>) {
    function GetKey(): Option<string> {
      key
    }

    function GetValue(): string {
      value
    }
  }

  /**
   * The private constructor `JSONItem(key, value)`: `nested` starts empty,
   * `value` becomes `value.toString()`, and the `key` argument is dropped.
   */
  function NewItem(key: string, value: JsonValue): (item: JsonItem)
    ensures item.GetKey().None?
  {
    JsonItem(None, ToString(value), {})
  }

  /** The items `fromJson` builds, one per entry, in key-iteration order. */
  function Items(es: seq<Entry>): (items: seq<JsonItem>)
    ensures |items| == |es|
  {
    seq(|es|, i requires 0 <= i < |es| => NewItem(es[i].key, es[i].value))
  }

  /**
   * `JSONItem.fromJson(json)`: one item per key of `json`, in key-iteration
   * order, each with a null key, an empty `nested` set and the value's
   * toString(). The object is only read.
   */
  method FromJson(json: JsonObject) returns (items: seq<JsonItem>)
    ensures items == Items(json.entries)
    ensures forall i :: 0 <= i < |items| ==>
              && items[i].GetKey() == None
              && items[i].GetValue() == ToString(json.entries[i].value)
              && items[i].nested == {}
  {
    items := [];
    var i := 0;
    while i < |json.entries|
      invariant 0 <= i <= |json.entries|
      invariant |items| == i
      invariant forall k :: 0 <= k < i ==> items[k] == NewItem(json.entries[k].key, json.entries[k].value)
    {
      items := items + [NewItem(json.entries[i].key, json.entries[i].value)];
      i := i + 1;
    }
  }

  /**
   * Item by item, fromJson and makeLogData agree on everything but two
   * points: fromJson drops the key, and it leaves strings unquoted where the
   * log encoder wraps them in quotes.
   */
  lemma ItemsVersusLogItems(es: seq<Entry>)
    ensures forall i :: 0 <= i < |es| ==>
              && Items(es)[i].GetKey() == None
              && LogItems(es)[i].key == es[i].key
              && (es[i].value.JString? ==> LogItems(es)[i].valueJson == "\"" + Items(es)[i].GetValue() + "\"")
              && (!es[i].value.JString? <==> LogItems(es)[i].valueJson == Items(es)[i].GetValue())
  {
  }
}
