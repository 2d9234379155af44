/**
 * The record builders of WandbRun: the scalar encoder that turns one JSON
 * value into the `valueJson` text sent to the backend, and makeLogData /
 * makeConfigData, which turn a JSON object into one history or config item
 * per key.
 */
module Records {
  import opened Wrappers
  import opened JavaLang
  import opened Json

  datatype HistoryItem = HistoryItem(key: string, valueJson: string)
  /** A log (history) batch. */
  datatype HistoryRecord = HistoryRecord(item: seq<HistoryItem>)

  datatype ConfigItem = ConfigItem(key: string, valueJson: string)
  /** A config update batch. */
  datatype ConfigRecord = ConfigRecord(update: seq<ConfigItem>)

  /**
   * The scalar encoder: a String is wrapped in double quotes, its text
   * verbatim inside (embedded quotes are not escaped); any other value is
   * its toString(), unquoted.
   */
  function EncodeValue(v: JsonValue): (r: string)
    ensures v.JString? ==> r == "\"" + v.text + "\""
    ensures !v.JString? ==> r == ToString(v)
  {
    var isString := v.JString?;
    if isString then "\"" + ToString(v) + "\"" else ToString(v)
  }

  /** The encoder departs from toString() exactly on strings. */
  lemma EncodeDiffersOnlyOnStrings(v: JsonValue)
    ensures EncodeValue(v) == ToString(v) <==> !v.JString?
  {
  }

  /** Dropping the first and last character of an encoded string gives back its text. */
  lemma EncodedStringUnquotes(s: string)
    ensures var r := EncodeValue(JString(s));
            |r| == |s| + 2 && r[0] == '"' && r[|r| - 1] == '"' && r[1..|r| - 1] == s
  {
  }

  /** An int is encoded as its unquoted decimal text, which reads back as the int. */
  lemma EncodedIntReadsBack(n: int32)
    ensures '"' !in EncodeValue(JInt(n))
    ensures ParseInt(EncodeValue(JInt(n))) == Some(n as int)
  {
    IntToStringRoundTrip(n);
  }

  /** The items makeLogData builds, one per entry, in key-iteration order. */
  function LogItems(es: seq<Entry>): (items: seq<HistoryItem>)
    ensures |items| == |es|
  {
    seq(|es|, i requires 0 <= i < |es| => HistoryItem(es[i].key, EncodeValue(es[i].value)))
  }

  /** The items makeConfigData builds, one per entry, in key-iteration order. */
  function ConfigItems(es: seq<Entry>): (items: seq<ConfigItem>)
    ensures |items| == |es|
  {
    seq(|es|, i requires 0 <= i < |es| => ConfigItem(es[i].key, EncodeValue(es[i].value)))
  }

  /** `makeLogData(json)`: a history batch holding one encoded item per key of `json`. */
  method MakeLogData(json: JsonObject) returns (r: HistoryRecord)
    ensures r == HistoryRecord(LogItems(json.entries))
  {
    var items: seq<HistoryItem> := [];
    var i := 0;
    while i < |json.entries|
      invariant 0 <= i <= |json.entries|
      invariant |items| == i
      invariant forall k :: 0 <= k < i ==> items[k] == LogItems(json.entries)[k]
    {
      var key := json.entries[i].key;
      var obj := json.entries[i].value;
      items := items + [HistoryItem(key, EncodeValue(obj))];
      i := i + 1;
    }
    r := HistoryRecord(items);
  }

  /** `makeConfigData(json)`: a config batch holding one encoded item per key of `json`. */
  method MakeConfigData(json: JsonObject) returns (r: ConfigRecord)
    ensures r == ConfigRecord(ConfigItems(json.entries))
  {
    var items: seq<ConfigItem> := [];
    var i := 0;
    while i < |json.entries|
      invariant 0 <= i <= |json.entries|
      invariant |items| == i
      invariant forall k :: 0 <= k < i ==> items[k] == ConfigItems(json.entries)[k]
    {
      var key := json.entries[i].key;
      var obj := json.entries[i].value;
      items := items + [ConfigItem(key, EncodeValue(obj))];
      i := i + 1;
    }
    r := ConfigRecord(items);
  }

  /**
   * One history item per key of the object: a key has an item exactly when
   * it is in the object, no key has two, and each item carries the encoding
   * of the value stored under its key.
   */
  lemma LogItemsOnePerKey(es: seq<Entry>)
    requires UniqueKeys(es)
    ensures var items := LogItems(es);
            && (forall k :: Lookup(es, k).Some? <==> exists i :: 0 <= i < |items| && items[i].key == k)
            && (forall i, j :: 0 <= i < j < |items| ==> items[i].key != items[j].key)
            && (forall i :: 0 <= i < |items| ==>
                  Lookup(es, items[i].key).Some? && items[i].valueJson == EncodeValue(Lookup(es, items[i].key).value))
  {
    var items := LogItems(es);
    forall k ensures Lookup(es, k).Some? <==> exists i :: 0 <= i < |items| && items[i].key == k {
      if Lookup(es, k).Some? {
        var ks := Keys(es);
        var i :| 0 <= i < |ks| && ks[i] == k;
        assert items[i].key == k;
      }
    }
    forall i | 0 <= i < |items|
      ensures Lookup(es, items[i].key).Some? && items[i].valueJson == EncodeValue(Lookup(es, items[i].key).value)
    {
      LookupAt(es, i);
    }
  }

  /** Both builders produce the same key/value pairs, in the same order, for the same object. */
  lemma LogAndConfigAgree(es: seq<Entry>)
    ensures forall i :: 0 <= i < |es| ==>
              LogItems(es)[i].key == ConfigItems(es)[i].key &&
              LogItems(es)[i].valueJson == ConfigItems(es)[i].valueJson
  {
  }

  /**
   * After `_step` is put into an object, its history batch carries exactly one
   * `_step` item, whose value is the unquoted decimal text of the step; every
   * other key keeps its value.
   */
  lemma StepItemInLogData(es: seq<Entry>, step: int32)
    requires UniqueKeys(es)
    ensures var items := LogItems(PutEntry(es, "_step", JInt(step)));
            && (exists i :: 0 <= i < |items| && items[i] == HistoryItem("_step", IntToString(step)))
            && (forall i, j :: 0 <= i < |items| && 0 <= j < |items| && items[i].key == "_step" && items[j].key == "_step" ==> i == j)
            && (forall i :: 0 <= i < |items| && items[i].key == "_step" ==> ParseInt(items[i].valueJson) == Some(step as int))
    ensures forall k :: k != "_step" ==> Lookup(PutEntry(es, "_step", JInt(step)), k) == Lookup(es, k)
  {
    var es' := PutEntry(es, "_step", JInt(step));
    PutKeepsKeysUnique(es, "_step", JInt(step));
    LogItemsOnePerKey(es');
    PutLookupSame(es, "_step", JInt(step));
    var items := LogItems(es');
    var i :| 0 <= i < |items| && items[i].key == "_step";
    assert items[i] == HistoryItem("_step", IntToString(step));
    IntToStringRoundTrip(step);
    forall k | k != "_step" ensures Lookup(es', k) == Lookup(es, k) {
      PutLookupOther(es, "_step", JInt(step), k);
    }
  }
}
