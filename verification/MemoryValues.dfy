/** The normalization of nested values in `services/agent_orchestrator/memory_layer.py`. */
module MemoryValues {

  // Dictionary keys: strings, or anything else with the string `str` renders it to.
  datatype Key = Text(text: string) | Other(rendered: string)

  // Python values as far as normalization tells them apart. A dictionary lists its entries in
  // insertion order; a record is a dataclass instance with its fields.
  datatype Value =
    | Scalar(id: string)
    | Tuple(items: seq<Value>)
    | List(items: seq<Value>)
    | Mapping(entries: seq<Entry>)
    | Record(fields: seq<Entry>)

  datatype Entry = Entry(key: Key, value: Value)

  function Render(k: Key): string {
    match k
    case Text(text) => text
    case Other(rendered) => rendered
  }

  // Assignment in a dictionary: an existing key keeps its place, a new one goes last.
  function Put(entries: seq<Entry>, e: Entry): seq<Entry> {
    if entries == [] then [e]
    else if entries[0].key == e.key then [e] + entries[1..]
    else [entries[0]] + Put(entries[1..], e)
  }

  function Normalize(v: Value): Value {
    match v
    case Scalar(_) => v
    case Tuple(items) => List(NormalizeAll(items))
    case List(items) => List(NormalizeAll(items))
    case Mapping(entries) => Mapping(NormalizeEntries(entries))
    case Record(fields) => Mapping(NormalizeEntries(fields))
  }

  function NormalizeAll(items: seq<Value>): seq<Value> {
    if items == [] then [] else NormalizeAll(items[..|items| - 1]) + [Normalize(items[|items| - 1])]
  }

  function NormalizeEntries(entries: seq<Entry>): seq<Entry> {
    if entries == [] then []
    else Put(NormalizeEntries(entries[..|entries| - 1]), NormalizeEntry(entries[|entries| - 1]))
  }

  function NormalizeEntry(e: Entry): Entry {
    Entry(Text(Render(e.key)), Normalize(e.value))
  }

  function EnsureMapping(v: Value): Value {
    var normalized := Normalize(v);
    if normalized.Mapping? then normalized else Mapping([Entry(Text("value"), normalized)])
  }

  // Normal forms

  // Only scalars, lists and dictionaries, and those with distinct string keys.
  predicate Plain(v: Value) {
    match v
    case Scalar(_) => true
    case Tuple(_) => false
    case List(items) => PlainAll(items)
    case Mapping(entries) => DistinctTexts(entries) && PlainEntries(entries)
    case Record(_) => false
  }

  predicate PlainAll(items: seq<Value>) {
    items == [] || (PlainAll(items[..|items| - 1]) && Plain(items[|items| - 1]))
  }

  predicate PlainEntries(entries: seq<Entry>) {
    entries == [] || (PlainEntries(entries[..|entries| - 1]) && PlainEntry(entries[|entries| - 1]))
  }

  predicate PlainEntry(e: Entry) {
    Plain(e.value)
  }

  predicate DistinctTexts(entries: seq<Entry>) {
    && (forall i :: 0 <= i < |entries| ==> entries[i].key.Text?)
    && (forall i, j :: 0 <= i < j < |entries| ==> entries[i].key != entries[j].key)
  }

  lemma {:induction false} PlainEntriesContent(entries: seq<Entry>)
    ensures PlainEntries(entries) <==> forall i :: 0 <= i < |entries| ==> PlainEntry(entries[i])
  {
    if entries != [] {
      PlainEntriesContent(entries[..|entries| - 1]);
    }
  }

  lemma {:induction false} PutContent(entries: seq<Entry>, e: Entry, i: nat)
    requires i < |Put(entries, e)|
    ensures Put(entries, e)[i] == e || (i < |entries| && Put(entries, e)[i] == entries[i])
  {
    if entries != [] && entries[0].key != e.key && i > 0 {
      PutContent(entries[1..], e, i - 1);
    }
  }

  lemma {:induction false} PutKeepsDistinct(entries: seq<Entry>, e: Entry)
    requires DistinctTexts(entries) && e.key.Text?
    ensures DistinctTexts(Put(entries, e))
  {
    if entries != [] && entries[0].key != e.key {
      var rest := Put(entries[1..], e);
      PutKeepsDistinct(entries[1..], e);
      forall i | 0 <= i < |rest| ensures rest[i].key != entries[0].key {
        PutContent(entries[1..], e, i);
      }
    }
  }

  lemma PutKeepsPlain(entries: seq<Entry>, e: Entry)
    requires DistinctTexts(entries) && PlainEntries(entries) && e.key.Text? && PlainEntry(e)
    ensures DistinctTexts(Put(entries, e)) && PlainEntries(Put(entries, e))
  {
    hide PlainEntry, Put, DistinctTexts;
    PutKeepsDistinct(entries, e);
    var longer := Put(entries, e);
    PlainEntriesContent(entries);
    PlainEntriesContent(longer);
    forall i | 0 <= i < |longer| ensures PlainEntry(longer[i]) {
      PutContent(entries, e, i);
    }
  }

  // Normalization reaches a normal form.
  lemma {:induction false} NormalizeIsPlain(v: Value)
    ensures Plain(Normalize(v))
  {
    match v
    case Scalar(_) =>
    case Tuple(items) => NormalizeAllIsPlain(items);
    case List(items) => NormalizeAllIsPlain(items);
    case Mapping(entries) => NormalizeEntriesIsPlain(entries);
    case Record(fields) => NormalizeEntriesIsPlain(fields);
  }

  lemma {:induction false} NormalizeAllIsPlain(items: seq<Value>)
    ensures PlainAll(NormalizeAll(items))
  {
    if items != [] {
      NormalizeAllIsPlain(items[..|items| - 1]);
      NormalizeIsPlain(items[|items| - 1]);
      var all := NormalizeAll(items);
      assert all[..|all| - 1] == NormalizeAll(items[..|items| - 1]);
    }
  }

  lemma {:induction false} NormalizeEntriesIsPlain(entries: seq<Entry>)
    ensures DistinctTexts(NormalizeEntries(entries)) && PlainEntries(NormalizeEntries(entries))
  {
    if entries != [] {
      NormalizeEntriesIsPlain(entries[..|entries| - 1]);
      NormalizeEntryIsPlain(entries[|entries| - 1]);
      PutKeepsPlain(NormalizeEntries(entries[..|entries| - 1]), NormalizeEntry(entries[|entries| - 1]));
    }
  }

  lemma {:induction false} NormalizeEntryIsPlain(e: Entry)
    ensures PlainEntry(NormalizeEntry(e))
  {
    NormalizeIsPlain(e.value);
  }

  lemma {:induction false} PutNew(entries: seq<Entry>, e: Entry)
    requires forall i :: 0 <= i < |entries| ==> entries[i].key != e.key
    ensures Put(entries, e) == entries + [e]
  {
    if entries != [] {
      PutNew(entries[1..], e);
      assert entries == [entries[0]] + entries[1..];
    }
  }

  // A normal form is left alone.
  lemma {:induction false} PlainIsFixed(v: Value)
    requires Plain(v)
    ensures Normalize(v) == v
  {
    match v
    case Scalar(_) =>
    case List(items) => PlainAllIsFixed(items);
    case Mapping(entries) => PlainEntriesIsFixed(entries);
  }

  lemma {:induction false} PlainAllIsFixed(items: seq<Value>)
    requires PlainAll(items)
    ensures NormalizeAll(items) == items
  {
    if items != [] {
      PlainAllIsFixed(items[..|items| - 1]);
      PlainIsFixed(items[|items| - 1]);
    }
  }

  lemma {:induction false} PlainEntriesIsFixed(entries: seq<Entry>)
    requires DistinctTexts(entries) && PlainEntries(entries)
    ensures NormalizeEntries(entries) == entries
  {
    if entries != [] {
      var (rest, last) := (entries[..|entries| - 1], entries[|entries| - 1]);
      PlainEntriesIsFixed(rest);
      PlainEntryIsFixed(last);
      PutNew(rest, last);
    }
  }

  lemma {:induction false} PlainEntryIsFixed(e: Entry)
    requires PlainEntry(e) && e.key.Text?
    ensures NormalizeEntry(e) == e
  {
    PlainIsFixed(e.value);
  }

  // Normalizing twice is normalizing once, on arbitrarily nested values.
  lemma NormalizeIsIdempotent(v: Value)
    ensures Normalize(Normalize(v)) == Normalize(v)
    ensures EnsureMapping(EnsureMapping(v)) == EnsureMapping(v)
  {
    NormalizeIsPlain(v);
    PlainIsFixed(Normalize(v));
    MappingIsPlain(v);
    PlainIsFixed(EnsureMapping(v));
  }

  lemma MappingIsPlain(v: Value)
    ensures Plain(EnsureMapping(v)) && EnsureMapping(v).Mapping?
  {
    NormalizeIsPlain(v);
    var normalized := Normalize(v);
    if !normalized.Mapping? {
      PlainEntriesContent([Entry(Text("value"), normalized)]);
    }
  }

  // Dataclasses

  // `dataclasses.asdict`: records become dictionaries, all the way down.
  function AsDict(v: Value): Value {
    match v
    case Scalar(_) => v
    case Tuple(items) => Tuple(AsDictAll(items))
    case List(items) => List(AsDictAll(items))
    case Mapping(entries) => Mapping(AsDictEntries(entries))
    case Record(fields) => Mapping(AsDictEntries(fields))
  }

  function AsDictAll(items: seq<Value>): seq<Value> {
    if items == [] then [] else AsDictAll(items[..|items| - 1]) + [AsDict(items[|items| - 1])]
  }

  function AsDictEntries(entries: seq<Entry>): seq<Entry> {
    if entries == [] then []
    else AsDictEntries(entries[..|entries| - 1]) + [AsDictEntry(entries[|entries| - 1])]
  }

  function AsDictEntry(e: Entry): Entry {
    Entry(e.key, AsDict(e.value))
  }

  // Converting records up front, as the service does, gives the same normal form.
  lemma {:induction false} AsDictFirst(v: Value)
    ensures Normalize(AsDict(v)) == Normalize(v)
  {
    match v
    case Scalar(_) =>
    case Tuple(items) => AsDictFirstAll(items);
    case List(items) => AsDictFirstAll(items);
    case Mapping(entries) => AsDictFirstEntries(entries);
    case Record(fields) => AsDictFirstEntries(fields);
  }

  lemma {:induction false} AsDictFirstAll(items: seq<Value>)
    ensures NormalizeAll(AsDictAll(items)) == NormalizeAll(items)
  {
    if items != [] {
      AsDictFirstAll(items[..|items| - 1]);
      AsDictFirst(items[|items| - 1]);
      var all := AsDictAll(items);
      assert all[..|all| - 1] == AsDictAll(items[..|items| - 1]);
    }
  }

  lemma {:induction false} AsDictFirstEntries(entries: seq<Entry>)
    ensures NormalizeEntries(AsDictEntries(entries)) == NormalizeEntries(entries)
  {
    if entries != [] {
      AsDictFirstEntries(entries[..|entries| - 1]);
      AsDictFirstEntry(entries[|entries| - 1]);
      var all := AsDictEntries(entries);
      assert all[..|all| - 1] == AsDictEntries(entries[..|entries| - 1]);
    }
  }

  lemma {:induction false} AsDictFirstEntry(e: Entry)
    ensures NormalizeEntry(AsDictEntry(e)) == NormalizeEntry(e)
  {
    AsDictFirst(e.value);
  }
}
