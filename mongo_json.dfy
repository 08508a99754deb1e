/**
 * The two date walkers the backend runs over documents on their way into and
 * out of MongoDB.  `PrepareForMongo` replaces every datetime it reaches by
 * its `isoformat()` text; `ParseFromMongo` turns the strings held under the
 * keys "date" and "created_at" back into datetimes with
 * `fromisoformat(s.replace('Z', '+00:00'))`, keeping the string when that
 * raises.  Both walk a dict's values, recurse into nested dicts, and look
 * at list elements only when they are dicts.
 *
 * `isoformat` and `fromisoformat` are foreign and appear as parameters; a
 * raised `ValueError` is `None`.
 */
module MongoJson {
  import opened Wrappers

  /** A Python `datetime`, kept as its fields; the offset is absent for a
      naive datetime. */
  datatype DateTime = DateTime(
    year: int, month: int, day: int,
    hour: int, minute: int, second: int, microsecond: int,
    utcOffsetMinutes: Option<int>)

  /** The values a document is made of; a dict keeps its insertion order. */
  datatype Json =
    | JNull
    | JBool(b: bool)
    | JInt(i: int)
    | JFloat(x: real)
    | JStr(s: string)
    | JDateTime(d: DateTime)
    | JList(items: seq<Json>)
    | JDict(entries: seq<Entry>)

  datatype Entry = Entry(key: string, value: Json)

  /** A leaf: neither a list nor a dict. */
  predicate IsScalar(j: Json)
  {
    !j.JList? && !j.JDict?
  }

  /** The position of the first entry with key `k`, `None` when absent. */
  function FindIndex(entries: seq<Entry>, k: string): (r: Option<nat>)
    ensures r.Some? ==> r.value < |entries| && entries[r.value].key == k
  {
    FindFrom(entries, k, 0)
  }

  /** The same, looking from position `n` on. */
  function FindFrom(entries: seq<Entry>, k: string, n: nat): (r: Option<nat>)
    decreases |entries| - n
    ensures r.Some? ==> n <= r.value < |entries| && entries[r.value].key == k
  {
    if n >= |entries| then None
    else if entries[n].key == k then Some(n)
    else FindFrom(entries, k, n + 1)
  }

  /** `FindFrom` is a search: the position found is the first one at or
      after `n` holding `k`, and `None` means no such position exists. */
  lemma {:induction false} FindFromIsFirst(entries: seq<Entry>, k: string, n: nat)
    decreases |entries| - n
    ensures var r := FindFrom(entries, k, n);
            && (r.Some? ==> forall j :: n <= j < r.value ==> entries[j].key != k)
            && (r.None? <==> forall j :: n <= j < |entries| ==> entries[j].key != k)
  {
    if n < |entries| && entries[n].key != k {
      FindFromIsFirst(entries, k, n + 1);
    }
  }

  /** `FindIndex` finds the first entry with key `k`, and `None` means the
      key is absent. */
  lemma FindIndexIsFirst(entries: seq<Entry>, k: string)
    ensures var r := FindIndex(entries, k);
            && (r.Some? ==> forall j :: 0 <= j < r.value ==> entries[j].key != k)
            && (r.None? <==> forall j :: 0 <= j < |entries| ==> entries[j].key != k)
  {
    FindFromIsFirst(entries, k, 0);
  }

  /** `d.get(k)` on a dict's entries. */
  function Get(entries: seq<Entry>, k: string): Option<Json>
  {
    match FindIndex(entries, k)
    case Some(i) => Some(entries[i].value)
    case None => None
  }

  /** The position of a key depends on the keys alone. */
  lemma FindIndexSameKeys(a: seq<Entry>, b: seq<Entry>, k: string)
    requires |a| == |b| && forall i :: 0 <= i < |a| ==> a[i].key == b[i].key
    ensures FindIndex(a, k) == FindIndex(b, k)
  {
    FindFromSameKeys(a, b, k, 0);
  }

  lemma {:induction false} FindFromSameKeys(a: seq<Entry>, b: seq<Entry>, k: string, n: nat)
    requires |a| == |b| && forall i :: 0 <= i < |a| ==> a[i].key == b[i].key
    decreases |a| - n
    ensures FindFrom(a, k, n) == FindFrom(b, k, n)
  {
    if n < |a| {
      FindFromSameKeys(a, b, k, n + 1);
    }
  }

  /** One step into a document: a dict key or a list index. */
  datatype Step = Key(key: string) | Index(index: nat)

  /** `data[p0][p1]...`, `None` where a step does not exist. */
  function Lookup(data: Json, path: seq<Step>): Option<Json>
    decreases |path|
  {
    if path == [] then Some(data)
    else match path[0]
      case Key(k) =>
        if data.JDict? then
          match Get(data.entries, k)
          case Some(v) => Lookup(v, path[1..])
          case None => None
        else None
      case Index(n) =>
        if data.JList? && n < |data.items| then Lookup(data.items[n], path[1..]) else None
  }

  /** The paths at which the walkers look at a value: a key of the top
      dict, followed by steps that are either a key of a nested dict or a
      list index immediately followed by a key of the dict at that index. */
  predicate Visited(path: seq<Step>)
    decreases |path|
  {
    && |path| >= 1 && path[0].Key?
    && (|path| == 1 || Visited(path[1..]) || (path[1].Index? && Visited(path[2..])))
  }

  // ---------------------------------------------------------------- prepare

  /** `prepare_for_mongo(data)`: a dict with its values prepared; anything
      else as it is. */
  function PrepareForMongo(iso: DateTime -> string, data: Json): Json
    decreases data, 0
  {
    match data
    case JDict(entries) =>
      JDict(seq(|entries|, i requires 0 <= i < |entries| =>
        Entry(entries[i].key, PrepareValue(iso, entries[i].value))))
    case _ => data
  }

  /** The body of the `for key, value` loop: a datetime becomes its ISO
      text, a dict is prepared, a list has its dict elements prepared. */
  function PrepareValue(iso: DateTime -> string, value: Json): Json
    decreases value, 1
  {
    match value
    case JDateTime(d) => JStr(iso(d))
    case JDict(_) => PrepareForMongo(iso, value)
    case JList(items) =>
      JList(seq(|items|, i requires 0 <= i < |items| =>
        if items[i].JDict? then PrepareForMongo(iso, items[i]) else items[i]))
    case _ => value
  }

  /** What a leaf found at `path` becomes: its ISO text if it is a datetime
      at a visited path, the leaf itself otherwise. */
  function PreparedLeaf(iso: DateTime -> string, path: seq<Step>, leaf: Json): Json
  {
    if Visited(path) && leaf.JDateTime? then JStr(iso(leaf.d)) else leaf
  }

  /** Preparing keeps the shape (a path exists afterwards exactly when it
      existed before), and every leaf ends up as `PreparedLeaf` says: a
      datetime at a visited path is replaced by its ISO text, any other
      leaf, and a datetime the walk does not reach, is unchanged. */
  lemma {:induction false} PrepareAt(iso: DateTime -> string, data: Json, path: seq<Step>)
    decreases |path|, 0
    ensures Lookup(PrepareForMongo(iso, data), path).Some? <==> Lookup(data, path).Some?
    ensures Lookup(data, path).Some? && IsScalar(Lookup(data, path).value) ==>
            Lookup(PrepareForMongo(iso, data), path) == Some(PreparedLeaf(iso, path, Lookup(data, path).value))
  {
    if path != [] && data.JDict? && path[0].Key? {
      var entries := data.entries;
      var prepared := PrepareForMongo(iso, data).entries;
      FindIndexSameKeys(entries, prepared, path[0].key);
      match FindIndex(entries, path[0].key)
      case Some(i) =>
        assert path == [Key(path[0].key)] + path[1..];
        PrepareValueAt(iso, path[0].key, entries[i].value, path[1..]);
      case None =>
    }
  }

  /** The same for the value stored under `key` in a visited dict. */
  lemma {:induction false} PrepareValueAt(iso: DateTime -> string, key: string, value: Json, rest: seq<Step>)
    decreases |rest|, 2
    ensures Lookup(PrepareValue(iso, value), rest).Some? <==> Lookup(value, rest).Some?
    ensures Lookup(value, rest).Some? && IsScalar(Lookup(value, rest).value) ==>
            Lookup(PrepareValue(iso, value), rest) == Some(PreparedLeaf(iso, [Key(key)] + rest, Lookup(value, rest).value))
  {
    if rest != [] {
      match value
      case JDict(_) =>
        PrepareAt(iso, value, rest);
        if Lookup(value, rest).Some? {
          VisitedAfterKey(key, rest, value);
        }
      case JList(items) =>
        PrepareListAt(iso, key, items, rest);
      case _ =>
    }
  }

  /** The same for a list stored under `key`: only its dict elements are
      walked. */
  lemma {:induction false} PrepareListAt(iso: DateTime -> string, key: string, items: seq<Json>, rest: seq<Step>)
    requires rest != []
    decreases |rest|, 1
    ensures Lookup(PrepareValue(iso, JList(items)), rest).Some? <==> Lookup(JList(items), rest).Some?
    ensures Lookup(JList(items), rest).Some? && IsScalar(Lookup(JList(items), rest).value) ==>
            Lookup(PrepareValue(iso, JList(items)), rest)
            == Some(PreparedLeaf(iso, [Key(key)] + rest, Lookup(JList(items), rest).value))
  {
    if rest[0].Index? && rest[0].index < |items| {
      var item := items[rest[0].index];
      VisitedAfterIndex(key, rest);
      if item.JDict? {
        PrepareAt(iso, item, rest[1..]);
      } else if Lookup(item, rest[1..]).Some? {
        NotVisitedBelowLeaf(item, rest[1..]);
      }
    }
  }

  /** Below a dict value, the path from the top is visited exactly when the
      path from that dict is. */
  lemma VisitedAfterKey(key: string, rest: seq<Step>, value: Json)
    requires value.JDict? && Lookup(value, rest).Some? && rest != []
    ensures Visited([Key(key)] + rest) <==> Visited(rest)
    ensures EndsAtDateKey([Key(key)] + rest) <==> EndsAtDateKey(rest)
  {
    var path := [Key(key)] + rest;
    assert path[1..] == rest;
  }

  /** Behind a list index, the path from the top is visited exactly when the
      path from the element is. */
  lemma VisitedAfterIndex(key: string, rest: seq<Step>)
    requires rest != [] && rest[0].Index?
    ensures Visited([Key(key)] + rest) <==> Visited(rest[1..])
    ensures EndsAtDateKey([Key(key)] + rest) <==> EndsAtDateKey(rest[1..])
  {
    var path := [Key(key)] + rest;
    assert path[1..] == rest;
    assert path[2..] == rest[1..];
  }

  /** Nothing found inside a value that is not a dict is visited. */
  lemma NotVisitedBelowLeaf(item: Json, path: seq<Step>)
    requires !item.JDict? && Lookup(item, path).Some?
    ensures !Visited(path)
  {
  }

  /** The nodes the walk skips: a datetime placed directly in a list, a
      dict inside a list inside a list, and anything that is not a dict at
      the top, while a datetime in a dict in a list is converted. */
  lemma PrepareSkipsNestedLists(iso: DateTime -> string, d: DateTime)
    ensures var inner := JDict([Entry("date", JDateTime(d))]);
            PrepareForMongo(iso, JDict([Entry("xs", JList([JDateTime(d), JList([inner]), inner]))]))
            == JDict([Entry("xs", JList([JDateTime(d), JList([inner]), JDict([Entry("date", JStr(iso(d)))])]))])
    ensures PrepareForMongo(iso, JList([JDateTime(d)])) == JList([JDateTime(d)])
    ensures PrepareForMongo(iso, JDateTime(d)) == JDateTime(d)
  {
    var inner := JDict([Entry("date", JDateTime(d))]);
    var items := [JDateTime(d), JList([inner]), inner];
    assert PrepareForMongo(iso, inner) == JDict([Entry("date", JStr(iso(d)))]);
    assert PrepareValue(iso, JList(items)) == JList([JDateTime(d), JList([inner]), JDict([Entry("date", JStr(iso(d)))])]);
  }

  // ------------------------------------------------------------------ parse

  /** The keys whose string values are read back as datetimes. */
  const DateKeys: set<string> := {"date", "created_at"}

  /** `s.replace('Z', '+00:00')`. */
  function ReplaceZ(s: string): (r: string)
    ensures 'Z' !in r
    ensures 'Z' !in s ==> r == s
  {
    if s == [] then []
    else (if s[0] == 'Z' then "+00:00" else [s[0]]) + ReplaceZ(s[1..])
  }

  /** Replacing a second time changes nothing. */
  lemma ReplaceZIdempotent(s: string)
    ensures ReplaceZ(ReplaceZ(s)) == ReplaceZ(s)
  {
  }

  /** `parse_from_mongo(item)`: a dict with its values parsed; anything
      else as it is. */
  function ParseFromMongo(fromIso: string -> Option<DateTime>, item: Json): Json
    decreases item, 0
  {
    match item
    case JDict(entries) =>
      JDict(seq(|entries|, i requires 0 <= i < |entries| =>
        Entry(entries[i].key, ParseValue(fromIso, entries[i].key, entries[i].value))))
    case _ => item
  }

  /** The body of the `for key, value` loop: a string under "date" or
      "created_at" is parsed (and kept when parsing fails); otherwise a
      dict is parsed and a list has its dict elements parsed. */
  function ParseValue(fromIso: string -> Option<DateTime>, key: string, value: Json): Json
    decreases value, 1
  {
    if key in DateKeys && value.JStr? then
      match fromIso(ReplaceZ(value.s))
      case Some(d) => JDateTime(d)
      case None => value
    else match value
      case JDict(_) => ParseFromMongo(fromIso, value)
      case JList(items) =>
        JList(seq(|items|, i requires 0 <= i < |items| =>
          if items[i].JDict? then ParseFromMongo(fromIso, items[i]) else items[i]))
      case _ => value
  }

  /** The path ends with the key "date" or "created_at". */
  predicate EndsAtDateKey(path: seq<Step>)
  {
    |path| >= 1 && path[|path| - 1].Key? && path[|path| - 1].key in DateKeys
  }

  /** What a leaf found at `path` becomes: a string at a visited path ending
      in a date key is parsed when it parses, every other leaf is kept. */
  function ParsedLeaf(fromIso: string -> Option<DateTime>, path: seq<Step>, leaf: Json): Json
  {
    if Visited(path) && EndsAtDateKey(path) && leaf.JStr? then
      match fromIso(ReplaceZ(leaf.s))
      case Some(d) => JDateTime(d)
      case None => leaf
    else leaf
  }

  /** Parsing keeps the shape, and every leaf ends up as `ParsedLeaf` says:
      only strings under "date" or "created_at" at visited paths change. */
  lemma {:induction false} ParseAt(fromIso: string -> Option<DateTime>, item: Json, path: seq<Step>)
    decreases |path|, 0
    ensures Lookup(ParseFromMongo(fromIso, item), path).Some? <==> Lookup(item, path).Some?
    ensures Lookup(item, path).Some? && IsScalar(Lookup(item, path).value) ==>
            Lookup(ParseFromMongo(fromIso, item), path) == Some(ParsedLeaf(fromIso, path, Lookup(item, path).value))
  {
    if path != [] && item.JDict? && path[0].Key? {
      var entries := item.entries;
      var parsed := ParseFromMongo(fromIso, item).entries;
      FindIndexSameKeys(entries, parsed, path[0].key);
      match FindIndex(entries, path[0].key)
      case Some(i) =>
        assert path == [Key(path[0].key)] + path[1..];
        ParseValueAt(fromIso, path[0].key, entries[i].value, path[1..]);
      case None =>
    }
  }

  /** The same for the value stored under `key` in a visited dict. */
  lemma {:induction false} ParseValueAt(fromIso: string -> Option<DateTime>, key: string, value: Json, rest: seq<Step>)
    decreases |rest|, 2
    ensures Lookup(ParseValue(fromIso, key, value), rest).Some? <==> Lookup(value, rest).Some?
    ensures Lookup(value, rest).Some? && IsScalar(Lookup(value, rest).value) ==>
            Lookup(ParseValue(fromIso, key, value), rest) == Some(ParsedLeaf(fromIso, [Key(key)] + rest, Lookup(value, rest).value))
  {
    if rest != [] && !(key in DateKeys && value.JStr?) {
      match value
      case JDict(_) =>
        ParseAt(fromIso, value, rest);
        if Lookup(value, rest).Some? {
          VisitedAfterKey(key, rest, value);
        }
      case JList(items) =>
        ParseListAt(fromIso, key, items, rest);
      case _ =>
    }
  }

  /** The same for a list stored under `key`: only its dict elements are
      walked. */
  lemma {:induction false} ParseListAt(fromIso: string -> Option<DateTime>, key: string, items: seq<Json>, rest: seq<Step>)
    requires rest != []
    decreases |rest|, 1
    ensures Lookup(ParseValue(fromIso, key, JList(items)), rest).Some? <==> Lookup(JList(items), rest).Some?
    ensures Lookup(JList(items), rest).Some? && IsScalar(Lookup(JList(items), rest).value) ==>
            Lookup(ParseValue(fromIso, key, JList(items)), rest)
            == Some(ParsedLeaf(fromIso, [Key(key)] + rest, Lookup(JList(items), rest).value))
  {
    if rest[0].Index? && rest[0].index < |items| {
      var item := items[rest[0].index];
      VisitedAfterIndex(key, rest);
      if item.JDict? {
        ParseAt(fromIso, item, rest[1..]);
      } else if Lookup(item, rest[1..]).Some? {
        NotVisitedBelowLeaf(item, rest[1..]);
      }
    }
  }

  // ------------------------------------------------------------- round trip

  /** The hypothesis on the foreign pair: `fromisoformat` reads back what
      `isoformat` wrote, also after the 'Z' replacement. */
  ghost predicate InverseCodec(iso: DateTime -> string, fromIso: string -> Option<DateTime>)
  {
    forall d :: fromIso(ReplaceZ(iso(d))) == Some(d)
  }

  /** A datetime that goes to the store and comes back is restored when it
      sits under "date" or "created_at" at a visited path, stays a string
      under any other key, and is untouched where the walks do not reach. */
  lemma DateAfterRoundTrip(iso: DateTime -> string, fromIso: string -> Option<DateTime>,
                           data: Json, path: seq<Step>, d: DateTime)
    requires InverseCodec(iso, fromIso)
    requires Lookup(data, path) == Some(JDateTime(d))
    ensures Visited(path) && EndsAtDateKey(path) ==>
            Lookup(ParseFromMongo(fromIso, PrepareForMongo(iso, data)), path) == Some(JDateTime(d))
    ensures Visited(path) && !EndsAtDateKey(path) ==>
            Lookup(ParseFromMongo(fromIso, PrepareForMongo(iso, data)), path) == Some(JStr(iso(d)))
    ensures !Visited(path) ==>
            Lookup(ParseFromMongo(fromIso, PrepareForMongo(iso, data)), path) == Some(JDateTime(d))
  {
    PrepareAt(iso, data, path);
    ParseAt(fromIso, PrepareForMongo(iso, data), path);
  }

  /** Documents for which the round trip is the identity: no string under a
      date key and no datetime under another key, at any visited place. */
  predicate Lossless(data: Json)
    decreases data, 0
  {
    data.JDict? ==>
      forall i :: 0 <= i < |data.entries| ==> LosslessEntry(data.entries[i].key, data.entries[i].value)
  }

  predicate LosslessEntry(key: string, value: Json)
    decreases value, 1
  {
    match value
    case JStr(_) => key !in DateKeys
    case JDateTime(_) => key in DateKeys
    case JDict(_) => Lossless(value)
    case JList(items) => forall i :: 0 <= i < |items| && items[i].JDict? ==> Lossless(items[i])
    case _ => true
  }

  /** Storing and loading a lossless document gives it back unchanged. */
  lemma {:induction false} RoundTrip(iso: DateTime -> string, fromIso: string -> Option<DateTime>, data: Json)
    requires InverseCodec(iso, fromIso) && Lossless(data)
    decreases data, 0
    ensures ParseFromMongo(fromIso, PrepareForMongo(iso, data)) == data
  {
    if data.JDict? {
      var entries := data.entries;
      var back := ParseFromMongo(fromIso, PrepareForMongo(iso, data)).entries;
      forall i | 0 <= i < |entries| ensures back[i] == entries[i] {
        RoundTripValue(iso, fromIso, entries[i].key, entries[i].value);
      }
      assert back == entries;
    }
  }

  lemma {:induction false} RoundTripValue(iso: DateTime -> string, fromIso: string -> Option<DateTime>, key: string, value: Json)
    requires InverseCodec(iso, fromIso) && LosslessEntry(key, value)
    decreases value, 1
    ensures ParseValue(fromIso, key, PrepareValue(iso, value)) == value
  {
    match value
    case JDict(_) =>
      RoundTrip(iso, fromIso, value);
    case JList(items) =>
      var back := ParseValue(fromIso, key, PrepareValue(iso, value)).items;
      forall i | 0 <= i < |items| ensures back[i] == items[i] {
        if items[i].JDict? {
          RoundTrip(iso, fromIso, items[i]);
        }
      }
      assert back == items;
    case _ =>
  }
}
