/** The JSON values held by the feed-list and settings files, and the
    validation that load_feeds and load_config apply when they read them.
    Opening, reading and decoding a file is not modelled: a file that is
    missing, unreadable or not valid JSON is `None`. */
module Stores {
  import opened Options
  import opened Seqs

  datatype Json =
    | JNull
    | JBool(b: bool)
    | JInt(i: int)
    | JFloat(text: string)
    | JString(s: string)
    | JArray(items: seq<Json>)
    | JObject(members: map<string, Json>)

  /** A registry record (`{"url": ..., "name": ...}`) is whatever JSON object the file held. */
  type Record = map<string, Json>

  /** `record.get(key, default)` */
  function Get(r: Record, key: string, default: Json): Json {
    if key in r then r[key] else default
  }

  // ---------------------------------------------------------------- feeds.json

  /** The comprehension in load_feeds: the objects among `items` that have a "url" key. */
  function FeedRecords(items: seq<Json>): (r: seq<Record>)
    ensures |r| <= |items|
    ensures forall k :: 0 <= k < |r| ==> "url" in r[k] && JObject(r[k]) in items
    ensures forall k :: 0 <= k < |items| && items[k].JObject? && "url" in items[k].members ==>
              items[k].members in r
  {
    if items == [] then []
    else
      var rest := FeedRecords(items[1..]);
      assert forall k :: 1 <= k < |items| ==> items[k] == items[1..][k - 1];
      (if items[0].JObject? && "url" in items[0].members then [items[0].members] else []) + rest
  }

  /** Each record as the JSON object save_feeds writes for it. */
  function Objects(rs: seq<Record>): seq<Json> {
    seq(|rs|, k requires 0 <= k < |rs| => JObject(rs[k]))
  }

  /** load_feeds keeps the records in the order the file lists them. */
  lemma {:induction false} FeedRecordsKeepOrder(items: seq<Json>)
    ensures Subsequence(Objects(FeedRecords(items)), items)
  {
    if items != [] {
      FeedRecordsKeepOrder(items[1..]);
      var rest := FeedRecords(items[1..]);
      var r := FeedRecords(items);
      if items[0].JObject? && "url" in items[0].members {
        assert r == [items[0].members] + rest;
        assert Objects(r)[0] == items[0];
        assert Objects(r)[1..] == Objects(rest);
      } else {
        assert r == rest;
      }
    }
  }

  /** load_feeds: a file that does not hold a JSON list gives the empty registry. */
  function LoadFeeds(stored: Option<Json>): (r: seq<Record>)
    ensures forall k :: 0 <= k < |r| ==> "url" in r[k]
    ensures !(stored.Some? && stored.value.JArray?) ==> r == []
  {
    match stored
    case Some(JArray(items)) => FeedRecords(items)
    case _ => []
  }

  /** What save_feeds writes: the records as one JSON list. */
  function StoreFeeds(rs: seq<Record>): Json {
    JArray(Objects(rs))
  }

  lemma {:induction false} FeedRecordsOfObjects(rs: seq<Record>)
    requires forall k :: 0 <= k < |rs| ==> "url" in rs[k]
    ensures FeedRecords(Objects(rs)) == rs
  {
    if rs != [] {
      assert Objects(rs)[1..] == Objects(rs[1..]);
      FeedRecordsOfObjects(rs[1..]);
    }
  }

  /** A registry whose every record has a url survives save_feeds followed by load_feeds. */
  lemma FeedsRoundTrip(rs: seq<Record>)
    requires forall k :: 0 <= k < |rs| ==> "url" in rs[k]
    ensures LoadFeeds(Some(StoreFeeds(rs))) == rs
  {
    FeedRecordsOfObjects(rs);
  }

  // --------------------------------------------------------------- config.json

  const LimitKey: string := "videos_per_channel"
  const DefaultLimit: int := 15

  /** Python's `isinstance(v, int)`, which is also true of `True` and `False`. */
  predicate IsPyInt(j: Json) {
    j.JInt? || j.JBool?
  }

  /** The integer a Python int or bool stands for. */
  function PyInt(j: Json): int
    requires IsPyInt(j)
  {
    if j.JInt? then j.i else if j.b then 1 else 0
  }

  /** The stored config is an object whose limit entry is a Python int. */
  predicate HasValidLimit(stored: Option<Json>) {
    stored.Some? && stored.value.JObject? && LimitKey in stored.value.members
    && IsPyInt(stored.value.members[LimitKey])
  }

  /** load_config: the stored object with its limit entry repaired, or the defaults when the
      file holds anything but an object (indexing a non-dict raises and is caught). */
  function LoadConfig(stored: Option<Json>): (cfg: map<string, Json>)
    ensures LimitKey in cfg && IsPyInt(cfg[LimitKey])
    ensures stored.Some? && stored.value.JObject? ==>
              cfg.Keys == stored.value.members.Keys + {LimitKey} &&
              forall k :: k in stored.value.members && k != LimitKey ==> cfg[k] == stored.value.members[k]
    ensures !(stored.Some? && stored.value.JObject?) ==> cfg == map[LimitKey := JInt(DefaultLimit)]
    ensures HasValidLimit(stored) ==> cfg[LimitKey] == stored.value.members[LimitKey]
    ensures !HasValidLimit(stored) ==> cfg[LimitKey] == JInt(DefaultLimit)
  {
    match stored
    case Some(JObject(m)) =>
      if LimitKey in m && IsPyInt(m[LimitKey]) then m else m[LimitKey := JInt(DefaultLimit)]
    case _ => map[LimitKey := JInt(DefaultLimit)]
  }

  /** The start value of the limit variable: `config.get("videos_per_channel", 15)`. */
  function ConfiguredLimit(cfg: map<string, Json>): int {
    if LimitKey in cfg && IsPyInt(cfg[LimitKey]) then PyInt(cfg[LimitKey]) else DefaultLimit
  }

  /** The limit read back from a stored config equals its valid stored value, else the default. */
  lemma LoadedLimit(stored: Option<Json>)
    ensures ConfiguredLimit(LoadConfig(stored)) ==
            if HasValidLimit(stored) then PyInt(stored.value.members[LimitKey]) else DefaultLimit
  {
  }

  /** A limit written by save_current_config is the one load_config gives back. */
  lemma ConfigRoundTrip(cfg: map<string, Json>, n: int)
    ensures ConfiguredLimit(LoadConfig(Some(JObject(cfg[LimitKey := JInt(n)])))) == n
  {
  }
}
