/** The merge step of fetch_all_videos_thread: fetch every stored url in
    registry order, count the failures, relabel the posts of each successful
    fetch with the name stored for that url, and concatenate them. */
module Aggregate {
  import opened Seqs
  import opened Stores
  import opened Feeds

  /** The parser's answer for each url; one snapshot of the network per refresh. */
  type Network = Json -> Parse

  /** `[fi['url'] for fi in feeds if 'url' in fi]` */
  function Urls(records: seq<Record>): (us: seq<Json>)
    ensures |us| <= |records|
    ensures (forall k :: 0 <= k < |records| ==> "url" in records[k]) ==>
              |us| == |records| && forall k :: 0 <= k < |us| ==> us[k] == records[k]["url"]
  {
    if records == [] then []
    else (if "url" in records[0] then [records[0]["url"]] else []) + Urls(records[1..])
  }

  /** `item.get('url') == url`: a record without the key reads as None (JSON null). */
  predicate StoredAt(r: Record, url: Json) {
    Get(r, "url", JNull) == url
  }

  /** The name a refresh shows for `url`: that of the first record with the url,
      "Unknown Channel" when that record has no name or no record has the url. */
  function StoredName(records: seq<Record>, url: Json): Json {
    if records == [] then JString(UnknownChannel)
    else if StoredAt(records[0], url) then Get(records[0], "name", JString(UnknownChannel))
    else StoredName(records[1..], url)
  }

  lemma {:induction false} StoredNameIsFirstMatch(records: seq<Record>, url: Json, i: nat)
    requires i < |records| && StoredAt(records[i], url)
    requires forall j :: 0 <= j < i ==> !StoredAt(records[j], url)
    ensures StoredName(records, url) == Get(records[i], "name", JString(UnknownChannel))
  {
    if i > 0 {
      StoredNameIsFirstMatch(records[1..], url, i - 1);
    }
  }

  lemma {:induction false} StoredNameOfUnknownUrl(records: seq<Record>, url: Json)
    requires forall j :: 0 <= j < |records| ==> !StoredAt(records[j], url)
    ensures StoredName(records, url) == JString(UnknownChannel)
  {
    if records != [] {
      StoredNameOfUnknownUrl(records[1..], url);
    }
  }

  /** The inner loop over a successful fetch's posts: those with an id, renamed. */
  function Relabel(posts: seq<Post>, name: Json): (r: seq<Post>)
    ensures |r| <= |posts|
    ensures forall k :: 0 <= k < |r| ==> r[k].id != "" && r[k].channel == name
  {
    var kept := Filter(posts, HasId);
    seq(|kept|, k requires 0 <= k < |kept| => kept[k].(channel := name))
  }

  /** Posts that all have an id are all kept, in order, each renamed. */
  lemma RelabelKeepsAll(posts: seq<Post>, name: Json)
    requires forall k :: 0 <= k < |posts| ==> posts[k].id != ""
    ensures |Relabel(posts, name)| == |posts|
    ensures forall k :: 0 <= k < |posts| ==> Relabel(posts, name)[k] == posts[k].(channel := name)
  {
    FilterAll(posts, HasId);
  }

  /** The inner loop's step: one more post is kept, renamed, when it has an id. */
  lemma RelabelSnoc(posts: seq<Post>, p: Post, name: Json)
    ensures Relabel(posts + [p], name) == Relabel(posts, name) + (if p.id != "" then [p.(channel := name)] else [])
  {
    FilterAppend(posts, [p], HasId);
  }

  /** What one url adds to the merged list. */
  function Contribution(records: seq<Record>, url: Json, net: Network, limit: int, fmt: int -> string): (c: seq<Post>)
    ensures Fetch(url, net(url), limit, fmt).status == Error ==> c == []
    ensures forall k :: 0 <= k < |c| ==> c[k].id != "" && c[k].channel == StoredName(records, url)
    ensures var r := Fetch(url, net(url), limit, fmt);
            r.status == Ok ==>
              |c| == |r.posts| && forall k :: 0 <= k < |c| ==> c[k] == r.posts[k].(channel := StoredName(records, url))
  {
    var r := Fetch(url, net(url), limit, fmt);
    if r.status == Ok then
      RelabelKeepsAll(r.posts, StoredName(records, url));
      Relabel(r.posts, StoredName(records, url))
    else []
  }

  predicate Fails(url: Json, net: Network, limit: int, fmt: int -> string) {
    Fetch(url, net(url), limit, fmt).status == Error
  }

  /** The merged list after the loop has visited `us`, in loop order. */
  function Merge(records: seq<Record>, us: seq<Json>, net: Network, limit: int, fmt: int -> string): seq<Post> {
    if us == [] then []
    else Merge(records, us[..|us| - 1], net, limit, fmt) + Contribution(records, us[|us| - 1], net, limit, fmt)
  }

  /** The error tally after the loop has visited `us`. */
  function Failures(us: seq<Json>, net: Network, limit: int, fmt: int -> string): (n: nat)
    ensures n <= |us|
  {
    if us == [] then 0
    else Failures(us[..|us| - 1], net, limit, fmt) + (if Fails(us[|us| - 1], net, limit, fmt) then 1 else 0)
  }

  /** The outer loop's step: one more url adds its contribution and, if it fails, one error. */
  lemma MergeSnoc(records: seq<Record>, us: seq<Json>, url: Json, net: Network, limit: int, fmt: int -> string)
    ensures Merge(records, us + [url], net, limit, fmt) ==
            Merge(records, us, net, limit, fmt) + Contribution(records, url, net, limit, fmt)
    ensures Failures(us + [url], net, limit, fmt) ==
            Failures(us, net, limit, fmt) + (if Fails(url, net, limit, fmt) then 1 else 0)
  {
    assert (us + [url])[..|us|] == us;
  }

  /** The same step on the prefixes a loop over `us` visits. */
  lemma MergePrefix(records: seq<Record>, us: seq<Json>, i: nat, net: Network, limit: int, fmt: int -> string)
    requires i < |us|
    ensures Merge(records, us[..i + 1], net, limit, fmt) ==
            Merge(records, us[..i], net, limit, fmt) + Contribution(records, us[i], net, limit, fmt)
    ensures Failures(us[..i + 1], net, limit, fmt) ==
            Failures(us[..i], net, limit, fmt) + (if Fails(us[i], net, limit, fmt) then 1 else 0)
  {
    assert us[..i + 1][..i] == us[..i];
  }

  /** Every merged post has an id and comes from a successful fetch of some visited url,
      labelled with the name stored for that url. */
  lemma {:induction false} MergedPostOrigin(records: seq<Record>, us: seq<Json>, net: Network, limit: int, fmt: int -> string, p: Post)
    requires p in Merge(records, us, net, limit, fmt)
    ensures p.id != ""
    ensures exists k :: 0 <= k < |us| && !Fails(us[k], net, limit, fmt) && p.channel == StoredName(records, us[k])
                         && p in Contribution(records, us[k], net, limit, fmt)
  {
    var front := us[..|us| - 1];
    var last := us[|us| - 1];
    if p in Merge(records, front, net, limit, fmt) {
      MergedPostOrigin(records, front, net, limit, fmt, p);
      var k :| 0 <= k < |front| && !Fails(front[k], net, limit, fmt) && p.channel == StoredName(records, front[k])
               && p in Contribution(records, front[k], net, limit, fmt);
      assert us[k] == front[k];
    } else {
      var c := Contribution(records, last, net, limit, fmt);
      assert p in c;
      var j :| 0 <= j < |c| && c[j] == p;
      assert !Fails(last, net, limit, fmt);
      var k := |us| - 1;
      assert us[k] == last;
      assert 0 <= k < |us| && !Fails(us[k], net, limit, fmt) && p.channel == StoredName(records, us[k])
             && p in Contribution(records, us[k], net, limit, fmt);
    }
  }

  /** The tally is the number of urls whose fetch failed: it reaches |us| exactly when every
      fetch failed. */
  lemma {:induction false} AllFailed(us: seq<Json>, net: Network, limit: int, fmt: int -> string)
    ensures Failures(us, net, limit, fmt) == |us| <==> forall k :: 0 <= k < |us| ==> Fails(us[k], net, limit, fmt)
  {
    if us != [] {
      var front, last := us[..|us| - 1], us[|us| - 1];
      AllFailed(front, net, limit, fmt);
      assert forall k :: 0 <= k < |front| ==> front[k] == us[k];
    }
  }

  /** When every fetch failed nothing is merged. */
  lemma {:induction false} AllFailedMergesNothing(records: seq<Record>, us: seq<Json>, net: Network, limit: int, fmt: int -> string)
    requires forall k :: 0 <= k < |us| ==> Fails(us[k], net, limit, fmt)
    ensures Merge(records, us, net, limit, fmt) == []
  {
    if us != [] {
      var front := us[..|us| - 1];
      assert forall k :: 0 <= k < |front| ==> front[k] == us[k];
      AllFailedMergesNothing(records, front, net, limit, fmt);
    }
  }

  /** A url whose fetch fails adds one to the tally and nothing to the merged list. */
  lemma FailedFeedAddsOnlyAnError(records: seq<Record>, us: seq<Json>, url: Json, net: Network, limit: int, fmt: int -> string)
    requires Fails(url, net, limit, fmt)
    ensures Merge(records, us + [url], net, limit, fmt) == Merge(records, us, net, limit, fmt)
    ensures Failures(us + [url], net, limit, fmt) == Failures(us, net, limit, fmt) + 1
  {
    MergeSnoc(records, us, url, net, limit, fmt);
  }
}
