/** Worked refreshes on small registries, computed through the model's own
    definitions: what a user sees for two healthy feeds and a viewed video,
    and for a feed that answers with HTTP 404. */
module Scenarios {
  import opened Options
  import opened Seqs
  import opened Stores
  import opened Feeds
  import opened Ordering
  import opened Aggregate
  import opened Ledger

  function DatedEntry(id: string, t: int): Entry {
    Entry(Some(id), Some("https://example.org/" + id), Some(id), Some(t), None)
  }

  function Channel(url: string, name: string): Record {
    map["url" := JString(url), "name" := JString(name)]
  }

  function Healthy(entries: seq<Entry>): Parse {
    Parsed(Document(Some(200), Some(Header(Some("feed"), None)), entries))
  }

  /** Two channels: s1 lists A (time 3) then B (time 1), s2 lists C (time 2). */
  function TwoChannels(): seq<Record> {
    [Channel("s1", "One"), Channel("s2", "Two")]
  }

  function TwoChannelNet(u: Json): Parse {
    if u == JString("s1") then Healthy([DatedEntry("A", 3), DatedEntry("B", 1)])
    else if u == JString("s2") then Healthy([DatedEntry("C", 2)])
    else Raised
  }

  function Labelled(id: string, t: int, name: string, fmt: int -> string): Post {
    Project(DatedEntry(id, t), "feed", fmt).(channel := JString(name))
  }

  /** A healthy document contributes its normalised window, relabelled. */
  lemma HealthyContribution(records: seq<Record>, url: Json, net: Network, d: Document, fmt: int -> string)
    requires net(url) == Parsed(d) && !HttpFailure(d.status) && !Blank(d)
    ensures Contribution(records, url, net, 10, fmt) ==
            Relabel(Normalize(Window(d.entries, 10), FeedTitle(d), fmt), StoredName(records, url))
  {
  }

  /** Two posts with ids survive relabelling, renamed. */
  lemma RelabelTwo(p: Post, q: Post, name: Json)
    requires p.id != "" && q.id != ""
    ensures Relabel([p, q], name) == [p.(channel := name), q.(channel := name)]
  {
    RelabelSnoc([], p, name);
    RelabelSnoc([p], q, name);
    assert [p] == [] + [p] && [p, q] == [p] + [q];
  }

  lemma RelabelOne(p: Post, name: Json)
    requires p.id != ""
    ensures Relabel([p], name) == [p.(channel := name)]
  {
    RelabelSnoc([], p, name);
    assert [p] == [] + [p];
  }

  lemma NormalizeTwo(e: Entry, f: Entry, channel: string, fmt: int -> string)
    requires EntryId(e) != "" && EntryId(f) != ""
    ensures Normalize([e, f], channel, fmt) == [Project(e, channel, fmt), Project(f, channel, fmt)]
  {
    assert Normalize([], channel, fmt) == [];
    NormalizeSnoc([], e, channel, fmt);
    NormalizeSnoc([e], f, channel, fmt);
    assert [e] == [] + [e] && [e, f] == [e] + [f];
  }

  lemma NormalizeOne(e: Entry, channel: string, fmt: int -> string)
    requires EntryId(e) != ""
    ensures Normalize([e], channel, fmt) == [Project(e, channel, fmt)]
  {
    assert Normalize([], channel, fmt) == [];
    NormalizeSnoc([], e, channel, fmt);
    assert [e] == [] + [e];
  }

  lemma FirstChannel(fmt: int -> string)
    ensures Contribution(TwoChannels(), JString("s1"), TwoChannelNet, 10, fmt) ==
            [Labelled("A", 3, "One", fmt), Labelled("B", 1, "One", fmt)]
  {
    var es := [DatedEntry("A", 3), DatedEntry("B", 1)];
    var d := Document(Some(200), Some(Header(Some("feed"), None)), es);
    HealthyContribution(TwoChannels(), JString("s1"), TwoChannelNet, d, fmt);
    assert StoredName(TwoChannels(), JString("s1")) == JString("One");
    assert Window(es, 10) == es;
    NormalizeTwo(es[0], es[1], "feed", fmt);
    RelabelTwo(Project(es[0], "feed", fmt), Project(es[1], "feed", fmt), JString("One"));
  }

  lemma SecondChannel(fmt: int -> string)
    ensures Contribution(TwoChannels(), JString("s2"), TwoChannelNet, 10, fmt) == [Labelled("C", 2, "Two", fmt)]
  {
    var es := [DatedEntry("C", 2)];
    var d := Document(Some(200), Some(Header(Some("feed"), None)), es);
    HealthyContribution(TwoChannels(), JString("s2"), TwoChannelNet, d, fmt);
    assert StoredName(TwoChannels(), JString("s2")) == JString("Two");
    assert Window(es, 10) == es;
    NormalizeOne(es[0], "feed", fmt);
    RelabelOne(Project(es[0], "feed", fmt), JString("Two"));
  }

  lemma TwoChannelUrls()
    ensures Urls(TwoChannels()) == [JString("s1"), JString("s2")]
  {
  }

  /** A loop over two urls merges their contributions in order. */
  lemma MergeTwo(records: seq<Record>, u: Json, v: Json, net: Network, fmt: int -> string)
    ensures Merge(records, [u, v], net, 10, fmt) ==
            Contribution(records, u, net, 10, fmt) + Contribution(records, v, net, 10, fmt)
  {
    assert Merge(records, [u], net, 10, fmt) == Contribution(records, u, net, 10, fmt) by {
      assert [u][..0] == [];
    }
    assert [u, v][..1] == [u];
  }

  /** ... and counts their failures. */
  lemma FailuresTwo(u: Json, v: Json, net: Network, fmt: int -> string)
    ensures Failures([u, v], net, 10, fmt) ==
            (if Fails(u, net, 10, fmt) then 1 else 0) + (if Fails(v, net, 10, fmt) then 1 else 0)
  {
    assert Failures([u], net, 10, fmt) == (if Fails(u, net, 10, fmt) then 1 else 0) by {
      assert [u][..0] == [];
    }
    assert [u, v][..1] == [u];
  }

  /** Both fetches succeed. */
  lemma TwoChannelTally(fmt: int -> string)
    ensures Failures(Urls(TwoChannels()), TwoChannelNet, 10, fmt) == 0
  {
    TwoChannelUrls();
    FailuresTwo(JString("s1"), JString("s2"), TwoChannelNet, fmt);
    assert !Fails(JString("s1"), TwoChannelNet, 10, fmt);
    assert !Fails(JString("s2"), TwoChannelNet, 10, fmt);
  }

  /** The merged list is s1's posts then s2's. */
  lemma TwoChannelMerge(fmt: int -> string)
    ensures Merge(TwoChannels(), Urls(TwoChannels()), TwoChannelNet, 10, fmt) ==
            [Labelled("A", 3, "One", fmt), Labelled("B", 1, "One", fmt), Labelled("C", 2, "Two", fmt)]
  {
    TwoChannelUrls();
    MergeTwo(TwoChannels(), JString("s1"), JString("s2"), TwoChannelNet, fmt);
    FirstChannel(fmt);
    SecondChannel(fmt);
  }

  /** Three posts merged at times 3, 1, 2 sort to the order 3, 2, 1. */
  lemma SortThree(a: Post, b: Post, c: Post)
    requires a.publishedAt == Some(3) && b.publishedAt == Some(1) && c.publishedAt == Some(2)
    ensures SortNewestFirst([a, b, c]) == [a, c, b]
  {
    var s := [a, b, c];
    assert s[1..] == [b, c] && s[1..][1..] == [c] && s[1..][1..][1..] == [];
    assert SortNewestFirst([c]) == [c];
    assert Insert(b, [c]) == [c] + Insert(b, []);
    assert SortNewestFirst([b, c]) == [c, b];
  }

  /** The merged list sorted: A (time 3), C (time 2), B (time 1). */
  lemma TwoChannelSort(fmt: int -> string)
    ensures SortNewestFirst(Merge(TwoChannels(), Urls(TwoChannels()), TwoChannelNet, 10, fmt)) ==
            [Labelled("A", 3, "One", fmt), Labelled("C", 2, "Two", fmt), Labelled("B", 1, "One", fmt)]
  {
    TwoChannelMerge(fmt);
    SortThree(Labelled("A", 3, "One", fmt), Labelled("B", 1, "One", fmt), Labelled("C", 2, "Two", fmt));
  }

  /** With B viewed, the ledger keeps B and the screen shows the other two. */
  lemma ViewingB(a: Post, c: Post, b: Post)
    requires a.id == "A" && c.id == "C" && b.id == "B"
    ensures Reconcile({"B"}, [a, c, b]) == {"B"}
    ensures Display([a, c, b], {"B"}) == [a, c]
  {
    var s := [a, c, b];
    assert s[2].id == "B";
    assert "B" in FetchedIds(s);
    var keep := (p: Post) => Unseen({"B"}, p);
    assert s[1..] == [c, b] && s[1..][1..] == [b] && s[1..][1..][1..] == [];
    assert Filter([b], keep) == [] + Filter([], keep);
    assert Filter([c, b], keep) == [c] + Filter([b], keep);
    assert Filter(s, keep) == [a] + Filter([c, b], keep);
  }

  /** The refresh shows A then C, counts no error, and keeps the viewed B in the ledger. */
  lemma TwoFeedsOneViewed(fmt: int -> string)
    ensures Failures(Urls(TwoChannels()), TwoChannelNet, 10, fmt) == 0
    ensures var merged := SortNewestFirst(Merge(TwoChannels(), Urls(TwoChannels()), TwoChannelNet, 10, fmt));
            var ledger := Reconcile({"B"}, merged);
            var shown := Display(merged, ledger);
            && |shown| == 2 && shown[0].id == "A" && shown[1].id == "C"
            && shown[0].channel == JString("One") && shown[1].channel == JString("Two")
            && ledger == {"B"}
  {
    TwoChannelTally(fmt);
    TwoChannelSort(fmt);
    ViewingB(Labelled("A", 3, "One", fmt), Labelled("C", 2, "Two", fmt), Labelled("B", 1, "One", fmt));
  }

  /** The only feed answers 404: nothing is shown, one error is counted, and a stale
      ledger id is pruned. */
  lemma NotFoundFeed(fmt: int -> string)
    ensures var records := [Channel("s1", "One")];
            var net := (u: Json) => Parsed(Document(Some(404), None, [DatedEntry("A", 3)]));
            var merged := SortNewestFirst(Merge(records, Urls(records), net, 10, fmt));
            && Failures(Urls(records), net, 10, fmt) == 1
            && merged == []
            && Reconcile({"Z"}, merged) == {}
            && Fetch(JString("s1"), net(JString("s1")), 10, fmt).heading == HttpError(404)
  {
    var records := [Channel("s1", "One")];
    assert Urls(records) == [JString("s1")];
  }
}
