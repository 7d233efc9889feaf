/** One feed fetch (fetch_single_feed): classify the parsed document, keep the
    first `limit` entries in feed order, give each entry its per-field
    defaults, and drop the entries without a usable id.

    The parser (feedparser.parse and the HTTP transport) is not modelled: its
    output is the input `Parse`. The local-time formatting of a publish time
    is the parameter `fmt`. */
module Feeds {
  import opened Options
  import opened Seqs
  import opened Stores

  /** One parsed entry; None stands for a key the entry does not have. */
  datatype Entry = Entry(
    id: Option<string>,
    link: Option<string>,
    title: Option<string>,
    publishedParsed: Option<int>,   // the structured publish time, as seconds
    published: Option<string>)      // the publish time as the feed wrote it

  /** The feed-level header (`feed.feed`); None when that dict is empty, which is what the
      "Blank" test reads as falsy. A header with neither field is a non-empty dict holding
      other keys. */
  datatype Header = Header(title: Option<string>, link: Option<string>)

  datatype Document = Document(status: Option<int>, header: Option<Header>, entries: seq<Entry>)

  /** What parsing a url gives: a document, or an exception raised while fetching or reading it. */
  datatype Parse = Parsed(doc: Document) | Raised

  datatype Status = Ok | Error

  /** The "Feed Title" of a result. The error titles are f-strings in the source
      ("HTTP Error 404", "Empty/Failed Parse <url>", "Error Parsing <url>"). */
  datatype Heading = Titled(text: string) | HttpError(code: int) | EmptyParse(url: Json) | ParseFailure(url: Json)

  /** One video as the pipeline passes it on. */
  datatype Post = Post(
    title: string,
    link: string,
    id: string,
    publishedText: string,
    publishedAt: Option<int>,
    channel: Json)

  datatype FetchResult = FetchResult(heading: Heading, link: Json, posts: seq<Post>, status: Status)

  const NoTitle: string := "No Title"
  const NoLink: string := "#"
  const UnknownDate: string := "Unknown date"
  const UnknownChannel: string := "Unknown Channel"

  /** Python's slice `s[:limit]`, a negative limit counting from the end. */
  function Window<T>(s: seq<T>, limit: int): (r: seq<T>)
    ensures |r| <= |s| && r == s[..|r|]
    ensures limit >= 0 ==> |r| == if limit <= |s| then limit else |s|
    ensures limit < 0 ==> |r| == if -limit <= |s| then |s| + limit else 0
  {
    if limit >= 0 then (if limit <= |s| then s[..limit] else s)
    else if -limit <= |s| then s[..|s| + limit]
    else []
  }

  /** `entry.get("id", entry.get("link"))`, with a missing value as the (equally falsy) empty string. */
  function EntryId(e: Entry): string {
    if e.id.Some? then e.id.value else e.link.GetOr("")
  }

  /** The text shown as an entry's date. */
  function PublishedText(e: Entry, fmt: int -> string): string {
    if e.publishedParsed.Some? then fmt(e.publishedParsed.value)
    else e.published.GetOr(UnknownDate)
  }

  /** The post built from one entry, before the empty-id check. */
  function Project(e: Entry, channel: string, fmt: int -> string): (p: Post)
    ensures p.id == EntryId(e)
    ensures p.title == e.title.GetOr(NoTitle) && p.link == e.link.GetOr(NoLink)
    ensures p.publishedAt == e.publishedParsed && p.publishedText == PublishedText(e, fmt)
    ensures p.channel == JString(channel)
  {
    Post(e.title.GetOr(NoTitle), e.link.GetOr(NoLink), EntryId(e),
         PublishedText(e, fmt), e.publishedParsed, JString(channel))
  }

  function ProjectAll(es: seq<Entry>, channel: string, fmt: int -> string): (ps: seq<Post>)
    ensures |ps| == |es|
  {
    seq(|es|, k requires 0 <= k < |es| => Project(es[k], channel, fmt))
  }

  predicate HasId(p: Post) {
    p.id != ""
  }

  /** The loop of fetch_single_feed over the kept entries. */
  function Normalize(es: seq<Entry>, channel: string, fmt: int -> string): seq<Post> {
    Filter(ProjectAll(es, channel, fmt), HasId)
  }

  /** The loop's step: one more entry adds its post when it has an id. */
  lemma NormalizeSnoc(es: seq<Entry>, e: Entry, channel: string, fmt: int -> string)
    ensures Normalize(es + [e], channel, fmt) ==
            Normalize(es, channel, fmt) + (if EntryId(e) != "" then [Project(e, channel, fmt)] else [])
  {
    assert ProjectAll(es + [e], channel, fmt) == ProjectAll(es, channel, fmt) + [Project(e, channel, fmt)];
    FilterAppend(ProjectAll(es, channel, fmt), [Project(e, channel, fmt)], HasId);
  }

  /** The per-entry rules of the loop: the id is the entry's `id` if it has the key, else its
      link; the entry is dropped exactly when that id is missing or empty, so an entry whose
      `id` is present but empty is dropped even when it has a link; a missing title reads
      "No Title", a missing link "#", and with neither a structured nor a textual date the
      date reads "Unknown date". */
  lemma EntryRules(e: Entry, channel: string, fmt: int -> string)
    ensures var p := Project(e, channel, fmt);
            && (e.id.Some? ==> p.id == e.id.value)
            && (e.id.None? && e.link.Some? ==> p.id == e.link.value)
            && (e.id.None? && e.link.None? ==> !HasId(p))
            && (e.id == Some("") ==> !HasId(p))
            && (e.title.None? ==> p.title == NoTitle)
            && (e.link.None? ==> p.link == NoLink)
            && (e.publishedParsed.Some? ==> p.publishedText == fmt(e.publishedParsed.value))
            && (e.publishedParsed.None? && e.published.Some? ==> p.publishedText == e.published.value)
            && (e.publishedParsed.None? && e.published.None? ==> p.publishedText == UnknownDate)
            && p.channel == JString(channel)
    ensures Normalize([e], channel, fmt) == [] <==>
            (e.id.Some? && e.id.value == "") || (e.id.None? && (e.link.None? || e.link.value == ""))
  {
    assert Normalize([], channel, fmt) == [];
    NormalizeSnoc([], e, channel, fmt);
    assert [e] == [] + [e];
  }

  /** The status test: a truthy status other than 200. */
  predicate HttpFailure(status: Option<int>) {
    status.Some? && status.value != 0 && status.value != 200
  }

  /** No entries and no feed header. */
  predicate Blank(d: Document) {
    d.entries == [] && d.header.None?
  }

  function FeedTitle(d: Document): string {
    if d.header.Some? then d.header.value.title.GetOr(UnknownChannel) else UnknownChannel
  }

  function FeedLink(d: Document, url: Json): Json {
    if d.header.Some? && d.header.value.link.Some? then JString(d.header.value.link.value) else url
  }

  /** fetch_single_feed for `url`, whose parse gave `p`, with the limit then in force. */
  function Fetch(url: Json, p: Parse, limit: int, fmt: int -> string): (r: FetchResult)
    ensures r.status == Ok <==> p.Parsed? && !HttpFailure(p.doc.status) && !Blank(p.doc)
    ensures r.status == Error ==> r.posts == [] && r.link == url
    ensures p.Raised? ==> r.heading == ParseFailure(url)
    ensures p.Parsed? && HttpFailure(p.doc.status) ==> r.heading == HttpError(p.doc.status.value)
    ensures p.Parsed? && !HttpFailure(p.doc.status) && Blank(p.doc) ==> r.heading == EmptyParse(url)
    ensures r.status == Ok ==> r.heading == Titled(FeedTitle(p.doc)) && r.link == FeedLink(p.doc, url)
    ensures forall k :: 0 <= k < |r.posts| ==> r.posts[k].id != ""
    ensures limit >= 0 ==> |r.posts| <= limit
  {
    match p
    case Raised => FetchResult(ParseFailure(url), url, [], Error)
    case Parsed(d) =>
      if HttpFailure(d.status) then FetchResult(HttpError(d.status.value), url, [], Error)
      else if Blank(d) then FetchResult(EmptyParse(url), url, [], Error)
      else
        var title := FeedTitle(d);
        FetchResult(Titled(title), FeedLink(d, url), Normalize(Window(d.entries, limit), title, fmt), Ok)
  }

  /** On success the posts are exactly the entries of `entries[:limit]` that have a
      non-empty id, in feed order, each with its defaults; an entry whose `id` key is
      present but empty is dropped even if it has a link. */
  lemma FetchedPosts(url: Json, d: Document, limit: int, fmt: int -> string)
    requires !HttpFailure(d.status) && !Blank(d)
    ensures var r := Fetch(url, Parsed(d), limit, fmt);
            var kept := ProjectAll(Window(d.entries, limit), FeedTitle(d), fmt);
            && Subsequence(r.posts, kept)
            && (forall k :: 0 <= k < |r.posts| ==> r.posts[k] in kept)
            && (forall k :: 0 <= k < |kept| ==> (kept[k] in r.posts <==> EntryId(Window(d.entries, limit)[k]) != ""))
  {
    var kept := ProjectAll(Window(d.entries, limit), FeedTitle(d), fmt);
    FilterIsSubsequence(kept, HasId);
    var r := Fetch(url, Parsed(d), limit, fmt);
    forall k | 0 <= k < |kept| && kept[k] in r.posts
      ensures EntryId(Window(d.entries, limit)[k]) != ""
    {
      var j :| 0 <= j < |r.posts| && r.posts[j] == kept[k];
    }
  }

  /** Every copy of a kept entry survives: a post with an id occurs among the fetched posts
      as often as in the projected window, and one without an id not at all. */
  lemma FetchedPostCount(url: Json, d: Document, limit: int, fmt: int -> string, q: Post)
    requires !HttpFailure(d.status) && !Blank(d)
    ensures multiset(Fetch(url, Parsed(d), limit, fmt).posts)[q] ==
            if q.id != "" then multiset(ProjectAll(Window(d.entries, limit), FeedTitle(d), fmt))[q] else 0
  {
    FilterCount(ProjectAll(Window(d.entries, limit), FeedTitle(d), fmt), HasId, q);
  }

  /** A limit at least the feed's length keeps every entry that has an id. */
  lemma LargeLimitKeepsAll(url: Json, d: Document, limit: int, fmt: int -> string)
    requires !HttpFailure(d.status) && !Blank(d) && limit >= |d.entries|
    ensures Fetch(url, Parsed(d), limit, fmt).posts == Normalize(d.entries, FeedTitle(d), fmt)
  {
    assert Window(d.entries, limit) == d.entries[..|d.entries|] == d.entries;
  }
}
