/** The application object (YouTubeRSSViewerApp) without its widgets: the
    registry, the viewed ledger and the limit it holds in memory, the three
    JSON files it reads and rewrites, and the operations that change them.

    A save is modelled by its effect on the file field; `saveOk` says whether
    the write succeeded (save_feeds and save_viewed log a failure and go on).
    The network is a parameter giving the parse of each url. */
module Viewer {
  import opened Options
  import opened Stores
  import opened Text
  import opened Feeds
  import opened Ordering
  import opened Aggregate
  import opened Ledger

  datatype AddOutcome = Duplicate | FetchFailed(heading: Heading) | Added(name: string)

  datatype DeleteOutcome = NoSelection | IndexOutOfRange | Declined | Deleted(record: Record)

  /** add_feed's duplicate test: some record's url is `url`. */
  predicate Listed(records: seq<Record>, url: Json) {
    exists k :: 0 <= k < |records| && StoredAt(records[k], url)
  }

  /** The loop of fetch_all_videos_thread that looks up the stored name of `url`. */
  method FindStoredName(records: seq<Record>, url: Json) returns (name: Json)
    ensures name == StoredName(records, url)
  {
    name := JString(UnknownChannel);
    var i := 0;
    while i < |records|
      invariant 0 <= i <= |records|
      invariant StoredName(records[i..], url) == StoredName(records, url)
    {
      assert records[i..][1..] == records[i + 1..];
      if StoredAt(records[i], url) {
        name := Get(records[i], "name", name);
        return;
      }
      i := i + 1;
    }
  }

  /** The loop of fetch_all_videos_thread that keeps a fetch's posts with an id and
      gives each the stored name. */
  method RelabelPosts(posts: seq<Post>, name: Json) returns (valid: seq<Post>)
    ensures valid == Relabel(posts, name)
  {
    valid := [];
    var i := 0;
    while i < |posts|
      invariant 0 <= i <= |posts|
      invariant valid == Relabel(posts[..i], name)
    {
      var post := posts[i];
      assert posts[..i + 1] == posts[..i] + [post];
      RelabelSnoc(posts[..i], post, name);
      if post.id != "" {
        valid := valid + [post.(channel := name)];
      }
      i := i + 1;
    }
    assert posts[..i] == posts;
  }

  class App {
    var feeds: seq<Record>          // feeds_data
    var viewed: set<string>         // the keys of viewed_videos
    var config: map<string, Json>   // config
    var limit: int                  // the value of videos_per_channel_var
    var allVideos: seq<Post>        // all_videos
    var shown: seq<Post>            // the videos put on screen
    var boxes: set<string>          // the keys of checkbox_vars
    var feedsFile: Option<Json>     // feeds.json
    var viewedFile: set<string>     // the keys of viewed.json
    var configFile: Option<Json>    // config.json
    ghost var ledgerWrites: nat     // the calls of save_viewed
    const formatDate: int -> string // strftime of the local time of a timestamp

    /** Every record has a url, so `feed_info['url']` never raises. */
    ghost predicate Valid()
      reads this
    {
      forall k :: 0 <= k < |feeds| ==> "url" in feeds[k]
    }

    /** The ledger in memory is the one on disk (true while every save succeeds). */
    ghost predicate Persisted()
      reads this
    {
      viewedFile == viewed
    }

    /** __init__ up to its first refresh: load the three files. */
    constructor (storedFeeds: Option<Json>, storedViewed: set<string>, storedConfig: Option<Json>,
                 formatDate: int -> string)
      ensures Valid() && Persisted()
      ensures feeds == LoadFeeds(storedFeeds) && viewed == storedViewed
      ensures config == LoadConfig(storedConfig) && limit == ConfiguredLimit(config)
      ensures allVideos == [] && shown == [] && boxes == {}
      ensures feedsFile == storedFeeds && viewedFile == storedViewed && configFile == storedConfig
      ensures ledgerWrites == 0 && this.formatDate == formatDate
    {
      feeds := LoadFeeds(storedFeeds);
      viewed := storedViewed;
      var cfg := LoadConfig(storedConfig);
      config := cfg;
      limit := ConfiguredLimit(cfg);
      allVideos, shown, boxes := [], [], {};
      feedsFile, viewedFile, configFile := storedFeeds, storedViewed, storedConfig;
      ledgerWrites := 0;
      this.formatDate := formatDate;
    }

    /** save_current_config after the spinbox set the limit variable to `value`. */
    method SaveCurrentConfig(value: int, saveOk: bool)
      modifies this
      ensures limit == value && config == old(config)[LimitKey := JInt(value)]
      ensures configFile == if saveOk then Some(JObject(config)) else old(configFile)
      ensures feeds == old(feeds) && viewed == old(viewed) && viewedFile == old(viewedFile)
      ensures feedsFile == old(feedsFile) && ledgerWrites == old(ledgerWrites)
      ensures allVideos == old(allVideos) && shown == old(shown) && boxes == old(boxes)
    {
      limit := value;
      config := config[LimitKey := JInt(value)];
      if saveOk {
        configFile := Some(JObject(config));
      }
    }

    /** fetch_single_feed on the parse `p` of `url`, with the current limit. */
    method FetchSingleFeed(url: Json, p: Parse) returns (r: FetchResult)
      ensures r == Fetch(url, p, limit, formatDate)
    {
      if p.Raised? {
        return FetchResult(ParseFailure(url), url, [], Error);
      }
      var d := p.doc;
      if HttpFailure(d.status) {
        return FetchResult(HttpError(d.status.value), url, [], Error);
      } else if Blank(d) {
        return FetchResult(EmptyParse(url), url, [], Error);
      }
      var title := FeedTitle(d);
      var entries := Window(d.entries, limit);
      var processed: seq<Post> := [];
      var i := 0;
      while i < |entries|
        invariant 0 <= i <= |entries|
        invariant processed == Normalize(entries[..i], title, formatDate)
      {
        var e := entries[i];
        var publishedAt: Option<int> := None;
        var publishedText := UnknownDate;
        if e.publishedParsed.Some? {
          publishedAt := e.publishedParsed;
          publishedText := formatDate(e.publishedParsed.value);
        } else if e.published.Some? {
          publishedText := e.published.value;
        }
        var videoId := EntryId(e);
        assert entries[..i + 1] == entries[..i] + [e];
        NormalizeSnoc(entries[..i], e, title, formatDate);
        if videoId != "" {
          processed := processed + [Post(e.title.GetOr(NoTitle), e.link.GetOr(NoLink), videoId,
                                         publishedText, publishedAt, JString(title))];
        }
        i := i + 1;
      }
      assert entries[..i] == entries;
      r := FetchResult(Titled(title), FeedLink(d, url), processed, Ok);
    }

    /** One pass of fetch_all_videos_thread's loop: fetch `url`, then either its relabelled
        posts or a failure. */
    method FetchAndRelabel(records: seq<Record>, url: Json, net: Network) returns (posts: seq<Post>, failed: bool)
      ensures posts == Contribution(records, url, net, limit, formatDate)
      ensures failed == Fails(url, net, limit, formatDate)
    {
      var data := FetchSingleFeed(url, net(url));
      var name := FindStoredName(records, url);
      if data.status == Ok {
        posts := RelabelPosts(data.posts, name);
        failed := false;
      } else {
        posts := [];
        failed := true;
      }
    }

    /** fetch_all_videos_thread: the merged, sorted videos and the error tally it hands to
        update_video_list. */
    method FetchAllVideos(net: Network) returns (videos: seq<Post>, errors: nat)
      ensures videos == SortNewestFirst(Merge(feeds, Urls(feeds), net, limit, formatDate))
      ensures errors == Failures(Urls(feeds), net, limit, formatDate)
    {
      var local, lim, fmt := feeds, limit, formatDate;
      var urls := Urls(local);
      var fetched: seq<Post> := [];
      errors := 0;
      var i := 0;
      while i < |urls|
        invariant 0 <= i <= |urls|
        invariant fetched == Merge(local, urls[..i], net, lim, fmt)
        invariant errors == Failures(urls[..i], net, lim, fmt)
      {
        var url := urls[i];
        MergePrefix(local, urls, i, net, lim, fmt);
        var valid, failed := FetchAndRelabel(local, url, net);
        fetched := fetched + valid;
        if failed {
          errors := errors + 1;
        }
        i := i + 1;
      }
      assert urls[..|urls|] == urls;
      videos := SortNewestFirst(fetched);
    }

    /** update_video_list up to the widgets: prune the ledger read from disk, save it if
        pruning removed something, and compute the videos to show. */
    method UpdateVideoList(fetched: seq<Post>, saveOk: bool)
      modifies this
      ensures allVideos == fetched
      ensures viewed == Reconcile(old(viewedFile), fetched)
      ensures ledgerWrites == old(ledgerWrites) + if NeedsSave(old(viewedFile), fetched) then 1 else 0
      ensures viewedFile == if NeedsSave(old(viewedFile), fetched) && saveOk then viewed else old(viewedFile)
      ensures saveOk ==> Persisted()
      ensures shown == Display(fetched, viewed) && boxes == FetchedIds(shown)
      ensures feeds == old(feeds) && config == old(config) && limit == old(limit)
      ensures feedsFile == old(feedsFile) && configFile == old(configFile)
    {
      allVideos := fetched;
      var current := viewedFile;
      var pruned := Reconcile(current, allVideos);
      if pruned != current {
        ledgerWrites := ledgerWrites + 1;
        if saveOk {
          viewedFile := pruned;
        }
        viewed := pruned;
      } else {
        viewed := current;
      }
      shown := Display(allVideos, viewed);
      boxes := FetchedIds(shown);
    }

    /** refresh_feeds with its thread run to completion: clear the check boxes, fetch and
        merge every feed, then update the list. Returns the error tally. */
    method Refresh(net: Network, saveOk: bool) returns (errors: nat)
      modifies this
      ensures var fetched := SortNewestFirst(Merge(old(feeds), Urls(old(feeds)), net, old(limit), formatDate));
              && allVideos == fetched
              && errors == Failures(Urls(old(feeds)), net, old(limit), formatDate)
              && viewed == Reconcile(old(viewedFile), fetched)
              && ledgerWrites == old(ledgerWrites) + (if NeedsSave(old(viewedFile), fetched) then 1 else 0)
              && viewedFile == (if NeedsSave(old(viewedFile), fetched) && saveOk then viewed else old(viewedFile))
              && shown == Display(fetched, viewed) && boxes == FetchedIds(shown)
      ensures saveOk ==> Persisted()
      ensures feeds == old(feeds) && config == old(config) && limit == old(limit)
      ensures feedsFile == old(feedsFile) && configFile == old(configFile)
    {
      boxes := {};
      var videos;
      videos, errors := FetchAllVideos(net);
      UpdateVideoList(videos, saveOk);
    }

    /** toggle_viewed: a checked box whose id is not yet viewed marks it and saves the ledger. */
    method ToggleViewed(videoId: string, checked: bool, saveOk: bool)
      modifies this
      ensures var marks := videoId != "" && videoId in old(boxes) && checked && videoId !in old(viewed);
              && viewed == (if marks then old(viewed) + {videoId} else old(viewed))
              && ledgerWrites == old(ledgerWrites) + (if marks then 1 else 0)
              && viewedFile == (if marks && saveOk then viewed else old(viewedFile))
      ensures feeds == old(feeds) && config == old(config) && limit == old(limit)
      ensures feedsFile == old(feedsFile) && configFile == old(configFile)
      ensures allVideos == old(allVideos) && shown == old(shown) && boxes == old(boxes)
    {
      if videoId == "" {
        return;
      }
      if videoId in boxes && checked && videoId !in viewed {
        viewed := viewed + {videoId};
        ledgerWrites := ledgerWrites + 1;
        if saveOk {
          viewedFile := viewed;
        }
      }
    }

    /** The registry grows by `record` and is saved. */
    method AppendFeed(record: Record, saveOk: bool)
      requires Valid() && "url" in record
      modifies this
      ensures Valid()
      ensures feeds == old(feeds) + [record]
      ensures feedsFile == if saveOk then Some(StoreFeeds(feeds)) else old(feedsFile)
      ensures viewed == old(viewed) && viewedFile == old(viewedFile) && ledgerWrites == old(ledgerWrites)
      ensures config == old(config) && limit == old(limit) && configFile == old(configFile)
      ensures allVideos == old(allVideos) && shown == old(shown) && boxes == old(boxes)
    {
      feeds := feeds + [record];
      if saveOk {
        feedsFile := Some(StoreFeeds(feeds));
      }
    }

    /** add_feed: strip the typed url, refuse a url already listed, fetch it once, and on
        success append `{url, name}`, save the registry and refresh. */
    method AddFeed(text: string, net: Network, saveOk: bool) returns (outcome: AddOutcome)
      requires Valid()
      modifies this
      ensures Valid()
      ensures var url := JString(Strip(text));
              var r := Fetch(url, net(url), old(limit), formatDate);
              && (Listed(old(feeds), url) ==> outcome == Duplicate)
              && (!Listed(old(feeds), url) && r.status == Error ==> outcome == FetchFailed(r.heading))
              && (!Listed(old(feeds), url) && r.status == Ok ==> outcome == Added(r.heading.text))
      ensures outcome.Added? ==>
                && feeds == old(feeds) + [map["url" := JString(Strip(text)), "name" := JString(outcome.name)]]
                && feedsFile == (if saveOk then Some(StoreFeeds(feeds)) else old(feedsFile))
                && allVideos == SortNewestFirst(Merge(feeds, Urls(feeds), net, limit, formatDate))
                && viewed == Reconcile(old(viewedFile), allVideos)
                && ledgerWrites == old(ledgerWrites) + (if NeedsSave(old(viewedFile), allVideos) then 1 else 0)
                && viewedFile == (if NeedsSave(old(viewedFile), allVideos) && saveOk then viewed else old(viewedFile))
                && shown == Display(allVideos, viewed) && boxes == FetchedIds(shown)
      ensures !outcome.Added? ==>
                && feeds == old(feeds) && feedsFile == old(feedsFile)
                && viewed == old(viewed) && viewedFile == old(viewedFile) && ledgerWrites == old(ledgerWrites)
                && allVideos == old(allVideos) && shown == old(shown) && boxes == old(boxes)
      ensures config == old(config) && limit == old(limit) && configFile == old(configFile)
    {
      var url := JString(Strip(text));
      if Listed(feeds, url) {
        return Duplicate;
      }
      var details := FetchSingleFeed(url, net(url));
      if details.status == Ok {
        var name := details.heading.text;
        AppendFeed(map["url" := url, "name" := JString(name)], saveOk);
        outcome := Added(name);
        var errors := Refresh(net, saveOk);
      } else {
        outcome := FetchFailed(details.heading);
      }
    }

    /** delete_selected_feed: the first selected index, bounds-checked, removed on
        confirmation, and the registry saved. */
    method DeleteSelectedFeed(selection: seq<int>, confirm: bool, saveOk: bool) returns (outcome: DeleteOutcome)
      requires Valid()
      modifies this
      ensures Valid()
      ensures selection == [] ==> outcome == NoSelection
      ensures selection != [] && !(0 <= selection[0] < |old(feeds)|) ==> outcome == IndexOutOfRange
      ensures selection != [] && 0 <= selection[0] < |old(feeds)| ==>
                outcome == if confirm then Deleted(old(feeds)[selection[0]]) else Declined
      ensures outcome.Deleted? ==>
                var i := selection[0];
                && feeds == old(feeds)[..i] + old(feeds)[i + 1..]
                && feedsFile == if saveOk then Some(StoreFeeds(feeds)) else old(feedsFile)
      ensures !outcome.Deleted? ==> feeds == old(feeds) && feedsFile == old(feedsFile)
      ensures viewed == old(viewed) && viewedFile == old(viewedFile) && ledgerWrites == old(ledgerWrites)
      ensures config == old(config) && limit == old(limit) && configFile == old(configFile)
      ensures allVideos == old(allVideos) && shown == old(shown) && boxes == old(boxes)
    {
      if selection == [] {
        return NoSelection;
      }
      var index := selection[0];
      if !(0 <= index < |feeds|) {
        return IndexOutOfRange;
      }
      var record := feeds[index];
      if !confirm {
        return Declined;
      }
      feeds := feeds[..index] + feeds[index + 1..];
      if saveOk {
        feedsFile := Some(StoreFeeds(feeds));
      }
      outcome := Deleted(record);
    }
  }

  /** Two refreshes against the same feeds, with saves that succeed: the second shows
      the same list and writes nothing; the first writes the ledger at most once. */
  method RefreshIsIdempotent(app: App, net: Network) returns (first: seq<Post>, second: seq<Post>, ghost writesAfterFirst: nat)
    modifies app
    ensures first == second && app.shown == second
    ensures writesAfterFirst <= old(app.ledgerWrites) + 1 && app.ledgerWrites == writesAfterFirst
    ensures app.Persisted()
  {
    var errors := app.Refresh(net, true);
    first := app.shown;
    ghost var ledger := app.viewed;
    writesAfterFirst := app.ledgerWrites;
    errors := app.Refresh(net, true);
    second := app.shown;
    assert app.viewed == ledger;
  }

  /** Marking a shown video viewed and then refreshing, with saves that succeed and a
      viewed id of memory also in viewed.json, never shows that video again, whether or not
      its feed still lists it. */
  method MarkThenRefresh(app: App, id: string, net: Network) returns (shownAfter: seq<Post>)
    requires (id in app.viewed ==> id in app.viewedFile) && id != "" && id in app.boxes
    modifies app
    ensures shownAfter == app.shown
    ensures forall k :: 0 <= k < |shownAfter| ==> shownAfter[k].id != id
  {
    app.ToggleViewed(id, true, true);
    assert id in app.viewedFile;
    var file := app.viewedFile;
    var errors := app.Refresh(net, true);
    ViewedIdIsHidden(app.allVideos, file, id);
    shownAfter := app.shown;
  }

  /** When the ledger save of a mark fails, the next refresh reads viewed.json without the
      id, so the marked video is shown again wherever its feed still lists it. */
  method MarkWithFailedSave(app: App, id: string, net: Network) returns (shownAfter: seq<Post>)
    requires id != "" && id in app.boxes && id !in app.viewedFile
    modifies app
    ensures shownAfter == app.shown
    ensures forall k :: 0 <= k < |app.allVideos| && app.allVideos[k].id == id ==> app.allVideos[k] in shownAfter
  {
    app.ToggleViewed(id, true, false);
    var errors := app.Refresh(net, true);
    shownAfter := app.shown;
  }
}
