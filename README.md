# YouTube RSS Viewer — a verified model of its feed pipeline

YouTubeRSSViewer is a desktop reader for YouTube channel RSS feeds. It keeps
three JSON files: a registry of channels (`feeds.json`, a list of
`{"url", "name"}` records), a ledger of the video ids the user marked viewed
(`viewed.json`), and settings (`config.json`, holding the number of videos to
take from each channel). A refresh works in four steps:
- fetch every registered url;
- normalise each feed's first *limit* entries into video records;
- relabel each video with the channel name stored in the registry, and merge them all newest first;
- prune the viewed ledger down to the ids that were fetched again, and show the videos not marked viewed.

The model covers this pipeline plus the operations that change the stores:
adding a feed, deleting a feed, marking a video viewed, saving the limit, and
loading the files at start-up. It is written in the program's own shape:
- The application object is a class, `Viewer.App`, whose methods update its fields.
- Its loops are `while` loops. Each loop is proved against a pure specification function.
- The specification functions live in their own modules, one per concern:
  - `Stores`: the JSON files.
  - `Text`: `str.strip`.
  - `Feeds`: one fetch.
  - `Ordering`: the newest-first sort.
  - `Aggregate`: the merge.
  - `Ledger`: pruning and display.
- The properties are proved about those specification functions.
- `Scenarios` works two small refreshes out in full.

Parts of the program that are not modelled become parameters:
- The feed parser and the network: `Network`, the parse of each url.
- The local-time formatting of publish times: the function `formatDate`.
- Whether a file write succeeds: `saveOk`. The program's save routines print a failure and carry on.

A ghost counter, `ledgerWrites`, counts the attempts to write the ledger.

Three behaviours of the code that are easy to misread:
- **The limit is not checked.** The 1..50 bound on the limit exists only on the spinbox widget. Neither load_config nor the fetch enforces it. So `Window` models Python's `entries[:limit]` for every integer, negative ones included. A stored `true` counts as the integer 1, because Python treats a bool as an int.
- **Delete works by list position.** delete_selected_feed removes the record at the selected index (`YouTubeRSSViewer.py:580`). It does not search by url.
- **One fallback can never fire.** In add_feed, the fallback name `Unknown (<url>)` (`YouTubeRSSViewer.py:363`) is never reached: a successful fetch always carries a title.

## Model

| member | source | states |
|---|---|---|
| Stores.FeedRecords | YouTubeRSSViewer.py:83 | The loader keeps exactly the list items that are objects with a "url" key. Every kept record came from the file. |
| Stores.FeedRecordsKeepOrder | YouTubeRSSViewer.py:83 | The kept records are in the file's order: they form a subsequence of the stored list. |
| Stores.LoadFeeds | YouTubeRSSViewer.py:73-92 | Every loaded record has a url. A missing, undecodable or non-list file gives the empty registry. |
| Stores.FeedsRoundTrip | YouTubeRSSViewer.py:94-100 | If every record has a url, a registry written by save_feeds is read back unchanged by load_feeds. |
| Stores.LoadConfig | YouTubeRSSViewer.py:39-59 | The result always holds an int-typed limit. A stored object keeps its other keys, and keeps its limit if that is a Python int; otherwise the limit is reset to 15. Anything other than an object gives the defaults. |
| Stores.LoadedLimit | YouTubeRSSViewer.py:157 | The start-up limit is the stored valid limit, and 15 if there is none. |
| Stores.ConfigRoundTrip | YouTubeRSSViewer.py:259-265 | A limit saved by save_current_config is the one the next start-up reads back. |
| Text.Strip | YouTubeRSSViewer.py:348 | The result is an infix of the input, with only whitespace around it, and has no whitespace at either end. |
| Feeds.Window | YouTubeRSSViewer.py:309 | `entries[:limit]` is a prefix. Its length is min(limit, n) for limit >= 0, and max(n + limit, 0) for limit < 0. |
| Feeds.EntryRules | YouTubeRSSViewer.py:315-331 | The id is the entry's `id` when it has the key, and its link otherwise. An entry is dropped exactly when that id is missing or empty, so an entry with an empty `id` is dropped even if it has a link. A missing title reads "No Title" and a missing link reads "#". The date is the formatted structured time, else the textual date, else "Unknown date". |
| Feeds.Fetch | YouTubeRSSViewer.py:273-340 | The status is ok iff the parse succeeded, the status is not a truthy non-200 value, and the entries and header are not both empty. Each error path gives its own heading, no posts, and the url as link. On ok, the title and link default as in the source, every post has a non-empty id, and there are at most `limit` posts. |
| Feeds.FetchedPosts | YouTubeRSSViewer.py:309-331 | The posts are, in feed order, the entries of the window whose id (or link fallback) is non-empty. This holds in both directions. |
| Feeds.FetchedPostCount | YouTubeRSSViewer.py:314-331 | Every copy of a kept entry survives: a post with an id occurs as often as in the projected window, and a post without one never occurs. |
| Feeds.LargeLimitKeepsAll | YouTubeRSSViewer.py:309 | A limit of at least the feed length keeps every entry that has an id. |
| Ordering.NotOlderIsTotalPreorder | YouTubeRSSViewer.py:407 | The sort key order is reflexive, total and transitive. An undated post ranks lowest. |
| Ordering.SortPermutes | YouTubeRSSViewer.py:407 | The sorted list is a permutation of the merged list. |
| Ordering.SortIsNewestFirst | YouTubeRSSViewer.py:407 | The sorted list has the newest first, at every pair of positions. |
| Ordering.SortIsStable | YouTubeRSSViewer.py:407 | Posts with equal publish times keep their merge order (the sort is stable with reverse=True). |
| Ordering.CompareKeys | YouTubeRSSViewer.py:407 | Comparing two sort keys raises exactly when one of them is None (an undated post). Otherwise it agrees with the newest-first key order. |
| Ordering.SortAsWrittenRaises | YouTubeRSSViewer.py:407-408 | Derived from the raising comparison: the source's sort raises TypeError exactly when there are two or more posts and one of them is undated. When it does not raise, it gives the newest-first order. |
| Ordering.UndatedPostBreaksSort | YouTubeRSSViewer.py:407-408 | For a dated and an undated post, the source's sort raises, while the intended order puts the dated post first. |
| Aggregate.Urls | YouTubeRSSViewer.py:381 | When every record has a url, the url list matches the registry position by position. |
| Aggregate.StoredNameIsFirstMatch | YouTubeRSSViewer.py:389-391 | The name used is that of the first record with the url, or "Unknown Channel" if that record has no name. |
| Aggregate.StoredNameOfUnknownUrl | YouTubeRSSViewer.py:389-391 | A url that matches no record is labelled "Unknown Channel". |
| Aggregate.Relabel | YouTubeRSSViewer.py:393-399 | The kept posts have non-empty ids and carry the stored name. |
| Aggregate.RelabelKeepsAll | YouTubeRSSViewer.py:395-399 | When every post has an id, all of them are appended in order, each renamed. |
| Aggregate.Contribution | YouTubeRSSViewer.py:393-404 | A failed fetch contributes nothing. A successful one contributes all of the fetch's posts, in order, each renamed to the stored name. |
| Aggregate.Failures | YouTubeRSSViewer.py:383-404 | The error tally never exceeds the number of urls. |
| Aggregate.MergedPostOrigin | YouTubeRSSViewer.py:385-399 | Every merged post has an id and lies in the contribution of some url whose fetch succeeded. It carries that url's stored name. |
| Aggregate.AllFailed | YouTubeRSSViewer.py:401-404 | The tally equals the number of urls iff every fetch failed. |
| Aggregate.AllFailedMergesNothing | YouTubeRSSViewer.py:393-404 | When every fetch fails the merged list is empty. |
| Aggregate.FailedFeedAddsOnlyAnError | YouTubeRSSViewer.py:401-404 | A failing url adds exactly one to the tally and nothing to the merged list. |
| Ledger.FetchedIds | YouTubeRSSViewer.py:423 | An id is in the fetched set iff it is non-empty and some fetched video has it. |
| Ledger.Reconcile | YouTubeRSSViewer.py:423-426 | The pruned ledger is a subset of the file ledger. It holds exactly the ledger ids that were fetched again. |
| Ledger.Display | YouTubeRSSViewer.py:433 | The shown videos are exactly the fetched videos that have an id not in the ledger. |
| Ledger.DisplayKeepsOrder | YouTubeRSSViewer.py:433 | The shown videos keep the sorted order. |
| Ledger.DisplayCount | YouTubeRSSViewer.py:433 | Every copy of an unseen video is shown, and no copy of any other. |
| Ledger.ShownIsNewestFirst | YouTubeRSSViewer.py:407-433 | The screen lists the videos newest first, with undated ones last. |
| Ledger.DisplayIgnoresPruning | YouTubeRSSViewer.py:425-433 | Filtering by the pruned ledger shows the same list as filtering by the file ledger. |
| Ledger.ReconcileIsIdempotent | YouTubeRSSViewer.py:423-432 | Pruning twice with the same videos changes nothing, and the second time needs no save. |
| Ledger.ViewedIdIsHidden | YouTubeRSSViewer.py:425-433 | An id in the file ledger is never shown. |
| Viewer.FindStoredName | YouTubeRSSViewer.py:389-391 | The lookup loop with its early break computes StoredName. |
| Viewer.RelabelPosts | YouTubeRSSViewer.py:394-398 | The inner loop computes Relabel. |
| Viewer.App.constructor | YouTubeRSSViewer.py:140-157 | Start-up loads the registry, ledger and settings through the loaders, sets the limit from the settings, and leaves memory agreeing with the ledger file. |
| Viewer.App.SaveCurrentConfig | YouTubeRSSViewer.py:259-270 | The limit is set and written to config.json; nothing else changes. |
| Viewer.App.FetchSingleFeed | YouTubeRSSViewer.py:273-340 | The method, with its entry loop, returns Fetch for the current limit. |
| Viewer.App.FetchAndRelabel | YouTubeRSSViewer.py:387-404 | One pass of the loop returns that url's Contribution and whether its fetch failed. |
| Viewer.App.FetchAllVideos | YouTubeRSSViewer.py:377-409 | The method returns the newest-first sort of Merge over the registry's urls, and the error tally Failures. |
| Viewer.App.UpdateVideoList | YouTubeRSSViewer.py:420-433 | The ledger becomes the pruned file ledger. It is saved only when pruning removed something; after a successful save, memory agrees with the file. The shown videos and their check boxes are Display of the fetched videos. |
| Viewer.App.Refresh | YouTubeRSSViewer.py:414-417 | A completed refresh has the combined effect of FetchAllVideos and UpdateVideoList on the current registry, and keeps the registry and settings. |
| Viewer.App.ToggleViewed | YouTubeRSSViewer.py:477-486 | A non-empty, checked id that has a box and is not yet viewed is added to the ledger and saved. Every other call changes nothing. |
| Viewer.App.AppendFeed | YouTubeRSSViewer.py:365-366 | The registry grows by one record and is saved. |
| Viewer.App.AddFeed | YouTubeRSSViewer.py:346-373 | The url is stripped. A listed url is a duplicate and a failed fetch reports its heading; both leave all state unchanged. A successful fetch appends `{url, name}`, saves it and refreshes. |
| Viewer.App.DeleteSelectedFeed | YouTubeRSSViewer.py:554-601 | Covers no selection, an index out of range, a declined confirmation, and deletion. A deletion removes the record at the first selected index, keeps the rest in order, and saves. |
| Viewer.RefreshIsIdempotent | YouTubeRSSViewer.py:420-433 | With saves that succeed, a second refresh against the same feeds shows the same list and does not write the ledger. The first refresh writes it at most once. |
| Viewer.MarkThenRefresh | YouTubeRSSViewer.py:477-486 | With saves that succeed, and every viewed id in memory also in viewed.json, a video marked viewed is not shown by the next refresh. |
| Viewer.MarkWithFailedSave | YouTubeRSSViewer.py:477-486 | If the ledger save of a mark fails, the next refresh reads viewed.json without the id (line 422), so the video is shown again wherever its feed still lists it. |
| Scenarios.TwoFeedsOneViewed | YouTubeRSSViewer.py:377-433 | Feeds A@3, B@1 and C@2 with B viewed: the refresh shows A then C, each under its stored channel name, and keeps B in the ledger. |
| Scenarios.NotFoundFeed | YouTubeRSSViewer.py:295-298 | A feed answering 404 gives an HTTP error, counts one failure, shows nothing, and prunes a stale ledger id. |

## Left out

- Widgets, message boxes, the status label, fonts and colours are not modelled. Also left out:
  - opening a video link;
  - the feeds-list window;
  - disabling the delete button;
  - the listbox updates.
- Threads are not modelled. A refresh runs to completion: `Refresh` performs the fetch thread and the `root.after` call back to back.
- Viewer.App.AddFeed: one network snapshot and one `saveOk` serve both the add's fetch and the refresh that follows. The program fetches the url twice and saves twice, and each of those can come out differently.
- Typing in the spinbox changes the limit variable read at line 285 without calling save_current_config. The model changes `limit` only through `SaveCurrentConfig`, which also writes the file.
- The constructor models `__init__` without its first refresh (line 166). A caller invokes `Refresh`.
- The limit is read from the spinbox variable. A `tk.TclError` while reading it, which falls back to 15 (lines 286-288), is not modelled, and neither is one while saving (line 267).
- File I/O and JSON decoding are not modelled. A missing, unreadable or undecodable file is `None`.
- viewed.json is represented by its set of keys. Only the keys are ever read. When nothing is pruned, the values are written back as loaded (lines 432 and 483), and the model does not track them. A viewed.json that is not an object is not modelled.
- Python equality between distinct JSON number kinds is not modelled: comparing a url `1` with `1.0` or `true` is true in Python, but the model compares JSON values structurally.
- Feeds.Fetch: the `except Exception` around the date conversion (lines 318-321) is not modelled. Once the parser has given a structured time, the model assumes the conversion succeeds.
- The feed parser and HTTP are inputs: `Parse` is feedparser's output. Its bozo warning (lines 291-293) only prints.
- `print` and traceback output are omitted.
- The in-place updates of post dictionaries are not modelled: relabelling at line 397 mutates dicts shared with the fetch result. Posts are values here, and the aliasing is unobservable in the program.
- The error headings are a datatype, not the f-string texts ("HTTP Error 404", "Empty/Failed Parse <url>", "Error Parsing <url>").
- Ordering.SortNewestFirst: models the intended sort. The sort as written is `Ordering.SortAsWritten`, an insertion sort over the raising comparison `Ordering.CompareKeys` (see Findings). Python's sort is not an insertion sort. The raise condition still carries over, because any comparison sort of two or more posts compares every post at least once. On TypeError the source leaves the list in an order Python does not specify, which the model does not describe.

## Findings

| source | as written | input that shows it | evidently intended | confidence | as-written member | corrected member |
|---|---|---|---|---|---|---|
| YouTubeRSSViewer.py:407 | The sort key `x.get('published_dt', datetime.min)` is None for an undated post, because every post has the key. So sorting two or more posts with one undated raises TypeError; the error is printed and the list stays in an unspecified order. | Two posts: one with a publish time, one without. | An undated post ranks as the oldest time (`datetime.min`), and the list is sorted newest first and stably. | high; not executed | Ordering.SortAsWrittenRaises | Ordering.SortIsNewestFirst |

`Ordering.UndatedPostBreaksSort` exhibits the failing two-post input. The corrected order `Ordering.SortNewestFirst` is the one the rest of the model uses. It is also proved a permutation (`Ordering.SortPermutes`) and stable (`Ordering.SortIsStable`).
