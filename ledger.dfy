/** The viewed ledger as update_video_list reconciles it, and the list of
    videos it leaves on screen. A ledger is the set of ids in viewed.json
    (only the keys are read; the values are written back as loaded). */
module Ledger {
  import opened Seqs
  import opened Feeds
  import opened Ordering

  /** `{video['id'] for video in videos if video.get('id')}` */
  function FetchedIds(vs: seq<Post>): (ids: set<string>)
    ensures forall x :: x in ids <==> x != "" && exists k :: 0 <= k < |vs| && vs[k].id == x
  {
    set k | 0 <= k < |vs| && vs[k].id != "" :: vs[k].id
  }

  /** The pruned ledger: the ids of the file ledger that were fetched again. */
  function Reconcile(file: set<string>, vs: seq<Post>): (r: set<string>)
    ensures r <= file
    ensures forall x :: x in r <==> x in file && x in FetchedIds(vs)
  {
    file * FetchedIds(vs)
  }

  /** update_video_list writes viewed.json only when pruning removed something. */
  predicate NeedsSave(file: set<string>, vs: seq<Post>) {
    Reconcile(file, vs) != file
  }

  predicate Unseen(ledger: set<string>, p: Post) {
    p.id != "" && p.id !in ledger
  }

  /** `[v for v in videos if v.get('id') and v['id'] not in viewed]` */
  function Display(vs: seq<Post>, ledger: set<string>): (shown: seq<Post>)
    ensures |shown| <= |vs|
    ensures forall k :: 0 <= k < |shown| ==> shown[k] in vs && shown[k].id != "" && shown[k].id !in ledger
    ensures forall k :: 0 <= k < |vs| && vs[k].id != "" && vs[k].id !in ledger ==> vs[k] in shown
  {
    Filter(vs, p => Unseen(ledger, p))
  }

  /** The shown videos keep the order of the sorted list. */
  lemma DisplayKeepsOrder(vs: seq<Post>, ledger: set<string>)
    ensures Subsequence(Display(vs, ledger), vs)
  {
    FilterIsSubsequence(vs, p => Unseen(ledger, p));
  }

  /** Every copy of an unseen video in the fetched list is shown, and no copy of any other. */
  lemma DisplayCount(vs: seq<Post>, ledger: set<string>, p: Post)
    ensures multiset(Display(vs, ledger))[p] == if Unseen(ledger, p) then multiset(vs)[p] else 0
  {
    FilterCount(vs, q => Unseen(ledger, q), p);
  }

  /** The screen lists the videos newest first, undated ones last. */
  lemma ShownIsNewestFirst(vs: seq<Post>, ledger: set<string>)
    ensures NewestFirst(Display(SortNewestFirst(vs), ledger))
  {
    DisplayKeepsOrder(SortNewestFirst(vs), ledger);
    SortIsNewestFirst(vs);
    SubsequenceKeepsOrder(Display(SortNewestFirst(vs), ledger), SortNewestFirst(vs));
  }

  /** Filtering by the pruned ledger shows what filtering by the file ledger would:
      a pruned id belongs to no fetched video. */
  lemma DisplayIgnoresPruning(vs: seq<Post>, file: set<string>)
    ensures Display(vs, Reconcile(file, vs)) == Display(vs, file)
  {
    var pruned := Reconcile(file, vs);
    forall k | 0 <= k < |vs| ensures Unseen(pruned, vs[k]) == Unseen(file, vs[k]) {
      if vs[k].id != "" {
        assert vs[k].id in FetchedIds(vs);
      }
    }
    FilterCongruent(vs, p => Unseen(pruned, p), p => Unseen(file, p));
  }

  /** Reconciling a second time with the same videos changes nothing and writes nothing. */
  lemma ReconcileIsIdempotent(file: set<string>, vs: seq<Post>)
    ensures Reconcile(Reconcile(file, vs), vs) == Reconcile(file, vs)
    ensures !NeedsSave(Reconcile(file, vs), vs)
  {
  }

  /** An id in the file ledger is never shown, whether or not the refresh prunes it. */
  lemma ViewedIdIsHidden(vs: seq<Post>, file: set<string>, id: string)
    requires id in file
    ensures forall k :: 0 <= k < |Display(vs, Reconcile(file, vs))| ==> Display(vs, Reconcile(file, vs))[k].id != id
  {
    DisplayIgnoresPruning(vs, file);
  }
}
