/** The newest-first order of the merged video list: Python's stable
    `list.sort(key=published, reverse=True)`, with an undated post ranking as
    the oldest possible time (the `datetime.min` default the sort key names). */
module Ordering {
  import opened Options
  import opened Seqs
  import opened Feeds

  /** Publish time `a` ranks at or above `b`; no time ranks below every time. */
  predicate NotOlder(a: Option<int>, b: Option<int>) {
    b.None? || (a.Some? && a.value >= b.value)
  }

  lemma NotOlderIsTotalPreorder(a: Option<int>, b: Option<int>, c: Option<int>)
    ensures NotOlder(a, a)
    ensures NotOlder(a, b) || NotOlder(b, a)
    ensures NotOlder(a, b) && NotOlder(b, c) ==> NotOlder(a, c)
    ensures NotOlder(a, None)
    ensures b.Some? ==> !NotOlder(None, b)
  {
  }

  ghost predicate NewestFirst(s: seq<Post>) {
    forall i, j :: 0 <= i < j < |s| ==> NotOlder(s[i].publishedAt, s[j].publishedAt)
  }

  /** The posts of `s` with publish time `t`, in their order in `s`. */
  function Dated(s: seq<Post>, t: Option<int>): seq<Post> {
    if s == [] then []
    else (if s[0].publishedAt == t then [s[0]] else []) + Dated(s[1..], t)
  }

  /** `p` placed before the first post of `s` that it is not older than. */
  function Insert(p: Post, s: seq<Post>): seq<Post> {
    if s == [] || NotOlder(p.publishedAt, s[0].publishedAt) then [p] + s
    else [s[0]] + Insert(p, s[1..])
  }

  /** The list after the sort at fetch_all_videos_thread's end. */
  function SortNewestFirst(s: seq<Post>): seq<Post> {
    if s == [] then [] else Insert(s[0], SortNewestFirst(s[1..]))
  }

  lemma {:induction false} InsertPermutes(p: Post, s: seq<Post>)
    ensures multiset(Insert(p, s)) == multiset{p} + multiset(s)
  {
    if s != [] && !NotOlder(p.publishedAt, s[0].publishedAt) {
      InsertPermutes(p, s[1..]);
      assert s == [s[0]] + s[1..];
    }
  }

  lemma {:induction false} InsertKeepsOrder(p: Post, s: seq<Post>)
    requires NewestFirst(s)
    ensures NewestFirst(Insert(p, s))
  {
    if s == [] {
    } else if NotOlder(p.publishedAt, s[0].publishedAt) {
      forall j | 0 < j < |s| ensures NotOlder(p.publishedAt, s[j].publishedAt) {
        NotOlderIsTotalPreorder(p.publishedAt, s[0].publishedAt, s[j].publishedAt);
      }
    } else {
      var t := s[1..];
      assert NewestFirst(t);
      InsertKeepsOrder(p, t);
      InsertPermutes(p, t);
      var r := Insert(p, t);
      forall j | 0 <= j < |r| ensures NotOlder(s[0].publishedAt, r[j].publishedAt) {
        assert r[j] in multiset(r);
        if r[j] == p {
          NotOlderIsTotalPreorder(s[0].publishedAt, p.publishedAt, p.publishedAt);
        } else {
          assert r[j] in multiset(t);
          var k :| 0 <= k < |t| && t[k] == r[j];
          assert s[k + 1] == r[j];
        }
      }
    }
  }

  lemma {:induction false} InsertDated(p: Post, s: seq<Post>, t: Option<int>)
    ensures Dated(Insert(p, s), t) == (if p.publishedAt == t then [p] else []) + Dated(s, t)
  {
    if s == [] || NotOlder(p.publishedAt, s[0].publishedAt) {
      assert ([p] + s)[1..] == s;
    } else {
      InsertDated(p, s[1..], t);
      assert ([s[0]] + Insert(p, s[1..]))[1..] == Insert(p, s[1..]);
      // s[0] is strictly newer than p, so at most one of them has time t
      assert s[0].publishedAt != p.publishedAt;
    }
  }

  /** The sort is a permutation of the merged list. */
  lemma {:induction false} SortPermutes(s: seq<Post>)
    ensures multiset(SortNewestFirst(s)) == multiset(s)
  {
    if s != [] {
      SortPermutes(s[1..]);
      InsertPermutes(s[0], SortNewestFirst(s[1..]));
      assert s == [s[0]] + s[1..];
    }
  }

  /** The sorted list is ordered by publish time, newest first, undated last. */
  lemma {:induction false} SortIsNewestFirst(s: seq<Post>)
    ensures NewestFirst(SortNewestFirst(s))
  {
    if s != [] {
      SortIsNewestFirst(s[1..]);
      InsertKeepsOrder(s[0], SortNewestFirst(s[1..]));
    }
  }

  /** Stability: the posts sharing one publish time keep their merge order. */
  lemma {:induction false} SortIsStable(s: seq<Post>, t: Option<int>)
    ensures Dated(SortNewestFirst(s), t) == Dated(s, t)
  {
    if s != [] {
      SortIsStable(s[1..], t);
      InsertDated(s[0], SortNewestFirst(s[1..]), t);
    }
  }

  /** A newest-first list stays newest-first when elements are deleted from it. */
  lemma {:induction false} SubsequenceKeepsOrder(a: seq<Post>, b: seq<Post>)
    requires Subsequence(a, b) && NewestFirst(b)
    ensures NewestFirst(a)
    decreases |b|
  {
    if a != [] {
      assert NewestFirst(b[1..]) by {
        forall i, j | 0 <= i < j < |b[1..]|
          ensures NotOlder(b[1..][i].publishedAt, b[1..][j].publishedAt)
        {
          assert b[1..][i] == b[i + 1] && b[1..][j] == b[j + 1];
        }
      }
      if a[0] == b[0] && Subsequence(a[1..], b[1..]) {
        SubsequenceKeepsOrder(a[1..], b[1..]);
        SubsequenceMembers(a[1..], b[1..]);
        forall i, j | 0 <= i < j < |a| ensures NotOlder(a[i].publishedAt, a[j].publishedAt) {
          assert a[j] == a[1..][j - 1];
          var m :| 0 <= m < |b[1..]| && b[1..][m] == a[j];
          assert b[m + 1] == a[j];
          if i > 0 {
            assert a[i] == a[1..][i - 1];
          }
        }
      } else {
        SubsequenceKeepsOrder(a, b[1..]);
      }
    }
  }

  // ------------------------------------------------------------- as written

  /** What the sort statement does to the list: either sorts it, or raises TypeError
      (caught and printed) leaving the list in an order the language does not specify. */
  datatype SortOutcome = Sorted(posts: seq<Post>) | TypeErrorRaised

  /** Python's comparison of two sort keys. The source's key is
      `x.get('published_dt', datetime.min)`, but every post has the key, so an undated
      post's key is None, and comparing None with anything raises (None here). */
  function CompareKeys(a: Option<int>, b: Option<int>): (r: Option<bool>)
    ensures r.None? <==> a.None? || b.None?
    ensures r.Some? ==> (r.value <==> NotOlder(a, b))
  {
    if a.None? || b.None? then None else Some(a.value >= b.value)
  }

  /** Insertion of `p` into `s` with the raising comparison: each comparison may raise. */
  function InsertAsWritten(p: Post, s: seq<Post>): SortOutcome {
    if s == [] then Sorted([p])
    else match CompareKeys(p.publishedAt, s[0].publishedAt)
      case None => TypeErrorRaised
      case Some(notOlder) =>
        if notOlder then Sorted([p] + s)
        else match InsertAsWritten(p, s[1..])
          case TypeErrorRaised => TypeErrorRaised
          case Sorted(r) => Sorted([s[0]] + r)
  }

  /** The source's stable sort with the raising comparison. Any comparison sort compares
      every element of a list of two or more at least once. */
  function SortAsWritten(s: seq<Post>): SortOutcome {
    if s == [] then Sorted([])
    else match SortAsWritten(s[1..])
      case TypeErrorRaised => TypeErrorRaised
      case Sorted(r) => InsertAsWritten(s[0], r)
  }

  predicate AllDated(s: seq<Post>) {
    forall k :: 0 <= k < |s| ==> s[k].publishedAt.Some?
  }

  lemma {:induction false} InsertAsWrittenDated(p: Post, s: seq<Post>)
    requires p.publishedAt.Some? && AllDated(s)
    ensures InsertAsWritten(p, s) == Sorted(Insert(p, s))
  {
    if s != [] && !NotOlder(p.publishedAt, s[0].publishedAt) {
      assert AllDated(s[1..]) by {
        forall k | 0 <= k < |s[1..]| ensures s[1..][k].publishedAt.Some? {
          assert s[1..][k] == s[k + 1];
        }
      }
      InsertAsWrittenDated(p, s[1..]);
    }
  }

  lemma SortedAllDated(s: seq<Post>)
    requires AllDated(s)
    ensures AllDated(SortNewestFirst(s))
  {
    SortPermutes(s);
    var r := SortNewestFirst(s);
    forall k | 0 <= k < |r| ensures r[k].publishedAt.Some? {
      assert r[k] in multiset(s);
      var j :| 0 <= j < |s| && s[j] == r[k];
    }
  }

  /** Derived from the comparison: the sort as written raises exactly when the list has two
      or more posts and one is undated; otherwise it gives the newest-first order. */
  lemma {:induction false} SortAsWrittenRaises(s: seq<Post>)
    ensures SortAsWritten(s).TypeErrorRaised? <==> |s| >= 2 && !AllDated(s)
    ensures SortAsWritten(s).Sorted? ==> SortAsWritten(s).posts == SortNewestFirst(s)
  {
    if s != [] {
      var rest := s[1..];
      SortAsWrittenRaises(rest);
      assert forall k :: 0 <= k < |rest| ==> rest[k] == s[k + 1];
      if SortAsWritten(rest).Sorted? {
        var r := SortNewestFirst(rest);
        assert SortAsWritten(rest).posts == r;
        if AllDated(rest) {
          SortedAllDated(rest);
          if s[0].publishedAt.Some? {
            InsertAsWrittenDated(s[0], r);
            assert AllDated(s) by {
              forall k | 0 <= k < |s| ensures s[k].publishedAt.Some? {
                if k > 0 { assert s[k] == rest[k - 1]; }
              }
            }
          } else if rest != [] {
            assert |r| == |rest| by { SortPermutes(rest); assert |multiset(r)| == |multiset(rest)|; }
          }
        } else {
          assert |rest| == 1 && r == [rest[0]];
          assert !AllDated(s) by { assert s[1] == rest[0]; }
        }
      } else {
        assert !AllDated(s) by {
          var k :| 0 <= k < |rest| && rest[k].publishedAt.None?;
          assert s[k + 1] == rest[k];
        }
      }
    }
  }

  /** One dated and one undated post: the source's sort raises instead of ranking the undated
      post last, which the corrected order does. */
  lemma UndatedPostBreaksSort(dated: Post, undated: Post)
    requires dated.publishedAt.Some? && undated.publishedAt.None?
    ensures SortAsWritten([undated, dated]) == TypeErrorRaised
    ensures SortNewestFirst([undated, dated]) == [dated, undated]
  {
    assert [undated, dated][1..] == [dated];
    assert [dated][1..] == [];
    assert SortNewestFirst([dated]) == [dated];
    assert Insert(undated, [dated]) == [dated] + Insert(undated, []);
  }
}
