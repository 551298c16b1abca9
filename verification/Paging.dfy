/** The case list's cursor walk: LIMIT 51, the filter after it, and the handler's "more than 50" test. */
module Paging {
  import opened Ordering

  const PAGE := 50
  const LIMIT := 51

  function Take(n: nat, ids: seq<string>): seq<string> {
    if |ids| <= n then ids else ids[..n]
  }

  /** The rows the filter lets through. */
  function Filter(v: string -> bool, ids: seq<string>): seq<string> {
    if ids == [] then [] else (if v(ids[0]) then [ids[0]] else []) + Filter(v, ids[1..])
  }

  /** The ids beyond the cursor, as ORDER BY public_id gives them. */
  ghost function Beyond(ids: set<string>, after: string): seq<string> {
    Sorted(set id | id in ids && Less(after, id))
  }

  datatype Page = Page(data: seq<string>, next: string)

  /** What the list handler answers from the filtered rows. */
  function Answer(rows: seq<string>): Page {
    if |rows| > PAGE then Page(rows[..PAGE], rows[PAGE - 1]) else Page(rows, "")
  }

  ghost function ListPage(ids: set<string>, v: string -> bool, after: string): Page {
    Answer(Filter(v, Take(LIMIT, Beyond(ids, after))))
  }

  /** A cursor is the last id of its page, so it is an id of the case. */
  lemma CursorIsListed(ids: set<string>, v: string -> bool, after: string)
    requires ListPage(ids, v, after).next != ""
    ensures var page := ListPage(ids, v, after);
      |page.data| == 50 && page.next == page.data[49] && page.next in ids && Less(after, page.next)
  {
    BeyondEnumerates(ids, after);
    FilterKeeps(v, Take(LIMIT, Beyond(ids, after)));
    assert forall id | id in Take(LIMIT, Beyond(ids, after)) :: id in Beyond(ids, after);
  }

  lemma {:induction false} FilterKeeps(v: string -> bool, ids: seq<string>)
    ensures forall id | id in Filter(v, ids) :: id in ids && v(id)
  {
    if ids == [] {
    } else {
      FilterKeeps(v, ids[1..]);
    }
  }

  lemma {:induction false} FilterExactly(v: string -> bool, ids: seq<string>)
    requires Increasing(ids)
    ensures Increasing(Filter(v, ids))
    ensures forall id :: id in Filter(v, ids) <==> id in ids && v(id)
  {
    if ids == [] {
    } else {
      FilterExactly(v, ids[1..]);
      var rest := Filter(v, ids[1..]);
      assert forall id :: id in ids <==> id == ids[0] || id in ids[1..];
      forall j | 0 <= j < |rest| ensures Less(ids[0], rest[j]) {
        assert rest[j] in ids[1..];
        var k :| 0 <= k < |ids[1..]| && ids[1..][k] == rest[j];
      }
    }
  }

  /** The ids between a cursor and an id. */
  function Between(ids: set<string>, after: string, id: string): set<string> {
    set x | x in ids && Less(after, x) && Less(x, id)
  }

  /** The window of one query, exactly: the ids beyond the cursor with fewer than 51 others in between. */
  lemma WindowExactly(ids: set<string>, after: string, id: string)
    ensures id in Take(LIMIT, Beyond(ids, after)) <==> id in ids && Less(after, id) && |Between(ids, after, id)| < 51
  {
    var all := Beyond(ids, after);
    BeyondEnumerates(ids, after);
    if k :| 0 <= k < |all| && all[k] == id {
      PlaceCounts(ids, after, k);
      if k < LIMIT { assert Take(LIMIT, all)[k] == id; }
      if j :| 0 <= j < |Take(LIMIT, all)| && Take(LIMIT, all)[j] == id {
        LessTotal(id, id);
        assert all[j] == id && j == k;
      }
    }
  }

  lemma PlaceCounts(ids: set<string>, after: string, k: nat)
    requires k < |Beyond(ids, after)|
    ensures |Between(ids, after, Beyond(ids, after)[k])| == k
  {
    var all := Beyond(ids, after);
    BeyondEnumerates(ids, after);
    var before := Between(ids, after, all[k]);
    assert forall j | 0 <= j < k :: all[..k][j] == all[j];
    assert forall j | 0 <= j < k :: all[j] in all[..k];
    forall x ensures x in all[..k] <==> x in before {
      if x in all && x !in all[..k] {
        var j :| 0 <= j < |all| && all[j] == x;
        LessTotal(all[k], all[j]);
      }
    }
    SortedUnique(all[..k], before);
    SortedEnumerates(before);
  }

  datatype Walked = Walked(data: seq<string>, ended: bool)

  /** A client following next_cursor; each page sees the case as it is by then. */
  ghost function Walk(snapshots: seq<set<string>>, v: string -> bool, after: string): Walked {
    if snapshots == [] then Walked([], false)
    else
      var page := ListPage(snapshots[0], v, after);
      if page.next == "" then Walked(page.data, true)
      else
        var rest := Walk(snapshots[1..], v, page.next);
        Walked(page.data + rest.data, rest.ended)
  }

  lemma {:induction false} FilterAll(v: string -> bool, ids: seq<string>)
    requires forall id | id in ids :: v(id)
    ensures Filter(v, ids) == ids
  {
    if ids == [] {
    } else {
      FilterAll(v, ids[1..]);
    }
  }

  lemma {:induction false} FilterShort(v: string -> bool, ids: seq<string>)
    ensures |Filter(v, ids)| <= |ids|
    ensures |Filter(v, ids)| == |ids| ==> forall id | id in ids :: v(id)
  {
    if ids == [] {
    } else {
      FilterShort(v, ids[1..]);
      assert forall id :: id in ids <==> id == ids[0] || id in ids[1..];
    }
  }

  lemma {:induction false} FilterAppend(v: string -> bool, a: seq<string>, b: seq<string>)
    ensures Filter(v, a + b) == Filter(v, a) + Filter(v, b)
  {
    if a == [] {
      assert a + b == b;
    } else {
      var whole := a + b;
      var head := if v(a[0]) then [a[0]] else [];
      assert whole[0] == a[0] && whole[1..] == a[1..] + b;
      FilterAppend(v, a[1..], b);
      assert Filter(v, whole) == head + (Filter(v, a[1..]) + Filter(v, b)) == (head + Filter(v, a[1..])) + Filter(v, b);
    }
  }

  lemma BeyondEnumerates(ids: set<string>, after: string)
    ensures Increasing(Beyond(ids, after))
    ensures forall id :: id in Beyond(ids, after) <==> id in ids && Less(after, id)
  {
    SortedEnumerates(set id | id in ids && Less(after, id));
  }

  /** Moving the cursor to the 50th id leaves the ids from the 51st on. */
  lemma BeyondNext(ids: set<string>, after: string)
    requires |Beyond(ids, after)| >= PAGE
    ensures Beyond(ids, Beyond(ids, after)[PAGE - 1]) == Beyond(ids, after)[PAGE..]
  {
    var all := Beyond(ids, after);
    var next := all[PAGE - 1];
    BeyondEnumerates(ids, after);
    forall k | PAGE <= k < |all| ensures all[k] in all[PAGE..] { assert all[PAGE..][k - PAGE] == all[k]; }
    forall id
      ensures id in all[PAGE..] <==> id in ids && Less(next, id)
    {
      if id in all[PAGE..] {
        var k :| PAGE <= k < |all| && all[k] == id;
      } else if id in ids && Less(next, id) {
        LessTransitive(after, next, id);
        var k :| 0 <= k < |all| && all[k] == id;
        LessTotal(next, id);
      }
    }
    SortedUnique(all[PAGE..], set id | id in ids && Less(next, id));
  }

  /** A page with nothing hidden: at most 50 ids and no cursor, or the first 50 and the 50th as cursor. */
  lemma OpenPage(ids: set<string>, v: string -> bool, after: string)
    requires forall id | id in ids :: v(id)
    ensures var all := Beyond(ids, after);
      ListPage(ids, v, after) == if |all| > PAGE then Page(all[..PAGE], all[PAGE - 1]) else Page(all, "")
  {
    var all := Beyond(ids, after);
    BeyondEnumerates(ids, after);
    FilterAll(v, Take(LIMIT, all));
  }

  /** Stable traversal: with nothing hidden, a finished walk lists ids in strictly increasing order, so each once, all of them
      from the case, and among them every id that was there throughout, even if others were inserted meanwhile. */
  lemma {:induction false} StableTraversal(snapshots: seq<set<string>>, v: string -> bool, after: string)
    requires forall s, id | s in snapshots && id in s :: v(id)
    ensures var w := Walk(snapshots, v, after);
      && Increasing(w.data)
      && (forall id | id in w.data :: Less(after, id) && exists s :: s in snapshots && id in s)
      && (w.ended ==> forall id | (forall s | s in snapshots :: id in s) && Less(after, id) :: id in w.data)
  {
    if snapshots == [] {
    } else {
      var ids, rest := snapshots[0], snapshots[1..];
      var all := Beyond(ids, after);
      BeyondEnumerates(ids, after);
      OpenPage(ids, v, after);
      if |all| > PAGE {
        var next := all[PAGE - 1];
        StableTraversal(rest, v, next);
        var w := Walk(rest, v, next);
        assert forall s :: s in snapshots <==> s == ids || s in rest;
        forall id | id in w.data
          ensures Less(after, id) && exists s :: s in snapshots && id in s
        {
          LessTransitive(after, next, id);
          var s :| s in rest && id in s;
          assert s in snapshots;
        }
        PagesIncrease(all[..PAGE], w.data);
        forall id | w.ended && (forall s | s in snapshots :: id in s) && Less(after, id)
          ensures id in all[..PAGE] + w.data
        {
          FoundNowOrLater(ids, after, id);
        }
      }
    }
  }

  lemma PagesIncrease(first: seq<string>, more: seq<string>)
    requires first != [] && Increasing(first) && Increasing(more)
    requires forall id | id in more :: Less(first[|first| - 1], id)
    ensures Increasing(first + more)
  {
    forall i, j | 0 <= i < |first| && 0 <= j < |more|
      ensures Less(first[i], more[j])
    {
      assert more[j] in more;
      if i < |first| - 1 { LessTransitive(first[i], first[|first| - 1], more[j]); }
    }
  }

  lemma FoundNowOrLater(ids: set<string>, after: string, id: string)
    requires |Beyond(ids, after)| >= PAGE && id in ids && Less(after, id)
    ensures id in Beyond(ids, after)[..PAGE] || Less(Beyond(ids, after)[PAGE - 1], id)
  {
    BeyondEnumerates(ids, after);
    var all := Beyond(ids, after);
    var k :| 0 <= k < |all| && all[k] == id;
    if k < PAGE { assert all[..PAGE][k] == id; }
  }

  /** The walk over data that does not change, in terms of the ids still ahead. */
  function WalkAll(ids: seq<string>, v: string -> bool): seq<string> {
    var rows := Filter(v, Take(LIMIT, ids));
    if |rows| > PAGE && |ids| > PAGE then rows[..PAGE] + WalkAll(ids[PAGE..], v) else rows
  }

  function Pages(ids: seq<string>, v: string -> bool): nat {
    if |Filter(v, Take(LIMIT, ids))| > PAGE && |ids| > PAGE then 1 + Pages(ids[PAGE..], v) else 1
  }

  /** A full page has nothing hidden in its window. */
  lemma FullPage(ids: seq<string>, v: string -> bool)
    ensures |Filter(v, Take(LIMIT, ids))| > PAGE <==> |ids| > PAGE && forall id | id in ids[..LIMIT] :: v(id)
    ensures |Filter(v, Take(LIMIT, ids))| > PAGE ==> Filter(v, Take(LIMIT, ids)) == ids[..LIMIT]
  {
    FilterShort(v, Take(LIMIT, ids));
    if |ids| > PAGE {
      assert Take(LIMIT, ids) == ids[..LIMIT];
      if forall id | id in ids[..LIMIT] :: v(id) { FilterAll(v, ids[..LIMIT]); }
    }
  }

  /** The first page over unchanging data. */
  lemma FixedPage(ids: set<string>, v: string -> bool, after: string)
    ensures var all, page := Beyond(ids, after), ListPage(ids, v, after);
      if |Filter(v, Take(LIMIT, all))| > PAGE then
        |all| > PAGE && page == Page(all[..PAGE], all[PAGE - 1]) && page.next != "" && Filter(v, Take(LIMIT, all))[..PAGE] == all[..PAGE]
      else page == Page(Filter(v, Take(LIMIT, all)), "")
  {
    var all := Beyond(ids, after);
    FullPage(all, v);
    BeyondEnumerates(ids, after);
    if |Filter(v, Take(LIMIT, all))| > PAGE {
      assert all[PAGE - 1] in all;
      assert all[..LIMIT][..PAGE] == all[..PAGE];
    }
  }

  /** Given that many pages, the client's walk over unchanging data ends and is WalkAll. */
  lemma {:induction false} FixedWalk(ids: set<string>, v: string -> bool, after: string, snapshots: seq<set<string>>)
    requires (forall s | s in snapshots :: s == ids) && |snapshots| >= Pages(Beyond(ids, after), v)
    ensures Walk(snapshots, v, after) == Walked(WalkAll(Beyond(ids, after), v), true)
    decreases |snapshots|
  {
    var all := Beyond(ids, after);
    FixedPage(ids, v, after);
    assert snapshots[0] in snapshots && forall s | s in snapshots[1..] :: s in snapshots;
    if |Filter(v, Take(LIMIT, all))| > PAGE {
      BeyondNext(ids, after);
      FixedWalk(ids, v, all[PAGE - 1], snapshots[1..]);
    }
  }

  /** With nothing hidden and nothing changing, the walk lists everything in max(1, ceil(n/50)) pages. */
  lemma {:induction false} OpenWalk(ids: seq<string>, v: string -> bool)
    requires forall id | id in ids :: v(id)
    ensures WalkAll(ids, v) == ids
    ensures Pages(ids, v) == if ids == [] then 1 else (|ids| + 49) / 50
  {
    FilterAll(v, Take(LIMIT, ids));
    if |ids| > PAGE { OpenWalk(ids[PAGE..], v); }
  }

  /** With hidden rows the walk still lists a prefix of what is visible. */
  lemma {:induction false} HiddenWalkIsPrefix(ids: seq<string>, v: string -> bool)
    ensures WalkAll(ids, v) <= Filter(v, ids)
  {
    FullPage(ids, v);
    if |Filter(v, Take(LIMIT, ids))| > PAGE {
      HiddenWalkIsPrefix(ids[PAGE..], v);
      FilterAll(v, ids[..PAGE]);
      FilterAppend(v, ids[..PAGE], ids[PAGE..]);
      assert ids[..PAGE] + ids[PAGE..] == ids;
    } else {
      FilterAppend(v, Take(LIMIT, ids), ids[|Take(LIMIT, ids)|..]);
      assert Take(LIMIT, ids) + ids[|Take(LIMIT, ids)|..] == ids;
    }
  }

  /** The number of ids before the first hidden one. */
  function FirstHidden(ids: seq<string>, v: string -> bool): (h: nat)
    ensures h <= |ids| && (forall i | 0 <= i < h :: v(ids[i])) && (h < |ids| ==> !v(ids[h]))
  {
    if ids == [] || !v(ids[0]) then 0 else 1 + FirstHidden(ids[1..], v)
  }

  /** Windows overlap by one row, so the row at index h is first read in the window that starts here. */
  function WindowStart(h: nat): nat {
    if h == 0 then 0 else (h - 1) / PAGE * PAGE
  }

  lemma WindowStartStep(h: nat)
    ensures h < LIMIT ==> WindowStart(h) == 0
    ensures h >= LIMIT ==> WindowStart(h) == WindowStart(h - PAGE) + PAGE
  {}

  /** Where the first window with a hidden row in it ends; the walk reads no row from there on. */
  function LastRead(ids: seq<string>, v: string -> bool): (n: nat)
    ensures n <= |ids|
  {
    var h := FirstHidden(ids, v);
    if h < |ids| && WindowStart(h) + LIMIT < |ids| then WindowStart(h) + LIMIT else |ids|
  }

  /** Exactly what a walk with hidden rows leaves out: everything beyond the window of the first hidden row. So the walk lists
      all that is visible if and only if nothing visible lies there. */
  lemma {:induction false} HiddenWalkExact(ids: seq<string>, v: string -> bool)
    ensures WalkAll(ids, v) == Filter(v, ids[..LastRead(ids, v)])
    ensures WalkAll(ids, v) == Filter(v, ids) <==> forall id | id in ids[LastRead(ids, v)..] :: !v(id)
  {
    WalkReads(ids, v);
    var n := LastRead(ids, v);
    FilterAppend(v, ids[..n], ids[n..]);
    assert ids[..n] + ids[n..] == ids;
    FilterEmpty(v, ids[n..]);
  }

  lemma {:induction false} FilterEmpty(v: string -> bool, ids: seq<string>)
    ensures Filter(v, ids) == [] <==> forall id | id in ids :: !v(id)
  {
    if ids == [] {
    } else {
      FilterEmpty(v, ids[1..]);
      assert forall id :: id in ids <==> id == ids[0] || id in ids[1..];
    }
  }

  /** The walk stops with a window in which a row is hidden, and with the rows. */
  lemma LastWindow(ids: seq<string>, v: string -> bool)
    requires |ids| <= PAGE || (FirstHidden(ids, v) < LIMIT && FirstHidden(ids, v) < |ids|)
    ensures WalkAll(ids, v) == Filter(v, ids[..LastRead(ids, v)])
  {
    FullPage(ids, v);
    var h, n := FirstHidden(ids, v), LastRead(ids, v);
    WindowStartStep(h);
    if |ids| <= PAGE {
      assert n == |ids| && ids[..n] == ids;
    } else {
      assert n == LIMIT && ids[..LIMIT][h] == ids[h];
      assert Take(LIMIT, ids) == ids[..LIMIT];
    }
  }

  /** Before that each page adds its fifty rows. */
  lemma FullWindow(ids: seq<string>, v: string -> bool)
    requires |ids| > PAGE && (FirstHidden(ids, v) >= LIMIT || FirstHidden(ids, v) == |ids|)
    ensures WalkAll(ids, v) == ids[..PAGE] + WalkAll(ids[PAGE..], v)
    ensures forall id | id in ids[..PAGE] :: v(id)
  {
    FullPage(ids, v);
    assert forall id | id in ids[..LIMIT] :: v(id);
    assert ids[..LIMIT][..PAGE] == ids[..PAGE];
  }

  lemma {:induction false} WalkReads(ids: seq<string>, v: string -> bool)
    ensures WalkAll(ids, v) == Filter(v, ids[..LastRead(ids, v)])
  {
    var h, n := FirstHidden(ids, v), LastRead(ids, v);
    if |ids| <= PAGE || (h < LIMIT && h < |ids|) {
      LastWindow(ids, v);
    } else {
      FullWindow(ids, v);
      WalkReads(ids[PAGE..], v);
      HiddenLater(ids, v);
      FilterAll(v, ids[..PAGE]);
      FilterAppend(v, ids[..PAGE], ids[PAGE..n]);
      assert ids[..n] == ids[..PAGE] + ids[PAGE..n];
      assert ids[PAGE..][..n - PAGE] == ids[PAGE..n];
    }
  }

  lemma HiddenLater(ids: seq<string>, v: string -> bool)
    requires |ids| > PAGE && FirstHidden(ids, v) >= PAGE
    requires FirstHidden(ids, v) >= LIMIT || FirstHidden(ids, v) == |ids|
    ensures FirstHidden(ids[PAGE..], v) == FirstHidden(ids, v) - PAGE
    ensures LastRead(ids[PAGE..], v) == LastRead(ids, v) - PAGE && LastRead(ids, v) >= PAGE
  {
    var later := ids[PAGE..];
    var h, h' := FirstHidden(ids, v), FirstHidden(later, v);
    assert forall i | 0 <= i < |later| :: later[i] == ids[PAGE + i];
    assert h' == h - PAGE by {
      assert h' < |later| ==> !v(ids[PAGE + h']);
      assert h < |ids| ==> !v(later[h - PAGE]);
    }
    WindowStartStep(h);
  }
}
