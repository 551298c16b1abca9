/** ORDER BY public_id: the order on ids and the sorted enumeration of a set of them. */
module Ordering {

  /** The order of public_id > $5 and of ORDER BY public_id. */
  predicate Less(a: string, b: string) {
    b != "" && (a == "" || a[0] < b[0] || (a[0] == b[0] && Less(a[1..], b[1..])))
  }

  /** The strings part at this place, where the first has the smaller character. */
  predicate PartsAt(a: string, b: string, k: nat) {
    k < |a| && k < |b| && a[..k] == b[..k] && a[k] < b[k]
  }

  /** The order, exactly: a proper prefix comes first, and otherwise the smaller character where the strings part. */
  lemma {:induction false} LessExactly(a: string, b: string)
    ensures Less(a, b) <==> (a <= b && a != b) || (exists k: nat :: PartsAt(a, b, k))
  {
    if a == "" || b == "" {
      assert forall k: nat :: !PartsAt(a, b, k);
    } else if a[0] != b[0] {
      assert PartsAt(a, b, 0) <==> a[0] < b[0];
      assert forall k: nat | PartsAt(a, b, k) && k > 0 :: a[..k][0] == b[..k][0];
    } else {
      LessExactly(a[1..], b[1..]);
      PartsLater(a, b);
      assert a == [a[0]] + a[1..] && b == [b[0]] + b[1..];
    }
  }

  lemma PartsLater(a: string, b: string)
    requires a != "" && b != "" && a[0] == b[0]
    ensures (exists k: nat :: PartsAt(a, b, k)) <==> (exists k: nat :: PartsAt(a[1..], b[1..], k))
  {
    if k: nat :| PartsAt(a, b, k) {
      assert k > 0 && a[1..][..k - 1] == a[..k][1..] && b[1..][..k - 1] == b[..k][1..];
      assert PartsAt(a[1..], b[1..], k - 1);
    }
    if k: nat :| PartsAt(a[1..], b[1..], k) {
      assert a[..k + 1] == [a[0]] + a[1..][..k] && b[..k + 1] == [b[0]] + b[1..][..k];
      assert PartsAt(a, b, k + 1);
    }
  }

  lemma {:induction false} LessTransitive(a: string, b: string, c: string)
    requires Less(a, b) && Less(b, c)
    ensures Less(a, c)
  {
    if a != "" && a[0] == b[0] && b[0] == c[0] { LessTransitive(a[1..], b[1..], c[1..]); }
  }

  lemma {:induction false} LessTotal(a: string, b: string)
    ensures a == b || Less(a, b) || Less(b, a)
    ensures !(Less(a, b) && Less(b, a)) && !Less(a, a)
  {
    if a != "" && b != "" && a[0] == b[0] {
      LessTotal(a[1..], b[1..]);
      assert a == [a[0]] + a[1..] && b == [b[0]] + b[1..];
    }
    if a == "" {
    } else {
      LessIrreflexive(a);
    }
  }

  lemma {:induction false} LessIrreflexive(a: string)
    ensures !Less(a, a)
  {
    if a == "" {
    } else {
      LessIrreflexive(a[1..]);
    }
  }

  predicate Increasing(ids: seq<string>) {
    forall i, j | 0 <= i < j < |ids| :: Less(ids[i], ids[j])
  }

  predicate IsLeast(ids: set<string>, id: string) {
    id in ids && forall other | other in ids :: other == id || Less(id, other)
  }

  lemma {:induction false} LeastExists(ids: set<string>) returns (least: string)
    requires ids != {}
    ensures IsLeast(ids, least)
  {
    least :| least in ids;
    if ids != {least} {
      var rest := LeastExists(ids - {least});
      LessTotal(least, rest);
      if Less(rest, least) {
        least := rest;
      } else {
        forall other | other in ids - {least} && other != rest ensures Less(least, other) { LessTransitive(least, rest, other); }
      }
    }
  }

  ghost function Least(ids: set<string>): (id: string)
    requires ids != {}
    ensures IsLeast(ids, id)
  {
    assert exists id :: IsLeast(ids, id) by { var least := LeastExists(ids); }
    var id :| IsLeast(ids, id);
    id
  }

  /** The ids in increasing order. */
  ghost function Sorted(ids: set<string>): seq<string>
    decreases |ids|
  {
    if ids == {} then [] else [Least(ids)] + Sorted(ids - {Least(ids)})
  }

  /** Sorted enumerates exactly the set, each id once, in increasing order. */
  lemma {:induction false} SortedEnumerates(ids: set<string>)
    ensures Increasing(Sorted(ids)) && |Sorted(ids)| == |ids|
    ensures forall id :: id in Sorted(ids) <==> id in ids
    decreases |ids|
  {
    if ids == {} {
    } else {
      var rest := Sorted(ids - {Least(ids)});
      SortedEnumerates(ids - {Least(ids)});
      forall j | 0 <= j < |rest| ensures Less(Least(ids), rest[j]) { assert rest[j] in ids - {Least(ids)}; }
    }
  }

  /** An increasing enumeration of a set is its sorted enumeration. */
  lemma {:induction false} SortedUnique(ids: seq<string>, s: set<string>)
    requires Increasing(ids) && forall id :: id in ids <==> id in s
    ensures ids == Sorted(s)
    decreases |ids|
  {
    SortedEnumerates(s);
    if ids == [] {
      assert forall id :: id !in s;
    } else {
      assert ids[0] in s;
      var sorted := Sorted(s);
      assert sorted != [] by { assert ids[0] in sorted; }
      FirstIsLeast(ids, s);
      FirstIsLeast(sorted, s);
      LessTotal(ids[0], sorted[0]);
      var rest := s - {ids[0]};
      forall id ensures id in ids[1..] <==> id in rest {
        LessTotal(ids[0], ids[0]);
        assert id in ids <==> id == ids[0] || id in ids[1..];
      }
      SortedUnique(ids[1..], rest);
      forall id ensures id in sorted[1..] <==> id in rest {
        assert id in sorted <==> id == sorted[0] || id in sorted[1..];
      }
      SortedUnique(sorted[1..], rest);
      assert ids == [ids[0]] + ids[1..] && sorted == [sorted[0]] + sorted[1..];
    }
  }

  lemma FirstIsLeast(ids: seq<string>, s: set<string>)
    requires ids != [] && Increasing(ids) && forall id :: id in ids <==> id in s
    ensures IsLeast(s, ids[0])
  {}
}
