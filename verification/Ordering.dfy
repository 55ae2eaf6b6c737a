/** Byte order of strings and canonical lists: sorted, without duplicates. */
module Ordering {

  /** Byte order of strings. */
  predicate Less(a: string, b: string) {
    b != "" && (a == "" || a[0] < b[0] || (a[0] == b[0] && Less(a[1..], b[1..])))
  }

  lemma {:induction false} LessTotal(a: string, b: string)
    ensures Less(a, b) || a == b || Less(b, a)
    ensures !(Less(a, b) && Less(b, a)) && (Less(a, b) ==> a != b)
  {
    if a != "" && b != "" {
      LessTotal(a[1..], b[1..]);
      assert a == [a[0]] + a[1..] && b == [b[0]] + b[1..];
    }
  }

  lemma {:induction false} LessTransitive(a: string, b: string, c: string)
    requires Less(a, b) && Less(b, c)
    ensures Less(a, c)
  {
    if a != "" && a[0] == b[0] && b[0] == c[0] {
      LessTransitive(a[1..], b[1..], c[1..]);
    }
  }

  ghost predicate Ascending(ids: seq<string>) {
    forall i, j :: 0 <= i < j < |ids| ==> Less(ids[i], ids[j])
  }

  /** Inserts into an ascending list, unless already there. */
  function Place(ids: seq<string>, x: string): (r: seq<string>)
    requires Ascending(ids)
    ensures Ascending(r) && forall y :: y in r <==> y in ids || y == x
  {
    if ids == [] then [x]
    else
      var front, last := ids[..|ids| - 1], ids[|ids| - 1];
      assert ids == front + [last];
      LessTotal(last, x);
      if last == x then ids
      else if Less(last, x) then PlaceLast(ids, x); ids + [x]
      else
        var r := Place(front, x);
        assert forall y :: y in r ==> Less(y, last);
        r + [last]
  }

  lemma {:induction false} PlaceLast(ids: seq<string>, x: string)
    requires Ascending(ids) && ids != [] && Less(ids[|ids| - 1], x)
    ensures Ascending(ids + [x])
  {
    forall i | 0 <= i < |ids| ensures Less(ids[i], x) {
      if i < |ids| - 1 { LessTransitive(ids[i], ids[|ids| - 1], x); }
    }
  }

  /** The sorted list without duplicates. */
  function Canonical(ids: seq<string>): (r: seq<string>)
    ensures Ascending(r) && forall y :: y in r <==> y in ids
  {
    if ids == [] then []
    else
      assert ids == ids[..|ids| - 1] + [ids[|ids| - 1]];
      Place(Canonical(ids[..|ids| - 1]), ids[|ids| - 1])
  }

  /** A list is its own canonical form exactly when it is ascending. */
  lemma {:induction false} CanonicalExactly(ids: seq<string>)
    ensures Canonical(ids) == ids <==> Ascending(ids)
  {
    if Ascending(ids) && ids != [] {
      var front, last := ids[..|ids| - 1], ids[|ids| - 1];
      CanonicalExactly(front);
      assert ids == front + [last];
      if front != [] { LessTotal(front[|front| - 1], last); }
    }
  }

  function Elements(a: seq<string>): set<string> { set x | x in a }

  /** Two ascending lists with the same elements are equal. */
  lemma {:induction false} AscendingUnique(a: seq<string>, b: seq<string>)
    requires Ascending(a) && Ascending(b) && Elements(a) == Elements(b)
    ensures a == b
  {
    assert a != [] ==> a[0] in Elements(a);
    assert b != [] ==> b[0] in Elements(b);
    if a != [] && b != [] {
      var x, y := a[|a| - 1], b[|b| - 1];
      assert x in Elements(b) && y in Elements(a);
      LastIsGreatest(a, y);
      LastIsGreatest(b, x);
      LessTotal(x, y);
      FrontElements(a);
      FrontElements(b);
      AscendingUnique(a[..|a| - 1], b[..|b| - 1]);
      assert a == a[..|a| - 1] + [x] && b == b[..|b| - 1] + [y];
    }
  }

  lemma {:induction false} LastIsGreatest(a: seq<string>, y: string)
    requires Ascending(a) && a != [] && y in a
    ensures y == a[|a| - 1] || Less(y, a[|a| - 1])
  {
  }

  lemma FrontElements(a: seq<string>)
    requires Ascending(a) && a != []
    ensures Elements(a[..|a| - 1]) == Elements(a) - {a[|a| - 1]}
  {
    assert a == a[..|a| - 1] + [a[|a| - 1]];
    forall i | 0 <= i < |a| - 1 ensures a[i] != a[|a| - 1] { LessTotal(a[i], a[|a| - 1]); }
  }
}
