/** Identifier order: JavaScript compares strings by code unit, and sort() is stable under it. */
module Ids {
  import opened Prelude

  type Id = string

  predicate Less(a: Id, b: Id) {
    if b == "" then false
    else if a == "" then true
    else a[0] < b[0] || (a[0] == b[0] && Less(a[1..], b[1..]))
  }

  /** One id is less than another exactly if it stops inside it, or is less where they first differ. */
  lemma {:induction false} LessIff(a: Id, b: Id)
    ensures Less(a, b) <==>
              exists n: nat :: n <= |a| && n < |b| && a[..n] == b[..n] && (n == |a| || a[n] < b[n])
  {
    if b != "" && a != "" {
      LessIff(a[1..], b[1..]);
      if Less(a, b) && a[0] == b[0] {
        var n: nat :| n <= |a[1..]| && n < |b[1..]| && a[1..][..n] == b[1..][..n]
                      && (n == |a[1..]| || a[1..][n] < b[1..][n]);
        assert a[..n + 1] == [a[0]] + a[1..][..n] && b[..n + 1] == [b[0]] + b[1..][..n];
      }
      if a[0] < b[0] {
        assert a[..0] == b[..0];
      }
      if n: nat :| n <= |a| && n < |b| && a[..n] == b[..n] && (n == |a| || a[n] < b[n]) {
        if n > 0 {
          assert a[..n][0] == a[0] && b[..n][0] == b[0];
          assert a[1..][..n - 1] == a[..n][1..] && b[1..][..n - 1] == b[..n][1..];
        }
      }
    } else if b != "" {
      assert a[..0] == b[..0];
    }
  }

  lemma {:induction false} LessTrichotomy(a: Id, b: Id)
    ensures Less(a, b) || a == b || Less(b, a)
    ensures !(Less(a, b) && Less(b, a)) && !Less(a, a)
  {
    if a != "" && b != "" {
      LessTrichotomy(a[1..], b[1..]);
      assert a == [a[0]] + a[1..] && b == [b[0]] + b[1..];
    }
    if a != "" {
      LessTrichotomy(a[1..], a[1..]);
    }
  }

  lemma {:induction false} LessTransitive(a: Id, b: Id, c: Id)
    requires Less(a, b) && Less(b, c)
    ensures Less(a, c)
  {
    if a != "" && a[0] == b[0] && b[0] == c[0] {
      LessTransitive(a[1..], b[1..], c[1..]);
    }
  }

  function Elements(s: seq<Id>): set<Id> {
    set x | x in s
  }

  predicate StrictlySorted(s: seq<Id>) {
    forall i, j :: 0 <= i < j < |s| ==> Less(s[i], s[j])
  }

  /** `s` lists exactly the members of `ids`, in order. */
  predicate Lists(s: seq<Id>, ids: set<Id>) {
    StrictlySorted(s) && Elements(s) == ids
  }

  lemma SortedIsDistinct(s: seq<Id>)
    requires StrictlySorted(s)
    ensures Distinct(s)
  {
    forall i, j | 0 <= i < j < |s|
      ensures s[i] != s[j]
    {
      LessTrichotomy(s[i], s[j]);
    }
  }

  /** A set has one sorted listing. */
  lemma {:induction false} ListingIsUnique(a: seq<Id>, b: seq<Id>, ids: set<Id>)
    requires Lists(a, ids) && Lists(b, ids)
    ensures a == b
    decreases |a|
  {
    if a == [] {
      HeadListed(b);
    } else {
      assert a[0] in Elements(b);
      assert b != [];
      assert b[0] in Elements(a);
      HeadIsLeast(a, b[0]);
      HeadIsLeast(b, a[0]);
      LessTrichotomy(a[0], b[0]);
      TailLists(a, ids);
      TailLists(b, ids);
      ListingIsUnique(a[1..], b[1..], ids - {a[0]});
      assert a == [a[0]] + a[1..] && b == [b[0]] + b[1..];
    }
  }

  lemma HeadListed(s: seq<Id>)
    ensures s != [] ==> s[0] in Elements(s)
  {
  }

  lemma HeadIsLeast(s: seq<Id>, x: Id)
    requires StrictlySorted(s) && x in s
    ensures s[0] == x || Less(s[0], x)
  {
  }

  lemma TailLists(s: seq<Id>, ids: set<Id>)
    requires Lists(s, ids) && s != []
    ensures Lists(s[1..], ids - {s[0]})
  {
    SortedIsDistinct(s);
    forall x
      ensures x in Elements(s[1..]) <==> x in ids - {s[0]}
    {
      if x in s && x != s[0] {
        var k :| 0 <= k < |s| && s[k] == x;
        assert s[1..][k - 1] == x;
      }
      if x in s[1..] {
        var k :| 0 <= k < |s[1..]| && s[1..][k] == x;
        assert s[k + 1] == x;
      }
    }
  }

  /** Where `x` goes in a sorted listing. */
  function Insert(x: Id, s: seq<Id>): (r: seq<Id>)
    ensures Elements(r) == Elements(s) + {x}
  {
    if s == [] then [x]
    else if x == s[0] then s
    else if Less(x, s[0]) then [x] + s
    else
      assert Elements(s) == {s[0]} + Elements(s[1..]) by { ElementsOfCons(s[0], s[1..]); assert s == [s[0]] + s[1..]; }
      ElementsOfCons(s[0], Insert(x, s[1..]));
      [s[0]] + Insert(x, s[1..])
  }

  lemma ElementsOfCons(x: Id, s: seq<Id>)
    ensures Elements([x] + s) == {x} + Elements(s)
  {
    assert forall y :: y in [x] + s <==> y == x || y in s;
  }

  lemma {:induction false} InsertSorted(x: Id, s: seq<Id>)
    requires StrictlySorted(s)
    ensures StrictlySorted(Insert(x, s))
  {
    if s == [] || x == s[0] {
    } else if Less(x, s[0]) {
      forall j | 0 <= j < |s|
        ensures Less(x, s[j])
      {
        if j > 0 {
          LessTransitive(x, s[0], s[j]);
        }
      }
    } else {
      InsertSorted(x, s[1..]);
      LessTrichotomy(x, s[0]);
      forall y | y in Insert(x, s[1..])
        ensures Less(s[0], y)
      {
        assert y in Elements(s[1..]) + {x};
        if y in s[1..] {
          var k :| 0 <= k < |s[1..]| && s[1..][k] == y;
          assert s[k + 1] == y;
        }
      }
    }
  }

  /** ids.sort() for pairwise distinct ids. */
  function Sort(s: seq<Id>): (r: seq<Id>)
    requires Distinct(s)
    ensures Elements(r) == Elements(s)
  {
    if s == [] then []
    else
      assert Elements(s) == {s[0]} + Elements(s[1..]) by { ElementsOfCons(s[0], s[1..]); assert s == [s[0]] + s[1..]; }
      Insert(s[0], Sort(s[1..]))
  }

  lemma {:induction false} SortLists(s: seq<Id>)
    requires Distinct(s)
    ensures Lists(Sort(s), Elements(s))
  {
    if s != [] {
      SortLists(s[1..]);
      InsertSorted(s[0], Sort(s[1..]));
    }
  }

  /** The sorted listing of a set. */
  ghost function Listing(ids: set<Id>): (r: seq<Id>)
    ensures Lists(r, ids)
  {
    if ids == {} then []
    else
      var x :| x in ids;
      InsertSorted(x, Listing(ids - {x}));
      Insert(x, Listing(ids - {x}))
  }

  /** Sorting pairwise distinct ids lists their set. */
  lemma SortIsListing(s: seq<Id>, ids: set<Id>)
    requires Distinct(s) && Elements(s) == ids
    ensures Sort(s) == Listing(ids)
  {
    SortLists(s);
    ListingIsUnique(Sort(s), Listing(ids), ids);
  }
}
