/** `.sort((a, b) => a.age! - b.age!)` on the users kept for the correlation
    chart. `Array.prototype.sort` is stable, so the result is the users ordered by
    ascending age, with users of equal age in their input order. */
module AgeOrder {
  import opened Users

  /** `user.age!`, read as 0 when absent (the sorted users all have a truthy age). */
  function AgeOf(u: User): real {
    NumberOrZero(u.age)
  }

  ghost predicate SortedByAge(s: seq<User>) {
    forall i, j :: 0 <= i < j < |s| ==> AgeOf(s[i]) <= AgeOf(s[j])
  }

  /** The users of `s` whose age is `a`, in their order in `s`. */
  function WithAge(s: seq<User>, a: real): seq<User> {
    if s == [] then []
    else (if AgeOf(s[0]) == a then [s[0]] else []) + WithAge(s[1..], a)
  }

  /** Places `x` before the first user of `s` who is not younger than `x`. */
  function Insert(x: User, s: seq<User>): (r: seq<User>)
    ensures multiset(r) == multiset{x} + multiset(s)
  {
    if s == [] || AgeOf(x) <= AgeOf(s[0]) then [x] + s
    else
      assert s == [s[0]] + s[1..];
      [s[0]] + Insert(x, s[1..])
  }

  /** Inserting `x` keeps the users of every age in their order, `x` first
      among those of its own age. */
  lemma {:induction false} InsertWithAge(x: User, s: seq<User>)
    ensures forall a :: WithAge(Insert(x, s), a) == WithAge([x] + s, a)
  {
    if s != [] && AgeOf(x) > AgeOf(s[0]) {
      assert s == [s[0]] + s[1..];
      InsertWithAge(x, s[1..]);
      WithAgeCons(s[0], Insert(x, s[1..]));
      WithAgeCons(s[0], [x] + s[1..]);
      WithAgeCons(x, s);
      WithAgeCons(x, s[1..]);
    }
  }

  lemma {:induction false} InsertSorted(x: User, s: seq<User>)
    requires SortedByAge(s)
    ensures SortedByAge(Insert(x, s))
  {
    if s == [] || AgeOf(x) <= AgeOf(s[0]) {
      ConsSorted(x, s);
    } else {
      var r := Insert(x, s[1..]);
      InsertSorted(x, s[1..]);
      forall i | 0 <= i < |r|
        ensures AgeOf(s[0]) <= AgeOf(r[i])
      {
        var y := r[i];
        assert multiset(r)[y] > 0;
        if y != x {
          assert y in multiset(s[1..]);
          var k :| 0 <= k < |s[1..]| && s[1..][k] == y;
          assert s[k + 1] == y;
        }
      }
      ConsSorted(s[0], r);
    }
  }

  lemma ConsSorted(x: User, s: seq<User>)
    requires SortedByAge(s)
    requires forall i :: 0 <= i < |s| ==> AgeOf(x) <= AgeOf(s[i])
    ensures SortedByAge([x] + s)
  {
    forall i, j | 0 <= i < j < |[x] + s|
      ensures AgeOf(([x] + s)[i]) <= AgeOf(([x] + s)[j])
    {
      if i > 0 {
        assert ([x] + s)[i] == s[i - 1];
      }
      assert ([x] + s)[j] == s[j - 1];
    }
  }

  /** The stable sort by ascending age: the result is sorted, is a permutation
      of the input, and lists the users of each age in their input order. */
  function SortByAge(s: seq<User>): (r: seq<User>)
    ensures SortedByAge(r)
    ensures multiset(r) == multiset(s)
    ensures forall y :: y in r <==> y in s
    ensures forall a :: WithAge(r, a) == WithAge(s, a)
  {
    if s == [] then []
    else
      assert s == [s[0]] + s[1..];
      WithAgeCons(s[0], SortByAge(s[1..]));
      WithAgeCons(s[0], s[1..]);
      InsertSorted(s[0], SortByAge(s[1..]));
      InsertWithAge(s[0], SortByAge(s[1..]));
      SameMembers(Insert(s[0], SortByAge(s[1..])), s);
      Insert(s[0], SortByAge(s[1..]))
  }

  lemma SameMembers(r: seq<User>, s: seq<User>)
    requires multiset(r) == multiset(s)
    ensures forall y :: y in r <==> y in s
  {
    forall y
      ensures y in r <==> y in s
    {
      assert y in r <==> y in multiset(r);
      assert y in s <==> y in multiset(s);
    }
  }

  /** Sorting a list already ordered by age leaves it as it is. */
  lemma {:induction false} SortSortedUnchanged(s: seq<User>)
    requires SortedByAge(s)
    ensures SortByAge(s) == s
  {
    if s != [] {
      SortSortedUnchanged(s[1..]);
      assert s == [s[0]] + s[1..];
    }
  }

  lemma WithAgeCons(x: User, s: seq<User>)
    ensures forall a :: WithAge([x] + s, a) == (if AgeOf(x) == a then [x] else []) + WithAge(s, a)
  {
    assert ([x] + s)[1..] == s;
  }
}
