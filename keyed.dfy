/**
 * Ordered collections whose elements carry an identifier.
 *
 * Every collection of the resume store is edited in one of three ways: append a
 * new element, `map` over the collection replacing the elements whose id matches,
 * or `filter` out the elements whose id matches. The last two are defined here
 * once, generic in the element type and in the function reading an element's id.
 */
module Keyed {

  /** Identifiers are opaque strings (minted by `nanoid` in the store). */
  type Id = string

  /** Some element of `s` carries the identifier `id`. */
  predicate HasId<T>(s: seq<T>, idOf: T -> Id, id: Id)
  {
    exists k :: 0 <= k < |s| && idOf(s[k]) == id
  }

  /** No identifier occurs twice in `s`. */
  predicate UniqueIds<T>(s: seq<T>, idOf: T -> Id)
  {
    forall i, j :: 0 <= i < j < |s| ==> idOf(s[i]) != idOf(s[j])
  }

  /**
   * `s.filter(x => idOf(x) !== id)`: the elements whose id differs from `id`,
   * in their original relative order (see RemoveIdAppend for the order).
   */
  function RemoveId<T>(s: seq<T>, idOf: T -> Id, id: Id): (r: seq<T>)
    ensures forall k :: 0 <= k < |r| ==> idOf(r[k]) != id
  {
    if s == [] then []
    else (if idOf(s[0]) == id then [] else [s[0]]) + RemoveId(s[1..], idOf, id)
  }

  /**
   * Filtering keeps exactly the elements whose id differs, each as many times as
   * it occurred, and drops every element carrying `id`.
   */
  lemma {:induction false} RemoveIdKeepsOthers<T>(s: seq<T>, idOf: T -> Id, id: Id)
    ensures multiset(RemoveId(s, idOf, id)) <= multiset(s)
    ensures forall x | x in s && idOf(x) != id :: multiset(RemoveId(s, idOf, id))[x] == multiset(s)[x]
  {
    if s != [] {
      RemoveIdKeepsOthers(s[1..], idOf, id);
      assert s == [s[0]] + s[1..];
    }
  }

  /** Removing an identifier that no element carries changes nothing. */
  lemma {:induction false} RemoveIdAbsent<T>(s: seq<T>, idOf: T -> Id, id: Id)
    ensures !HasId(s, idOf, id) ==> RemoveId(s, idOf, id) == s
  {
    if s != [] && !HasId(s, idOf, id) {
      assert idOf(s[0]) != id;
      assert !HasId(s[1..], idOf, id) by {
        forall k | 0 <= k < |s[1..]| ensures idOf(s[1..][k]) != id {
          assert s[1..][k] == s[k + 1];
        }
      }
      RemoveIdAbsent(s[1..], idOf, id);
      assert s == [s[0]] + s[1..];
    }
  }

  /** Removing an identifier that some element carries makes the collection strictly shorter. */
  lemma {:induction false} RemoveIdPresent<T>(s: seq<T>, idOf: T -> Id, id: Id)
    requires HasId(s, idOf, id)
    ensures |RemoveId(s, idOf, id)| < |s|
  {
    RemoveIdNoLonger(s[1..], idOf, id);
    if idOf(s[0]) != id {
      var k :| 0 <= k < |s| && idOf(s[k]) == id;
      assert idOf(s[1..][k - 1]) == id;
      RemoveIdPresent(s[1..], idOf, id);
    }
  }

  /** Filtering never makes a collection longer. */
  lemma {:induction false} RemoveIdNoLonger<T>(s: seq<T>, idOf: T -> Id, id: Id)
    ensures |RemoveId(s, idOf, id)| <= |s|
  {
    if s != [] {
      RemoveIdNoLonger(s[1..], idOf, id);
    }
  }

  /**
   * `s.map(x => idOf(x) === id ? f(x) : x)`: same length and order, every element
   * carrying `id` replaced by `f` of it, every other element left as it was.
   */
  function MapWhere<T>(s: seq<T>, idOf: T -> Id, id: Id, f: T -> T): (r: seq<T>)
    ensures |r| == |s|
    ensures forall k :: 0 <= k < |s| ==> r[k] == if idOf(s[k]) == id then f(s[k]) else s[k]
    ensures !HasId(s, idOf, id) ==> r == s
  {
    if s == [] then []
    else [if idOf(s[0]) == id then f(s[0]) else s[0]] + MapWhere(s[1..], idOf, id, f)
  }

  /** Filtering a concatenation filters each part: survivors keep their relative order. */
  lemma {:induction false} RemoveIdAppend<T>(a: seq<T>, b: seq<T>, idOf: T -> Id, id: Id)
    ensures RemoveId(a + b, idOf, id) == RemoveId(a, idOf, id) + RemoveId(b, idOf, id)
  {
    if a == [] {
      assert a + b == b;
    } else {
      var head := if idOf(a[0]) == id then [] else [a[0]];
      assert (a + b)[0] == a[0];
      assert (a + b)[1..] == a[1..] + b;
      assert RemoveId(a + b, idOf, id) == head + RemoveId(a[1..] + b, idOf, id);
      RemoveIdAppend(a[1..], b, idOf, id);
      assert RemoveId(a, idOf, id) == head + RemoveId(a[1..], idOf, id);
    }
  }

  /** Removing the same identifier twice is the same as removing it once. */
  lemma RemoveIdIdempotent<T>(s: seq<T>, idOf: T -> Id, id: Id)
    ensures RemoveId(RemoveId(s, idOf, id), idOf, id) == RemoveId(s, idOf, id)
  {
    var r := RemoveId(s, idOf, id);
    assert !HasId(r, idOf, id);
    RemoveIdAbsent(r, idOf, id);
  }

  /** Removing an element that was just appended under a fresh id gives back the old collection. */
  lemma RemoveIdAfterAppend<T>(s: seq<T>, x: T, idOf: T -> Id)
    requires !HasId(s, idOf, idOf(x))
    ensures RemoveId(s + [x], idOf, idOf(x)) == s
  {
    RemoveIdAppend(s, [x], idOf, idOf(x));
    RemoveIdAbsent(s, idOf, idOf(x));
    assert RemoveId([x], idOf, idOf(x)) == [];
  }

  /** Appending an element whose id is fresh keeps identifiers unique. */
  lemma AppendFreshKeepsUnique<T>(s: seq<T>, x: T, idOf: T -> Id)
    requires UniqueIds(s, idOf) && !HasId(s, idOf, idOf(x))
    ensures UniqueIds(s + [x], idOf)
  {
    var t := s + [x];
    forall i, j | 0 <= i < j < |t| ensures idOf(t[i]) != idOf(t[j]) {
      if j == |s| {
        assert t[i] == s[i];
      } else {
        assert t[i] == s[i] && t[j] == s[j];
      }
    }
  }

  /** Filtering keeps identifiers unique. */
  lemma {:induction false} RemoveIdKeepsUnique<T>(s: seq<T>, idOf: T -> Id, id: Id)
    requires UniqueIds(s, idOf)
    ensures UniqueIds(RemoveId(s, idOf, id), idOf)
  {
    if s != [] {
      var tail := s[1..];
      assert UniqueIds(tail, idOf) by {
        forall i, j | 0 <= i < j < |tail| ensures idOf(tail[i]) != idOf(tail[j]) {
          assert tail[i] == s[i + 1] && tail[j] == s[j + 1];
        }
      }
      RemoveIdKeepsUnique(tail, idOf, id);
      var rest := RemoveId(tail, idOf, id);
      RemoveIdKeepsOthers(tail, idOf, id);
      if idOf(s[0]) != id {
        assert !HasId(rest, idOf, idOf(s[0])) by {
          forall k | 0 <= k < |rest| ensures idOf(rest[k]) != idOf(s[0]) {
            assert rest[k] in multiset(rest);
            assert rest[k] in tail;
            var m :| 0 <= m < |tail| && tail[m] == rest[k];
            assert s[m + 1] == rest[k];
          }
        }
        PrependFreshKeepsUnique(rest, s[0], idOf);
      }
    }
  }

  /** Putting an element with a fresh id in front keeps identifiers unique. */
  lemma PrependFreshKeepsUnique<T>(s: seq<T>, x: T, idOf: T -> Id)
    requires UniqueIds(s, idOf) && !HasId(s, idOf, idOf(x))
    ensures UniqueIds([x] + s, idOf)
  {
    var t := [x] + s;
    forall i, j | 0 <= i < j < |t| ensures idOf(t[i]) != idOf(t[j]) {
      assert t[j] == s[j - 1];
      if i > 0 {
        assert t[i] == s[i - 1];
      }
    }
  }

  /** An update that never moves an element off the id it was found by keeps identifiers unique. */
  lemma MapWhereKeepsUnique<T>(s: seq<T>, idOf: T -> Id, id: Id, f: T -> T)
    requires UniqueIds(s, idOf)
    requires forall k :: 0 <= k < |s| && idOf(s[k]) == id ==> idOf(f(s[k])) == id
    ensures UniqueIds(MapWhere(s, idOf, id, f), idOf)
  {
    var r := MapWhere(s, idOf, id, f);
    forall i, j | 0 <= i < j < |r| ensures idOf(r[i]) != idOf(r[j]) {
      assert idOf(r[i]) == idOf(s[i]) && idOf(r[j]) == idOf(s[j]);
    }
  }
}
