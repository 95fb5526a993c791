/** Removing elements from a Python list while a `for` loop walks over it, as the alien passes
    of `GameScene.check_collision` (game_scene.py) do. The loop keeps an index that it always
    advances, so when `list.remove` deletes the current element the next element slides into
    the current slot and is never visited. */
module Removal {

  /** `list.remove(x)`: delete the first element equal to `x`. */
  function RemoveFirst<T(==)>(s: seq<T>, x: T): (r: seq<T>)
    requires x in s
    ensures |r| == |s| - 1
  {
    if s[0] == x then s[1..]
    else [s[0]] + RemoveFirst(s[1..], x)
  }

  predicate Distinct<T(==)>(s: seq<T>)
  {
    forall i, j :: 0 <= i < j < |s| ==> s[i] != s[j]
  }

  /** In a list without repeated elements the first occurrence of `s[i]` is the one at `i`. */
  lemma {:induction false} RemoveFirstOfDistinct<T>(s: seq<T>, i: nat)
    requires Distinct(s) && i < |s|
    ensures RemoveFirst(s, s[i]) == s[..i] + s[i + 1..]
    decreases i
  {
    if i == 0 {
      assert s[..0] + s[1..] == s[1..];
    } else {
      var t := s[1..];
      assert Distinct(t) by {
        forall a, b | 0 <= a < b < |t|
          ensures t[a] != t[b]
        {
          assert t[a] == s[a + 1] && t[b] == s[b + 1];
        }
      }
      assert s[0] != s[i] && t[i - 1] == s[i];
      RemoveFirstOfDistinct(t, i - 1);
      assert s[..i] == [s[0]] + t[..i - 1];
      assert s[i + 1..] == t[i..];
    }
  }

  lemma DistinctAfterDelete<T>(s: seq<T>, i: nat)
    requires Distinct(s) && i < |s|
    ensures Distinct(s[..i] + s[i + 1..])
    ensures forall x :: x in s[..i] + s[i + 1..] ==> x in s
  {
    var r := s[..i] + s[i + 1..];
    forall a, b | 0 <= a < b < |r|
      ensures r[a] != r[b]
    {
      var a' := if a < i then a else a + 1;
      var b' := if b < i then b else b + 1;
      assert r[a] == s[a'] && r[b] == s[b'];
    }
  }

  /** One removing step of the loop at index `i` of a list without repeated elements: the
      removed element is the one at `i`, the list stays without repeats, and the loop goes on
      at `i + 1` toward the same result. */
  lemma SweepStepRemoving<T>(s: seq<T>, doomed: set<T>, i: nat)
    requires Distinct(s) && i < |s| && s[i] in doomed
    ensures RemoveFirst(s, s[i]) == s[..i] + s[i + 1..]
    ensures Distinct(RemoveFirst(s, s[i])) && forall x :: x in RemoveFirst(s, s[i]) ==> x in s
    ensures SweepFrom(RemoveFirst(s, s[i]), doomed, i + 1) == SweepFrom(s, doomed, i)
  {
    RemoveFirstOfDistinct(s, i);
    DistinctAfterDelete(s, i);
  }

  /** The loop `for x in s: if x in doomed: s.remove(x)` from index `i` on, for a list without
      repeated elements (so the removal deletes the element at the loop's index). */
  function SweepFrom<T(==)>(s: seq<T>, doomed: set<T>, i: nat): seq<T>
    decreases |s| - i
  {
    if i >= |s| then s
    else if s[i] in doomed then SweepFrom(s[..i] + s[i + 1..], doomed, i + 1)
    else SweepFrom(s, doomed, i + 1)
  }

  /** A reference definition of the survivors, element by element: a doomed element is
      removed exactly when the element before it was not removed; every other element stays. */
  function Survivors<T(==)>(s: seq<T>, doomed: set<T>, previousRemoved: bool): seq<T>
    decreases |s|
  {
    if s == [] then []
    else if s[0] in doomed && !previousRemoved then Survivors(s[1..], doomed, true)
    else [s[0]] + Survivors(s[1..], doomed, false)
  }

  /** The loop over `prefix + rest`, started at the first element of `rest`, keeps `prefix` and
      leaves the survivors of `rest`. */
  lemma {:induction false} SweepFromMatchesSurvivors<T>(prefix: seq<T>, rest: seq<T>, doomed: set<T>)
    ensures SweepFrom(prefix + rest, doomed, |prefix|) == prefix + Survivors(rest, doomed, false)
    decreases |rest|
  {
    var s := prefix + rest;
    var i := |prefix|;
    if rest == [] {
      assert s == prefix;
    } else if rest[0] !in doomed {
      assert s[i] == rest[0];
      assert SweepFrom(s, doomed, i) == SweepFrom(s, doomed, i + 1);
      assert s == (prefix + [rest[0]]) + rest[1..];
      SweepFromMatchesSurvivors(prefix + [rest[0]], rest[1..], doomed);
      assert Survivors(rest, doomed, false) == [rest[0]] + Survivors(rest[1..], doomed, false);
      assert (prefix + [rest[0]]) + Survivors(rest[1..], doomed, false) == prefix + ([rest[0]] + Survivors(rest[1..], doomed, false));
    } else {
      var shorter := s[..i] + s[i + 1..];
      assert s[i] == rest[0];
      assert SweepFrom(s, doomed, i) == SweepFrom(shorter, doomed, i + 1);
      assert shorter == prefix + rest[1..];
      assert Survivors(rest, doomed, false) == Survivors(rest[1..], doomed, true);
      if |rest| == 1 {
        assert shorter == prefix;
        assert rest[1..] == [];
      } else {
        var tail := rest[1..];
        assert shorter == (prefix + [tail[0]]) + tail[1..];
        SweepFromMatchesSurvivors(prefix + [tail[0]], tail[1..], doomed);
        assert Survivors(tail, doomed, true) == [tail[0]] + Survivors(tail[1..], doomed, false);
        assert (prefix + [tail[0]]) + Survivors(tail[1..], doomed, false) == prefix + ([tail[0]] + Survivors(tail[1..], doomed, false));
      }
    }
  }

  /** The whole loop, from the first element. */
  function Sweep<T(==)>(s: seq<T>, doomed: set<T>): (r: seq<T>)
    ensures |r| <= |s| && forall x :: x in r ==> x in s
  {
    SweepFromMatchesSurvivors([], s, doomed);
    assert [] + s == s;
    SurvivorsNeverGrow(s, doomed, false);
    SurvivorsRemoveOnlyDoomed(s, doomed, false);
    assert forall x :: x in Survivors(s, doomed, false) ==> x in multiset(s);
    SweepFrom(s, doomed, 0)
  }

  lemma SweepIsSurvivors<T>(s: seq<T>, doomed: set<T>)
    ensures Sweep(s, doomed) == Survivors(s, doomed, false)
  {
    SweepFromMatchesSurvivors([], s, doomed);
    assert [] + s == s;
  }

  /** Only doomed elements are removed: every element keeps its multiplicity unless it is
      doomed, and nothing new appears. */
  lemma {:induction false} SurvivorsRemoveOnlyDoomed<T>(s: seq<T>, doomed: set<T>, previousRemoved: bool)
    ensures multiset(Survivors(s, doomed, previousRemoved)) <= multiset(s)
    ensures forall x :: x !in doomed ==> multiset(Survivors(s, doomed, previousRemoved))[x] == multiset(s)[x]
    decreases |s|
  {
    if s != [] {
      SurvivorsRemoveOnlyDoomed(s[1..], doomed, s[0] in doomed && !previousRemoved);
      assert s == [s[0]] + s[1..];
    }
  }

  /** Something is removed exactly when the list holds a doomed element: the first doomed
      element is always visited, because nothing before it was removed. */
  lemma {:induction false} SurvivorsShrinkIffDoomed<T>(s: seq<T>, doomed: set<T>)
    ensures |Survivors(s, doomed, false)| < |s| <==> exists x :: x in s && x in doomed
    decreases |s|
  {
    SurvivorsNeverGrow(s, doomed, false);
    if s != [] {
      if s[0] in doomed {
        SurvivorsNeverGrow(s[1..], doomed, true);
      } else {
        SurvivorsShrinkIffDoomed(s[1..], doomed);
        assert forall x :: x in s <==> x == s[0] || x in s[1..];
      }
    }
  }

  lemma {:induction false} SurvivorsNeverGrow<T>(s: seq<T>, doomed: set<T>, previousRemoved: bool)
    ensures |Survivors(s, doomed, previousRemoved)| <= |s|
    decreases |s|
  {
    if s != [] {
      SurvivorsNeverGrow(s[1..], doomed, s[0] in doomed && !previousRemoved);
    }
  }

  /** When every element is doomed, only every other element is removed: of two adjacent doomed
      elements the second is skipped. */
  lemma SweepSkipsAfterRemoval<T>(a: T, b: T)
    requires a != b
    ensures Sweep([a, b], {a, b}) == [b]
  {
    SweepIsSurvivors([a, b], {a, b});
    assert [a, b][1..] == [b];
    assert [b][1..] == [];
    assert Survivors([b], {a, b}, true) == [b] + Survivors([], {a, b}, false);
  }
}
