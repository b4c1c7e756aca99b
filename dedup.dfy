/**
 * The "already in this bundle" memory maps of the converter
 * (locationsInBundle, medicationInBundle, caregiversInBundle): items are
 * visited in order, and an item whose key is not yet in the map is put
 * under its key with its id and added to the bundle; an item whose key is
 * already present adds nothing.
 */
module Dedup {

  /** The memory after visiting `xs` in order, starting from `m`. */
  function Remember<T>(xs: seq<T>, key: T -> string, id: T -> string, m: map<string, string>): map<string, string>
    decreases |xs|
  {
    if xs == [] then m
    else
      var before := Remember(xs[..|xs| - 1], key, id, m);
      var x := xs[|xs| - 1];
      if key(x) in before then before else before[key(x) := id(x)]
  }

  /** The items of `xs` whose key was absent when they were visited, in visiting order. */
  function FirstSightings<T>(xs: seq<T>, key: T -> string, id: T -> string, m: map<string, string>): seq<T>
    decreases |xs|
  {
    if xs == [] then []
    else
      var x := xs[|xs| - 1];
      var prev := FirstSightings(xs[..|xs| - 1], key, id, m);
      if key(x) in Remember(xs[..|xs| - 1], key, id, m) then prev else prev + [x]
  }

  /** Each item of `f` has a key absent from `m`, and `r` maps that key to the item's id. */
  ghost predicate StoredSightings<T>(f: seq<T>, key: T -> string, id: T -> string, m: map<string, string>, r: map<string, string>)
  {
    forall i :: 0 <= i < |f| ==> key(f[i]) !in m && key(f[i]) in r && r[key(f[i])] == id(f[i])
  }

  /** The items of `f` have pairwise different keys. */
  ghost predicate DistinctKeys<T>(f: seq<T>, key: T -> string)
  {
    forall i, j :: 0 <= i < j < |f| ==> key(f[i]) != key(f[j])
  }

  /** Every key of `r` was already in `m` or is the key of an item of `f`. */
  ghost predicate OnlySightings<T>(f: seq<T>, key: T -> string, m: map<string, string>, r: map<string, string>)
  {
    forall k :: k in r ==> k in m || exists i :: 0 <= i < |f| && key(f[i]) == k
  }

  /** What the memory held before a pass is kept unchanged: the first id stored under a key wins. */
  lemma {:induction false} RememberKeepsOld<T>(xs: seq<T>, key: T -> string, id: T -> string, m: map<string, string>)
    ensures forall k :: k in m ==> k in Remember(xs, key, id, m) && Remember(xs, key, id, m)[k] == m[k]
  {
    if xs != [] {
      RememberKeepsOld(xs[..|xs| - 1], key, id, m);
    }
  }

  /** Every visited key is in the memory after the pass. */
  lemma {:induction false} RememberCoversVisited<T>(xs: seq<T>, key: T -> string, id: T -> string, m: map<string, string>)
    ensures forall i :: 0 <= i < |xs| ==> key(xs[i]) in Remember(xs, key, id, m)
  {
    if xs != [] {
      var p := xs[..|xs| - 1];
      RememberCoversVisited(p, key, id, m);
      assert forall i :: 0 <= i < |p| ==> xs[i] == p[i];
    }
  }

  /** Each first sighting had a key absent from the starting memory, and its own id is stored under that key. */
  lemma {:induction false} SightingsStored<T>(xs: seq<T>, key: T -> string, id: T -> string, m: map<string, string>)
    ensures StoredSightings(FirstSightings(xs, key, id, m), key, id, m, Remember(xs, key, id, m))
  {
    if xs != [] {
      var p, x := xs[..|xs| - 1], xs[|xs| - 1];
      SightingsStored(p, key, id, m);
      RememberKeepsOld(p, key, id, m);
      var rp, fp := Remember(p, key, id, m), FirstSightings(p, key, id, m);
      var r, f := Remember(xs, key, id, m), FirstSightings(xs, key, id, m);
      if key(x) in rp {
        assert r == rp && f == fp;
      } else {
        assert r == rp[key(x) := id(x)] && f == fp + [x];
        forall i | 0 <= i < |f|
          ensures key(f[i]) !in m && key(f[i]) in r && r[key(f[i])] == id(f[i])
        {
          if i < |fp| {
            assert f[i] == fp[i];
          }
        }
      }
    }
  }

  /** No key is sighted twice. */
  lemma {:induction false} SightingsDistinct<T>(xs: seq<T>, key: T -> string, id: T -> string, m: map<string, string>)
    ensures DistinctKeys(FirstSightings(xs, key, id, m), key)
  {
    if xs != [] {
      var p := xs[..|xs| - 1];
      SightingsDistinct(p, key, id, m);
      SightingsStored(p, key, id, m);
      var x := xs[|xs| - 1];
      var rp, fp := Remember(p, key, id, m), FirstSightings(p, key, id, m);
      var f := FirstSightings(xs, key, id, m);
      if key(x) in rp {
        assert f == fp;
      } else {
        assert f == fp + [x];
        forall i, j | 0 <= i < j < |f|
          ensures key(f[i]) != key(f[j])
        {
          assert f[i] == fp[i];
          if j < |fp| {
            assert f[j] == fp[j];
          }
        }
      }
    }
  }

  /** The memory gains no key other than those of the first sightings. */
  lemma {:induction false} RememberOnlySightings<T>(xs: seq<T>, key: T -> string, id: T -> string, m: map<string, string>)
    ensures OnlySightings(FirstSightings(xs, key, id, m), key, m, Remember(xs, key, id, m))
  {
    if xs != [] {
      var p, x := xs[..|xs| - 1], xs[|xs| - 1];
      RememberOnlySightings(p, key, id, m);
      var rp, fp := Remember(p, key, id, m), FirstSightings(p, key, id, m);
      var r, f := Remember(xs, key, id, m), FirstSightings(xs, key, id, m);
      if key(x) in rp {
        assert r == rp && f == fp;
      } else {
        assert r == rp[key(x) := id(x)] && f == fp + [x];
        forall k | k in r && k !in m
          ensures exists i :: 0 <= i < |f| && key(f[i]) == k
        {
          if k == key(x) {
            assert key(f[|f| - 1]) == k;
          } else {
            var i :| 0 <= i < |fp| && key(fp[i]) == k;
            assert f[i] == fp[i];
          }
        }
      }
    }
  }

  /** Visiting an extra item at the end extends the memory and the sightings step by step. */
  lemma VisitOneMore<T>(xs: seq<T>, x: T, key: T -> string, id: T -> string, m: map<string, string>)
    ensures var r := Remember(xs, key, id, m);
      && Remember(xs + [x], key, id, m) == (if key(x) in r then r else r[key(x) := id(x)])
      && FirstSightings(xs + [x], key, id, m)
         == FirstSightings(xs, key, id, m) + (if key(x) in r then [] else [x])
  {
    assert (xs + [x])[..|xs|] == xs;
  }
}
