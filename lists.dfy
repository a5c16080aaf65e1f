/** The JavaScript array operations the store builds its new field values
    with: `Array.prototype.filter` and `Array.prototype.find`. */
module Lists {
  import opened Entities

  /** `s.filter(keep)`: the elements that pass, in their original order. */
  function Filter<T>(s: seq<T>, keep: T -> bool): (r: seq<T>)
    ensures |r| <= |s|
    ensures forall x :: x in r ==> x in s && keep(x)
  {
    if s == [] then []
    else (if keep(s[0]) then [s[0]] else []) + Filter(s[1..], keep)
  }

  /** An element survives the filter exactly when it was there and passes. */
  lemma {:induction false} FilterMembers<T>(s: seq<T>, keep: T -> bool)
    ensures forall x :: x in Filter(s, keep) <==> x in s && keep(x)
  {
    if s != [] {
      FilterMembers(s[1..], keep);
      assert s == [s[0]] + s[1..];
    }
  }

  /** Filtering works element by element: the survivors of a concatenation
      are the survivors of each part, in the same order. */
  lemma {:induction false} FilterAppend<T>(a: seq<T>, b: seq<T>, keep: T -> bool)
    ensures Filter(a + b, keep) == Filter(a, keep) + Filter(b, keep)
  {
    if a == [] {
      assert a + b == b;
    } else {
      assert (a + b)[0] == a[0];
      assert (a + b)[1..] == a[1..] + b;
      FilterAppend(a[1..], b, keep);
    }
  }

  /** When every element passes, the filter changes nothing. */
  lemma {:induction false} FilterKeepsAll<T>(s: seq<T>, keep: T -> bool)
    requires forall k :: 0 <= k < |s| ==> keep(s[k])
    ensures Filter(s, keep) == s
  {
    if s != [] {
      FilterKeepsAll(s[1..], keep);
    }
  }

  /** Filtering never makes two elements share a key. */
  lemma {:induction false} FilterUnique<T, K>(s: seq<T>, keep: T -> bool, key: T -> K)
    requires UniqueBy(s, key)
    ensures UniqueBy(Filter(s, keep), key)
  {
    if s != [] {
      var rest := s[1..];
      assert UniqueBy(rest, key) by {
        forall i, j | 0 <= i < j < |rest| ensures key(rest[i]) != key(rest[j]) {
          assert rest[i] == s[i + 1] && rest[j] == s[j + 1];
        }
      }
      FilterUnique(rest, keep, key);
      var tail := Filter(rest, keep);
      if keep(s[0]) {
        var r := [s[0]] + tail;
        forall i, j | 0 <= i < j < |r| ensures key(r[i]) != key(r[j]) {
          if i == 0 {
            assert r[j] == tail[j - 1];
            assert tail[j - 1] in rest;
            var k :| 0 <= k < |rest| && rest[k] == tail[j - 1];
            assert rest[k] == s[k + 1];
          } else {
            assert r[i] == tail[i - 1] && r[j] == tail[j - 1];
          }
        }
      } else {
        assert Filter(s, keep) == tail;
      }
    }
  }

  /** Two duplicate-free lists with no key in common join into a
      duplicate-free list. */
  lemma UniqueConcat<T, K>(a: seq<T>, b: seq<T>, key: T -> K)
    requires UniqueBy(a, key) && UniqueBy(b, key)
    requires forall i, j :: 0 <= i < |a| && 0 <= j < |b| ==> key(a[i]) != key(b[j])
    ensures UniqueBy(a + b, key)
  {
    var r := a + b;
    forall i, j | 0 <= i < j < |r| ensures key(r[i]) != key(r[j]) {
      if j < |a| {
        assert r[i] == a[i] && r[j] == a[j];
      } else if i < |a| {
        assert r[i] == a[i] && r[j] == b[j - |a|];
      } else {
        assert r[i] == b[i - |a|] && r[j] == b[j - |a|];
      }
    }
  }

  /** `satellites.find(s => s.id === id)`: the first satellite with that id,
      or `undefined`. */
  function Find(satellites: seq<Satellite>, id: string): (r: Option<Satellite>)
    ensures r.Some? ==> r.value in satellites && r.value.id == id
  {
    if satellites == [] then None
    else if satellites[0].id == id then Some(satellites[0])
    else Find(satellites[1..], id)
  }

  /** `find` misses exactly when no satellite has the id. */
  lemma {:induction false} FindMisses(satellites: seq<Satellite>, id: string)
    ensures Find(satellites, id).None? <==> forall k :: 0 <= k < |satellites| ==> satellites[k].id != id
  {
    if satellites != [] && satellites[0].id != id {
      FindMisses(satellites[1..], id);
      assert forall k :: 1 <= k < |satellites| ==> satellites[k] == satellites[1..][k - 1];
    }
  }

  /** `find` returns the first match: no earlier satellite has the id. */
  lemma {:induction false} FindFirst(satellites: seq<Satellite>, id: string)
    requires Find(satellites, id).Some?
    ensures exists k :: 0 <= k < |satellites| && satellites[k] == Find(satellites, id).value
                        && forall j :: 0 <= j < k ==> satellites[j].id != id
  {
    if satellites[0].id != id {
      FindFirst(satellites[1..], id);
      var k :| 0 <= k < |satellites[1..]| && satellites[1..][k] == Find(satellites[1..], id).value
               && forall j :: 0 <= j < k ==> satellites[1..][j].id != id;
      assert satellites[k + 1] == Find(satellites, id).value;
    } else {
      assert satellites[0] == Find(satellites, id).value;
    }
  }
}
