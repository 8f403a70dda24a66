/**
 * A gallery entry and the list operations the gallery performs on lists of
 * entries: dropping every entry with an id (`photos.filter`), dropping the
 * first shown entry with an id (`querySelector(...).remove()`), and the
 * newest-first order in which entries are shown.
 */
module PhotoList {
  import opened CameraRules

  /** `{id, data, date, camera}`: the id is the `Date.now()` of the save. */
  datatype Photo = Photo(id: nat, data: Image, date: string, camera: string)

  predicate HasId(s: seq<Photo>, id: nat) {
    exists i :: 0 <= i < |s| && s[i].id == id
  }

  /** No two entries share an id. */
  predicate UniqueIds(s: seq<Photo>) {
    forall i, j :: 0 <= i < j < |s| ==> s[i].id != s[j].id
  }

  /** `photos.filter((p) => p.id !== id)`. */
  function Filter(s: seq<Photo>, id: nat): (r: seq<Photo>)
    ensures forall p :: p in r <==> p in s && p.id != id
    ensures |r| <= |s|
    ensures |r| == |s| <==> !HasId(s, id)
  {
    if s == [] then []
    else if s[0].id != id then [s[0]] + Filter(s[1..], id)
    else Filter(s[1..], id)
  }

  /** Filtering a concatenation filters each part and keeps them in order. */
  lemma {:induction false} FilterAppend(a: seq<Photo>, b: seq<Photo>, id: nat)
    ensures Filter(a + b, id) == Filter(a, id) + Filter(b, id)
  {
    if a != [] {
      assert (a + b)[0] == a[0];
      assert (a + b)[1..] == a[1..] + b;
      FilterAppend(a[1..], b, id);
      if a[0].id != id {
        assert [a[0]] + (Filter(a[1..], id) + Filter(b, id)) == ([a[0]] + Filter(a[1..], id)) + Filter(b, id);
      }
    } else {
      assert a + b == b;
    }
  }

  /** Removes the first entry with the id, as `querySelector` finds only the first element. */
  function RemoveFirst(s: seq<Photo>, id: nat): (r: seq<Photo>)
    ensures HasId(s, id) ==> |r| == |s| - 1
    ensures !HasId(s, id) ==> r == s
  {
    if s == [] then []
    else if s[0].id == id then s[1..]
    else [s[0]] + RemoveFirst(s[1..], id)
  }

  /** What `RemoveFirst` leaves: everything before the first match, then everything after it. */
  lemma {:induction false} RemoveFirstAt(s: seq<Photo>, id: nat, k: nat)
    requires k < |s| && s[k].id == id
    requires forall i :: 0 <= i < k ==> s[i].id != id
    ensures RemoveFirst(s, id) == s[..k] + s[k + 1..]
  {
    if k > 0 {
      RemoveFirstAt(s[1..], id, k - 1);
      assert s[1..][..k - 1] == s[1..k];
      assert s[1..][k..] == s[k + 1..];
      assert s[..k] == [s[0]] + s[1..k];
    }
  }

  lemma {:induction false} RemoveFirstAppend(a: seq<Photo>, b: seq<Photo>, id: nat)
    ensures RemoveFirst(a + b, id) == if HasId(a, id) then RemoveFirst(a, id) + b else a + RemoveFirst(b, id)
  {
    if a != [] {
      assert (a + b)[1..] == a[1..] + b;
      RemoveFirstAppend(a[1..], b, id);
      assert (a + b)[0] == a[0];
      if a[0].id == id {
        assert HasId(a, id);
      } else {
        assert HasId(a, id) <==> HasId(a[1..], id) by {
          if HasId(a, id) {
            var i :| 0 <= i < |a| && a[i].id == id;
            assert a[1..][i - 1] == a[i];
          }
          if HasId(a[1..], id) {
            var i :| 0 <= i < |a[1..]| && a[1..][i].id == id;
            assert a[i + 1] == a[1..][i];
          }
        }
      }
    } else {
      assert a + b == b;
    }
  }

  /** The gallery's on-screen order: each entry is inserted before the first one. */
  function Reverse(s: seq<Photo>): (r: seq<Photo>)
    ensures |r| == |s|
  {
    if s == [] then [] else Reverse(s[1..]) + [s[0]]
  }

  lemma {:induction false} ReverseAt(s: seq<Photo>, k: nat)
    requires k < |s|
    ensures Reverse(s)[k] == s[|s| - 1 - k]
  {
    if k < |s| - 1 {
      ReverseAt(s[1..], k);
    }
  }

  /** Appending an entry puts it at the front of the shown order. */
  lemma {:induction false} ReverseAppend(s: seq<Photo>, p: Photo)
    ensures Reverse(s + [p]) == [p] + Reverse(s)
  {
    if s != [] {
      assert (s + [p])[1..] == s[1..] + [p];
      ReverseAppend(s[1..], p);
    }
  }

  lemma ReverseHasId(s: seq<Photo>, id: nat)
    ensures HasId(Reverse(s), id) <==> HasId(s, id)
  {
    if HasId(s, id) {
      var i :| 0 <= i < |s| && s[i].id == id;
      ReverseAt(s, |s| - 1 - i);
    }
    if HasId(Reverse(s), id) {
      var i :| 0 <= i < |s| && Reverse(s)[i].id == id;
      ReverseAt(s, i);
    }
  }

  /**
   * With distinct ids, removing the first shown entry with an id leaves
   * exactly the shown order of the filtered list.
   */
  lemma {:induction false} DeleteKeepsDisplayInSync(photos: seq<Photo>, id: nat)
    requires UniqueIds(photos)
    ensures RemoveFirst(Reverse(photos), id) == Reverse(Filter(photos, id))
  {
    if photos != [] {
      var p, rest := photos[0], photos[1..];
      assert UniqueIds(rest) by {
        forall i, j | 0 <= i < j < |rest| ensures rest[i].id != rest[j].id {
          assert rest[i] == photos[i + 1] && rest[j] == photos[j + 1];
        }
      }
      DeleteKeepsDisplayInSync(rest, id);
      RemoveFirstAppend(Reverse(rest), [p], id);
      ReverseHasId(rest, id);
      if p.id == id {
        assert !HasId(rest, id);
      } else {
        assert Filter(photos, id) == [p] + Filter(rest, id);
        assert ([p] + Filter(rest, id))[1..] == Filter(rest, id);
      }
    }
  }

  /**
   * With two entries sharing an id, the filter drops both while only the
   * first shown one is removed, so the shown entries no longer match.
   */
  lemma DuplicateIdsDesyncDisplay(p: Photo, q: Photo)
    requires p.id == q.id
    ensures Filter([p, q], p.id) == []
    ensures RemoveFirst(Reverse([p, q]), p.id) == [p]
    ensures RemoveFirst(Reverse([p, q]), p.id) != Reverse(Filter([p, q], p.id))
  {
    assert Reverse([p, q]) == [q, p] by {
      assert [p, q][1..] == [q];
      assert Reverse([q]) == [q] by { assert [q][1..] == []; }
    }
    assert [q, p][1..] == [p];
  }
}
