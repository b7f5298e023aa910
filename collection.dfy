/**
 * The list transformations behind the store's add, update and delete actions,
 * written once over any `Entity<D>` and used for all four collections:
 * appending a freshly stamped entity, mapping a patch over every entity with a
 * given identifier, and filtering out every entity with a given identifier.
 */
module Collection {
  import opened Types

  // ---------------------------------------------------------------- Identifiers

  /** Some entity in `s` has identifier `id`. */
  predicate Contains<D>(s: seq<Entity<D>>, id: Id)
  {
    exists i :: 0 <= i < |s| && s[i].id == id
  }

  /** No two entities of `s` share an identifier. The store never checks this. */
  predicate UniqueIds<D>(s: seq<Entity<D>>)
  {
    forall i, j :: 0 <= i < j < |s| ==> s[i].id != s[j].id
  }

  // ---------------------------------------------------------------- Generic filter and map

  /** `s.filter(p)`: the elements satisfying `p`, visited left to right. */
  function Filter<T>(s: seq<T>, p: T -> bool): (r: seq<T>)
    ensures |r| <= |s|
    ensures forall x :: x in r ==> x in s && p(x)
    ensures forall x :: x in s ==> (x in r <==> p(x))
  {
    if s == [] then []
    else
      var rest := Filter(s[1..], p);
      assert s == [s[0]] + s[1..];
      if p(s[0]) then [s[0]] + rest else rest
  }

  /** The filter keeps every passing element as often as it occurs, and nothing else. */
  lemma {:induction false} FilterCounts<T>(s: seq<T>, p: T -> bool, x: T)
    ensures multiset(Filter(s, p))[x] == if p(x) then multiset(s)[x] else 0
    decreases |s|
  {
    if s != [] {
      FilterCounts(s[1..], p, x);
      assert s == [s[0]] + s[1..];
      assert multiset(s) == multiset([s[0]]) + multiset(s[1..]);
      if p(s[0]) {
        assert Filter(s, p) == [s[0]] + Filter(s[1..], p);
        assert multiset(Filter(s, p)) == multiset([s[0]]) + multiset(Filter(s[1..], p));
      }
    }
  }

  /** `s.map(f)`: `f` applied to every element, same length, same positions. */
  function Map<T>(s: seq<T>, f: T -> T): (r: seq<T>)
    ensures |r| == |s|
    ensures forall i :: 0 <= i < |s| ==> r[i] == f(s[i])
  {
    if s == [] then [] else [f(s[0])] + Map(s[1..], f)
  }

  /** `r` can be obtained from `s` by deleting elements, keeping the order of the rest. */
  ghost predicate SubsequenceOf<T>(r: seq<T>, s: seq<T>)
    decreases |s|
  {
    if r == [] then true
    else if s == [] then false
    else (r[0] == s[0] && SubsequenceOf(r[1..], s[1..])) || SubsequenceOf(r, s[1..])
  }

  lemma {:induction false} FilterIsSubsequence<T>(s: seq<T>, p: T -> bool)
    ensures SubsequenceOf(Filter(s, p), s)
    decreases |s|
  {
    if s != [] {
      FilterIsSubsequence(s[1..], p);
      var rest := Filter(s[1..], p);
      if p(s[0]) {
        assert Filter(s, p) == [s[0]] + rest;
        assert ([s[0]] + rest)[1..] == rest;
      } else {
        assert Filter(s, p) == rest;
        if rest != [] {
          assert SubsequenceOf(rest, s[1..]);
        }
      }
    }
  }

  /** Filtering a concatenation filters each part: the survivors keep their relative order. */
  lemma {:induction false} FilterConcat<T>(a: seq<T>, b: seq<T>, p: T -> bool)
    ensures Filter(a + b, p) == Filter(a, p) + Filter(b, p)
    decreases |a|
  {
    if a != [] {
      var ab := a + b;
      assert ab[0] == a[0] && ab[1..] == a[1..] + b;
      FilterConcat(a[1..], b, p);
      var head := if p(a[0]) then [a[0]] else [];
      assert Filter(ab, p) == head + Filter(a[1..] + b, p);
      assert Filter(a, p) == head + Filter(a[1..], p);
      assert head + (Filter(a[1..], p) + Filter(b, p)) == (head + Filter(a[1..], p)) + Filter(b, p);
    } else {
      assert a + b == b;
    }
  }

  /** A filter that keeps every element returns the list itself. */
  lemma {:induction false} FilterAll<T>(s: seq<T>, p: T -> bool)
    requires forall x :: x in s ==> p(x)
    ensures Filter(s, p) == s
    decreases |s|
  {
    if s != [] {
      assert forall x :: x in s[1..] ==> x in s;
      FilterAll(s[1..], p);
      assert s == [s[0]] + s[1..];
    }
  }

  /** Filtering twice by the same test is filtering once. */
  lemma FilterIdempotent<T>(s: seq<T>, p: T -> bool)
    ensures Filter(Filter(s, p), p) == Filter(s, p)
  {
    FilterAll(Filter(s, p), p);
  }

  /** A stronger test keeps no more elements than a weaker one. */
  lemma {:induction false} FilterMonotone<T>(s: seq<T>, p: T -> bool, q: T -> bool)
    requires forall x :: x in s && p(x) ==> q(x)
    ensures |Filter(s, p)| <= |Filter(s, q)|
    decreases |s|
  {
    if s != [] {
      assert forall x :: x in s[1..] ==> x in s;
      FilterMonotone(s[1..], p, q);
    }
  }

  // ---------------------------------------------------------------- add

  /** The entity an add action builds: the caller's data, a new id, both timestamps `now`. */
  function Stamp<D>(data: D, newId: Id, now: Timestamp): (e: Entity<D>)
    ensures e.data == data && e.id == newId
    ensures e.createdAt == now && e.updatedAt == now
  {
    Entity(newId, now, now, data)
  }

  /** Appending an entity with a fresh identifier keeps identifiers unique. */
  lemma AppendFreshKeepsUnique<D>(s: seq<Entity<D>>, e: Entity<D>)
    requires UniqueIds(s) && !Contains(s, e.id)
    ensures UniqueIds(s + [e])
    ensures Contains(s + [e], e.id)
  {
    assert (s + [e])[|s|] == e;
  }

  // ---------------------------------------------------------------- update

  /**
   * `{ ...e, ...patch, updatedAt: now }`: the patch may overwrite `id` and
   * `createdAt`; `updatedAt` is always `now`, even when the patch supplies one.
   */
  function ApplyPatch<D, P>(e: Entity<D>, patch: Patch<P>, now: Timestamp, merge: (D, P) -> D): (r: Entity<D>)
    ensures r.updatedAt == now
    ensures r.data == merge(e.data, patch.fields)
    ensures patch.id.None? ==> r.id == e.id
    ensures patch.id.Some? ==> r.id == patch.id.value
    ensures patch.createdAt.None? ==> r.createdAt == e.createdAt
    ensures patch.createdAt.Some? ==> r.createdAt == patch.createdAt.value
  {
    Entity(patch.id.GetOr(e.id), patch.createdAt.GetOr(e.createdAt), now, merge(e.data, patch.fields))
  }

  /** The callback of the update action's `map`. */
  function PatchIfId<D, P>(id: Id, patch: Patch<P>, now: Timestamp, merge: (D, P) -> D): Entity<D> -> Entity<D>
  {
    (e: Entity<D>) => if e.id == id then ApplyPatch(e, patch, now, merge) else e
  }

  /** The update callback returns an entity with another id as it is, and patches one with the id. */
  lemma PatchIfIdCases<D, P>(id: Id, patch: Patch<P>, now: Timestamp, merge: (D, P) -> D, e: Entity<D>)
    ensures e.id != id ==> PatchIfId(id, patch, now, merge)(e) == e
    ensures e.id == id ==> PatchIfId(id, patch, now, merge)(e) == ApplyPatch(e, patch, now, merge)
    ensures e.id == id ==> PatchIfId(id, patch, now, merge)(e).updatedAt == now
  {}

  /** The update action's new list: every entity with identifier `id` patched, the rest as they were. */
  function Updated<D, P>(s: seq<Entity<D>>, id: Id, patch: Patch<P>, now: Timestamp, merge: (D, P) -> D): (r: seq<Entity<D>>)
    ensures |r| == |s|
    ensures forall i :: 0 <= i < |s| && s[i].id != id ==> r[i] == s[i]
    ensures forall i :: 0 <= i < |s| && s[i].id == id ==> r[i] == ApplyPatch(s[i], patch, now, merge)
  {
    Map(s, PatchIfId(id, patch, now, merge))
  }

  /** Updating an identifier that is not there leaves the list exactly as it was. */
  lemma UpdateAbsentIsNoOp<D, P>(s: seq<Entity<D>>, id: Id, patch: Patch<P>, now: Timestamp, merge: (D, P) -> D)
    requires !Contains(s, id)
    ensures Updated(s, id, patch, now, merge) == s
  {
    var r := Updated(s, id, patch, now, merge);
    assert forall i :: 0 <= i < |s| ==> r[i] == s[i];
  }

  /** An empty patch only refreshes `updatedAt` of the matching entities. */
  lemma UpdateEmptyPatch<D(!new), P(!new)>(s: seq<Entity<D>>, id: Id, empty: P, now: Timestamp, merge: (D, P) -> D)
    requires LawfulMerge(merge, empty)
    ensures var r := Updated(s, id, Patch(None, None, None, empty), now, merge);
      forall i :: 0 <= i < |s| ==> r[i] == if s[i].id == id then s[i].(updatedAt := now) else s[i]
  {}

  /**
   * Applying the same update twice (same clock reading) is the same as applying
   * it once, for any merge that is idempotent in the patch.
   */
  lemma UpdateIdempotent<D(!new), P(!new)>(s: seq<Entity<D>>, id: Id, patch: Patch<P>, now: Timestamp, merge: (D, P) -> D)
    requires forall d: D, p: P :: merge(merge(d, p), p) == merge(d, p)
    ensures Updated(Updated(s, id, patch, now, merge), id, patch, now, merge) == Updated(s, id, patch, now, merge)
  {
    var r := Updated(s, id, patch, now, merge);
    var r2 := Updated(r, id, patch, now, merge);
    forall i | 0 <= i < |s|
      ensures r2[i] == r[i]
    {
      if s[i].id == id {
        assert merge(merge(s[i].data, patch.fields), patch.fields) == merge(s[i].data, patch.fields);
      }
    }
  }

  /**
   * An update keeps identifiers unique as long as it does not rename an
   * entity to an identifier some other entity already has.
   */
  lemma UpdateKeepsUnique<D, P>(s: seq<Entity<D>>, id: Id, patch: Patch<P>, now: Timestamp, merge: (D, P) -> D)
    requires UniqueIds(s)
    requires patch.id.None? || patch.id.value == id || !Contains(s, patch.id.value)
    ensures UniqueIds(Updated(s, id, patch, now, merge))
  {
    var r := Updated(s, id, patch, now, merge);
    forall i, j | 0 <= i < j < |r|
      ensures r[i].id != r[j].id
    {
      if patch.id.Some? && patch.id.value != id {
        if s[i].id == id {
          assert s[j].id != id;
          assert r[j].id == s[j].id;
        } else if s[j].id == id {
          assert r[i].id == s[i].id;
        }
      }
    }
  }

  /**
   * A patch that supplies a different `id` renames every matching entity:
   * afterwards the old identifier is gone and the new one is present.
   */
  lemma UpdateCanRename<D, P>(s: seq<Entity<D>>, id: Id, patch: Patch<P>, now: Timestamp, merge: (D, P) -> D)
    requires Contains(s, id) && patch.id.Some? && patch.id.value != id
    ensures Contains(Updated(s, id, patch, now, merge), patch.id.value)
    ensures !Contains(Updated(s, id, patch, now, merge), id)
  {
    var r := Updated(s, id, patch, now, merge);
    var i :| 0 <= i < |s| && s[i].id == id;
    assert r[i].id == patch.id.value;
  }

  // ---------------------------------------------------------------- delete

  /** The callback of the delete action's `filter`. */
  function OtherThan<D>(id: Id): Entity<D> -> bool
  {
    (e: Entity<D>) => e.id != id
  }

  /** The delete callback keeps an entity exactly when its id differs from the one deleted. */
  lemma OtherThanKeeps<D>(id: Id, e: Entity<D>)
    ensures OtherThan(id)(e) <==> e.id != id
  {}

  /** The delete action's new list: every entity with identifier `id` removed. */
  function Deleted<D>(s: seq<Entity<D>>, id: Id): (r: seq<Entity<D>>)
    ensures !Contains(r, id)
    ensures forall e :: e in r ==> e in s && e.id != id
    ensures forall e :: e in s && e.id != id ==> e in r
  {
    var r := Filter(s, OtherThan(id));
    assert forall i :: 0 <= i < |r| ==> r[i] in r;
    r
  }

  /** Deleting an identifier that is not there leaves the list exactly as it was. */
  lemma DeleteAbsentIsNoOp<D>(s: seq<Entity<D>>, id: Id)
    requires !Contains(s, id)
    ensures Deleted(s, id) == s
  {
    FilterAll(s, OtherThan(id));
  }

  /** Deleting twice is deleting once. */
  lemma DeleteIdempotent<D>(s: seq<Entity<D>>, id: Id)
    ensures Deleted(Deleted(s, id), id) == Deleted(s, id)
  {
    FilterIdempotent(s, OtherThan(id));
  }

  /** The survivors of a delete keep their original relative order. */
  lemma DeleteKeepsOrder<D>(s: seq<Entity<D>>, id: Id)
    ensures SubsequenceOf(Deleted(s, id), s)
    ensures forall a: seq<Entity<D>>, b: seq<Entity<D>> :: Deleted(a + b, id) == Deleted(a, id) + Deleted(b, id)
  {
    FilterIsSubsequence(s, OtherThan(id));
    forall a: seq<Entity<D>>, b: seq<Entity<D>> ensures Deleted(a + b, id) == Deleted(a, id) + Deleted(b, id) {
      FilterConcat(a, b, OtherThan<D>(id));
    }
  }

  /** A delete of a present identifier always shrinks the list. */
  lemma {:induction false} DeletePresentShrinks<D>(s: seq<Entity<D>>, id: Id)
    requires Contains(s, id)
    ensures |Deleted(s, id)| < |s|
    decreases |s|
  {
    if s[0].id != id {
      assert Contains(s[1..], id) by {
        var i :| 0 <= i < |s| && s[i].id == id;
        assert s[1..][i - 1].id == id;
      }
      DeletePresentShrinks(s[1..], id);
    } else {
      assert |Deleted(s[1..], id)| <= |s[1..]|;
    }
  }

  /** With unique identifiers, deleting a present one removes exactly one entity. */
  lemma {:induction false} DeleteUniqueRemovesOne<D>(s: seq<Entity<D>>, id: Id)
    requires UniqueIds(s) && Contains(s, id)
    ensures |Deleted(s, id)| == |s| - 1
    decreases |s|
  {
    TailUnique(s);
    if s[0].id == id {
      assert !Contains(s[1..], id) by {
        forall i | 0 <= i < |s[1..]| ensures s[1..][i].id != id {
          assert s[1..][i] == s[i + 1];
        }
      }
      DeleteAbsentIsNoOp(s[1..], id);
    } else {
      assert Contains(s[1..], id) by {
        var i :| 0 <= i < |s| && s[i].id == id;
        assert s[1..][i - 1].id == id;
      }
      DeleteUniqueRemovesOne(s[1..], id);
    }
  }

  /** A delete keeps identifiers unique. */
  lemma {:induction false} DeleteKeepsUnique<D>(s: seq<Entity<D>>, id: Id)
    requires UniqueIds(s)
    ensures UniqueIds(Deleted(s, id))
    decreases |s|
  {
    if s != [] {
      TailUnique(s);
      DeleteKeepsUnique(s[1..], id);
      var rest := Deleted(s[1..], id);
      if s[0].id != id {
        assert Deleted(s, id) == [s[0]] + rest;
        forall k | 0 <= k < |rest| ensures rest[k].id != s[0].id {
          HeadIdNotInTail(s, rest[k]);
        }
        ConsUnique(s[0], rest);
      } else {
        assert Deleted(s, id) == rest;
      }
    }
  }

  lemma TailUnique<D>(s: seq<Entity<D>>)
    requires s != [] && UniqueIds(s)
    ensures UniqueIds(s[1..])
  {
    var tail := s[1..];
    forall i, j | 0 <= i < j < |tail| ensures tail[i].id != tail[j].id {
      assert tail[i] == s[i + 1] && tail[j] == s[j + 1];
    }
  }

  lemma HeadIdNotInTail<D>(s: seq<Entity<D>>, e: Entity<D>)
    requires s != [] && UniqueIds(s) && e in s[1..]
    ensures e.id != s[0].id
  {
    var m :| 0 <= m < |s[1..]| && s[1..][m] == e;
    assert s[m + 1] == e;
  }

  lemma ConsUnique<D>(x: Entity<D>, rest: seq<Entity<D>>)
    requires UniqueIds(rest)
    requires forall k :: 0 <= k < |rest| ==> rest[k].id != x.id
    ensures UniqueIds([x] + rest)
  {
    var r := [x] + rest;
    forall i, j | 0 <= i < j < |r| ensures r[i].id != r[j].id {
      assert r[j] == rest[j - 1];
      if i > 0 {
        assert r[i] == rest[i - 1];
      }
    }
  }

  /** Deleting the identifier just added with a fresh id gives back the list from before the add. */
  lemma AddThenDeleteRestores<D>(s: seq<Entity<D>>, e: Entity<D>)
    requires !Contains(s, e.id)
    ensures Deleted(s + [e], e.id) == s
  {
    FilterConcat(s, [e], OtherThan(e.id));
    DeleteAbsentIsNoOp(s, e.id);
    assert Filter([e], OtherThan(e.id)) == [];
  }
}
