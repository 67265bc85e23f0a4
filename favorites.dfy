/**
 * The favorites collection of the recipe page (src/pages/Index.tsx): an
 * insertion-ordered list of recipes paired with a map from recipe id to
 * recipe, which the page uses for its "is this a favorite?" lookups.
 *
 * The list and the map are always updated together; the invariant that
 * ties them is `Agree`: the map is exactly the map the load effect would
 * build from the list (every id of the list, each to the last recipe in
 * the list carrying it).
 */
module Favorites {
  import opened Builtins
  import opened Api

  datatype Collection = Collection(list: seq<Recipe>, byId: map<int, Recipe>)

  /** The initial state: `useState<Recipe[]>([])` and `useState({})`. */
  const Empty: Collection := Collection([], map[])

  /** The set of ids carried by the recipes of `s`. */
  function IdSet(s: seq<Recipe>): set<int> {
    set r | r in s :: r.id
  }

  predicate DistinctIds(s: seq<Recipe>) {
    forall i, j :: 0 <= i < j < |s| ==> s[i].id != s[j].id
  }

  /** No recipe after position `k` carries the id of `s[k]`. */
  predicate LastWithItsId(s: seq<Recipe>, k: int)
    requires 0 <= k < |s|
  {
    forall j :: k < j < |s| ==> s[j].id != s[k].id
  }

  /**
   * The map the load effect builds: `map[recipe.id] = recipe` for each
   * recipe in order, so a later recipe overwrites an earlier one.
   */
  function MapOfList(s: seq<Recipe>): (m: map<int, Recipe>)
    ensures m.Keys == IdSet(s)
  {
    if s == [] then map[]
    else
      var init := s[..|s| - 1];
      var last := s[|s| - 1];
      assert s == init + [last];
      MapOfList(init)[last.id := last]
  }

  lemma MapOfListSnoc(s: seq<Recipe>, x: Recipe)
    ensures MapOfList(s + [x]) == MapOfList(s)[x.id := x]
  {
    assert (s + [x])[..|s|] == s;
  }

  /** Each id maps to the last recipe in the list that carries it. */
  lemma {:induction false} MapOfListLastWins(s: seq<Recipe>, k: int)
    requires 0 <= k < |s| && LastWithItsId(s, k)
    ensures MapOfList(s)[s[k].id] == s[k]
  {
    var init := s[..|s| - 1];
    if k < |s| - 1 {
      assert LastWithItsId(init, k);
      MapOfListLastWins(init, k);
    }
  }

  /** With distinct ids, every recipe of the list is what its id maps to. */
  lemma MapOfListDistinct(s: seq<Recipe>, k: int)
    requires DistinctIds(s) && 0 <= k < |s|
    ensures MapOfList(s)[s[k].id] == s[k]
  {
    MapOfListLastWins(s, k);
  }

  /**
   * The `forEach` of the load effect, which fills a fresh map entry by
   * entry, proved to build `MapOfList`.
   */
  method BuildFavoritesMap(parsed: seq<Recipe>) returns (m: map<int, Recipe>)
    ensures m == MapOfList(parsed)
  {
    m := map[];
    var i := 0;
    while i < |parsed|
      invariant 0 <= i <= |parsed|
      invariant m == MapOfList(parsed[..i])
    {
      assert parsed[..i + 1][..i] == parsed[..i];
      m := m[parsed[i].id := parsed[i]];
      i := i + 1;
    }
    assert parsed[..i] == parsed;
  }

  /** The list and the map describe the same favorites. */
  predicate Agree(c: Collection) {
    c.byId == MapOfList(c.list)
  }

  /** `favorites.filter(fav => fav.id !== id)`. */
  function Without(s: seq<Recipe>, id: int): seq<Recipe> {
    if s == [] then []
    else if s[0].id == id then Without(s[1..], id)
    else [s[0]] + Without(s[1..], id)
  }

  /** Exactly the recipes carrying another id stay. */
  lemma {:induction false} WithoutMembers(s: seq<Recipe>, id: int, x: Recipe)
    ensures x in Without(s, id) <==> x in s && x.id != id
  {
    if s != [] {
      WithoutMembers(s[1..], id, x);
      assert s == [s[0]] + s[1..];
    }
  }

  /** Every recipe with another id keeps all its copies; those with the id lose all of theirs. */
  lemma {:induction false} WithoutMultiset(s: seq<Recipe>, id: int, x: Recipe)
    ensures multiset(Without(s, id))[x] == if x.id == id then 0 else multiset(s)[x]
  {
    if s != [] {
      WithoutMultiset(s[1..], id, x);
      assert s == [s[0]] + s[1..];
    }
  }

  lemma WithoutDropsId(s: seq<Recipe>, id: int)
    ensures id !in IdSet(Without(s, id))
  {
    forall x | x in Without(s, id)
      ensures x.id != id
    {
      WithoutMembers(s, id, x);
    }
  }

  /** The recipes that stay keep their relative order. */
  lemma {:induction false} WithoutIsSubsequence(s: seq<Recipe>, id: int)
    ensures IsSubsequence(Without(s, id), s)
  {
    if s != [] {
      WithoutIsSubsequence(s[1..], id);
      var r := Without(s, id);
      if s[0].id == id {
        assert r == Without(s[1..], id);
        SubsequenceCons(r, s[0], s[1..]);
        assert [s[0]] + s[1..] == s;
      } else {
        assert r[0] == s[0] && r[1..] == Without(s[1..], id);
      }
    }
  }

  lemma {:induction false} WithoutSnoc(s: seq<Recipe>, x: Recipe, id: int)
    ensures Without(s + [x], id) == Without(s, id) + (if x.id == id then [] else [x])
  {
    if s == [] {
      assert [] + [x] == [x];
      assert [x][1..] == [];
    } else {
      assert (s + [x])[0] == s[0] && (s + [x])[1..] == s[1..] + [x];
      WithoutSnoc(s[1..], x, id);
    }
  }

  lemma UpdateThenRemove<K, V>(m: map<K, V>, k: K, v: V, d: K)
    ensures k != d ==> m[k := v] - {d} == (m - {d})[k := v]
    ensures k == d ==> m[k := v] - {d} == m - {d}
  {
  }

  /** Filtering the list by id removes that id from its map and nothing else. */
  lemma {:induction false} MapOfListWithout(s: seq<Recipe>, id: int)
    ensures MapOfList(Without(s, id)) == MapOfList(s) - {id}
  {
    if s != [] {
      var init := s[..|s| - 1];
      var last := s[|s| - 1];
      assert s == init + [last];
      WithoutSnoc(init, last, id);
      MapOfListWithout(init, id);
      var m := MapOfList(init);
      var w := Without(init, id);
      assert MapOfList(s) == m[last.id := last];
      UpdateThenRemove(m, last.id, last, id);
      if last.id != id {
        assert Without(s, id) == w + [last];
        MapOfListSnoc(w, last);
        assert MapOfList(Without(s, id)) == MapOfList(w)[last.id := last];
      } else {
        assert Without(s, id) == w;
      }
    } else {
      assert MapOfList(s) - {id} == map[];
    }
  }

  /** An id that no recipe of the list carries is not filtered out of anything. */
  lemma {:induction false} WithoutAbsent(s: seq<Recipe>, id: int)
    requires id !in IdSet(s)
    ensures Without(s, id) == s
  {
    if s != [] {
      assert s[0] in s;
      assert IdSet(s[1..]) <= IdSet(s) by {
        forall r | r in s[1..] ensures r in s { }
      }
      WithoutAbsent(s[1..], id);
      assert [s[0]] + s[1..] == s;
    }
  }

  /** `handleFavoriteRemove(recipeId)`: filter the list, delete the key. */
  function Remove(c: Collection, id: int): Collection {
    Collection(Without(c.list, id), c.byId - {id})
  }

  /**
   * `handleFavoriteToggle(recipe)`: a recipe whose id is mapped is removed
   * (as `Remove` does); any other recipe is appended and mapped.
   */
  function Toggle(c: Collection, r: Recipe): Collection {
    if r.id in c.byId then Remove(c, r.id)
    else Collection(c.list + [r], c.byId[r.id := r])
  }

  /** Toggling flips whether the recipe's id is a favorite. */
  lemma ToggleFlips(c: Collection, r: Recipe)
    requires Agree(c)
    ensures r.id in Toggle(c, r).byId <==> r.id !in c.byId
    ensures r.id in IdSet(Toggle(c, r).list) <==> r.id !in IdSet(c.list)
    ensures r.id in Toggle(c, r).byId ==> Toggle(c, r).byId[r.id] == r
  {
    var t := Toggle(c, r);
    if r.id in c.byId {
      WithoutDropsId(c.list, r.id);
    } else {
      assert r in t.list;
    }
  }

  /** Removing only touches the removed id: every other entry is kept as is. */
  lemma RemoveKeepsOthers(c: Collection, id: int, x: int)
    requires Agree(c) && x != id
    ensures x in Remove(c, id).byId <==> x in c.byId
    ensures x in c.byId ==> Remove(c, id).byId[x] == c.byId[x]
    ensures IsSubsequence(Remove(c, id).list, c.list)
    ensures id !in IdSet(Remove(c, id).list)
  {
    WithoutIsSubsequence(c.list, id);
    WithoutDropsId(c.list, id);
  }

  lemma ToggleKeepsAgree(c: Collection, r: Recipe)
    requires Agree(c)
    ensures Agree(Toggle(c, r))
  {
    if r.id in c.byId {
      MapOfListWithout(c.list, r.id);
    } else {
      MapOfListSnoc(c.list, r);
    }
  }

  lemma RemoveKeepsAgree(c: Collection, id: int)
    requires Agree(c)
    ensures Agree(Remove(c, id))
  {
    MapOfListWithout(c.list, id);
  }

  /** Toggling a recipe that is not a favorite, then toggling it again, restores everything. */
  lemma ToggleTwiceRestores(c: Collection, r: Recipe)
    requires Agree(c) && r.id !in c.byId
    ensures Toggle(Toggle(c, r), r) == c
  {
    var t := Toggle(c, r);
    assert t.list == c.list + [r];
    WithoutSnoc(c.list, r, r.id);
    WithoutAbsent(c.list, r.id);
    assert t.byId - {r.id} == c.byId;
  }

  /** Removing an id that is not a favorite changes nothing. */
  lemma RemoveAbsent(c: Collection, id: int)
    requires Agree(c) && id !in c.byId
    ensures Remove(c, id) == c
  {
    WithoutAbsent(c.list, id);
    assert c.byId - {id} == c.byId;
  }

  /**
   * The weaker invariant: the map's keys are the list's ids, the ids are
   * distinct, and each maps to its recipe.
   */
  predicate Consistent(c: Collection) {
    && c.byId.Keys == IdSet(c.list)
    && DistinctIds(c.list)
    && forall k :: 0 <= k < |c.list| ==> c.byId[c.list[k].id] == c.list[k]
  }

  /** Distinct ids and `Agree` together are exactly `Consistent`. */
  lemma ConsistentIsAgreeWithDistinctIds(c: Collection)
    ensures Consistent(c) <==> Agree(c) && DistinctIds(c.list)
  {
    if Agree(c) && DistinctIds(c.list) {
      forall k | 0 <= k < |c.list|
        ensures c.byId[c.list[k].id] == c.list[k]
      {
        MapOfListDistinct(c.list, k);
      }
    }
    if Consistent(c) {
      forall id | id in c.byId
        ensures c.byId[id] == MapOfList(c.list)[id]
      {
        var k :| 0 <= k < |c.list| && c.list[k].id == id;
        MapOfListDistinct(c.list, k);
      }
    }
  }

  lemma {:induction false} WithoutKeepsDistinct(s: seq<Recipe>, id: int)
    requires DistinctIds(s)
    ensures DistinctIds(Without(s, id))
  {
    if s != [] {
      WithoutKeepsDistinct(s[1..], id);
      var w := Without(s[1..], id);
      if s[0].id != id {
        forall k | 0 <= k < |w|
          ensures w[k].id != s[0].id
        {
          WithoutMembers(s[1..], id, w[k]);
          var j :| 0 <= j < |s[1..]| && s[1..][j] == w[k];
          assert s[j + 1] == w[k];
        }
      }
    }
  }

  lemma ToggleKeepsConsistent(c: Collection, r: Recipe)
    requires Consistent(c)
    ensures Consistent(Toggle(c, r))
  {
    ConsistentIsAgreeWithDistinctIds(c);
    ToggleKeepsAgree(c, r);
    if r.id in c.byId {
      WithoutKeepsDistinct(c.list, r.id);
    } else {
      assert r.id !in IdSet(c.list);
      var s := c.list + [r];
      forall i, j | 0 <= i < j < |s|
        ensures s[i].id != s[j].id
      {
        if j == |s| - 1 {
          assert s[i] in c.list;
        }
      }
    }
    ConsistentIsAgreeWithDistinctIds(Toggle(c, r));
  }

  lemma RemoveKeepsConsistent(c: Collection, id: int)
    requires Consistent(c)
    ensures Consistent(Remove(c, id))
  {
    ConsistentIsAgreeWithDistinctIds(c);
    RemoveKeepsAgree(c, id);
    WithoutKeepsDistinct(c.list, id);
    ConsistentIsAgreeWithDistinctIds(Remove(c, id));
  }
}
