/**
 * `LikeToggleAPIView.post`: an authenticated user toggles their like on a
 * recipe. The table of `Like` rows is the only state it changes.
 */
module LikeViews {
  import opened Wrappers
  import opened RecipeModels
  import opened LikeModels

  const HTTP_201_CREATED: nat := 201
  const HTTP_204_NO_CONTENT: nat := 204
  const HTTP_401_UNAUTHORIZED: nat := 401
  const HTTP_404_NOT_FOUND: nat := 404
  /** `Like.objects.get` raising `MultipleObjectsReturned`, which the view does not catch. */
  const HTTP_500_INTERNAL_SERVER_ERROR: nat := 500

  /** Every row key is below the next primary key the table hands out. */
  predicate FreshKey(likes: map<nat, Like>, nextId: nat) {
    forall k :: k in likes ==> k < nextId
  }

  datatype Toggled = Toggled(status: nat, likes: map<nat, Like>, nextId: nat)

  /**
   * The response status and the new like table. `user` is `None` for an
   * anonymous request, which `IsAuthenticated` turns away before `post` runs.
   */
  function Toggle(recipes: map<nat, Recipe>, likes: map<nat, Like>, nextId: nat,
                  user: Option<nat>, pk: nat, now: int): (t: Toggled)
    ensures t.status == HTTP_401_UNAUTHORIZED <==> user.None?
    ensures t.status == HTTP_404_NOT_FOUND <==> user.Some? && pk !in recipes
    ensures t.status == HTTP_201_CREATED ==>
      && t.nextId == nextId + 1
      && nextId in t.likes && t.likes[nextId] == Like(user.value, pk, now)
      && forall k :: k in likes && k != nextId ==> k in t.likes && t.likes[k] == likes[k]
    ensures t.status == HTTP_204_NO_CONTENT ==>
      && t.nextId == nextId
      && (forall k :: k in t.likes ==> k in likes && t.likes[k] == likes[k])
      && exists k :: k in likes && k !in t.likes && likes[k].owner == user.value && likes[k].recipe == pk
    ensures t.status !in {HTTP_201_CREATED, HTTP_204_NO_CONTENT} ==> t.likes == likes && t.nextId == nextId
  {
    if user.None? then Toggled(HTTP_401_UNAUTHORIZED, likes, nextId)
    else if pk !in recipes then Toggled(HTTP_404_NOT_FOUND, likes, nextId)
    else
      var m := Matching(likes, user.value, pk);
      if m == {} then
        Toggled(HTTP_201_CREATED, likes[nextId := Like(user.value, pk, now)], nextId + 1)
      else if |m| == 1 then
        Toggled(HTTP_204_NO_CONTENT, likes - m, nextId)
      else
        Toggled(HTTP_500_INTERNAL_SERVER_ERROR, likes, nextId)
  }

  /**
   * The three answers of the view: 404 for an unknown recipe, 204 when the
   * pair was present, 201 when it was absent; anonymous requests get 401.
   * Only the first two leave the table as it was.
   */
  lemma ToggleStatus(recipes: map<nat, Recipe>, likes: map<nat, Like>, nextId: nat,
                     user: Option<nat>, pk: nat, now: int)
    requires UniquePairs(likes)
    ensures var t := Toggle(recipes, likes, nextId, user, pk, now);
      && (t.status == HTTP_401_UNAUTHORIZED <==> user.None?)
      && (t.status == HTTP_404_NOT_FOUND <==> user.Some? && pk !in recipes)
      && (t.status == HTTP_204_NO_CONTENT <==> user.Some? && pk in recipes && (user.value, pk) in Pairs(likes))
      && (t.status == HTTP_201_CREATED <==> user.Some? && pk in recipes && (user.value, pk) !in Pairs(likes))
      && (t.status == HTTP_401_UNAUTHORIZED || t.status == HTTP_404_NOT_FOUND ==> t.likes == likes && t.nextId == nextId)
  {
    if user.Some? {
      AtMostOneMatch(likes, user.value, pk);
    }
  }

  /**
   * On a known recipe, the set of `(owner, recipe)` pairs changes by exactly
   * the requesting user's pair: removed when it was there, added otherwise.
   */
  lemma {:induction false} TogglePairs(recipes: map<nat, Recipe>, likes: map<nat, Like>, nextId: nat,
                                       user: nat, pk: nat, now: int)
    requires UniquePairs(likes) && FreshKey(likes, nextId) && pk in recipes
    ensures var t := Toggle(recipes, likes, nextId, Some(user), pk, now);
      Pairs(t.likes) == if (user, pk) in Pairs(likes) then Pairs(likes) - {(user, pk)}
                        else Pairs(likes) + {(user, pk)}
  {
    var t := Toggle(recipes, likes, nextId, Some(user), pk, now);
    var m := Matching(likes, user, pk);
    AtMostOneMatch(likes, user, pk);
    if m == {} {
      assert t.likes == likes[nextId := Like(user, pk, now)];
      InsertAddsPair(likes, nextId, Like(user, pk, now));
    } else {
      assert t.likes == likes - m;
      RemoveDropsPair(likes, user, pk);
    }
  }

  /** A row under a fresh key adds exactly its pair. */
  lemma InsertAddsPair(likes: map<nat, Like>, key: nat, like: Like)
    requires key !in likes
    ensures Pairs(likes[key := like]) == Pairs(likes) + {(like.owner, like.recipe)}
  {
    var after := likes[key := like];
    forall u: nat, r: nat
      ensures Matching(after, u, r) != {} <==> Matching(likes, u, r) != {} || (u, r) == (like.owner, like.recipe)
    {
      if Matching(likes, u, r) != {} {
        var k :| k in Matching(likes, u, r);
        assert k in Matching(after, u, r);
      }
      if (u, r) == (like.owner, like.recipe) {
        assert key in Matching(after, u, r);
      }
      if Matching(after, u, r) != {} {
        var k :| k in Matching(after, u, r);
        if k != key {
          assert k in Matching(likes, u, r);
        }
      }
    }
  }

  /** Removing the rows of a present pair drops exactly that pair. */
  lemma RemoveDropsPair(likes: map<nat, Like>, user: nat, pk: nat)
    requires Matching(likes, user, pk) != {}
    ensures Pairs(likes - Matching(likes, user, pk)) == Pairs(likes) - {(user, pk)}
  {
    var after := likes - Matching(likes, user, pk);
    forall u: nat, r: nat
      ensures Matching(after, u, r) != {} <==> Matching(likes, u, r) != {} && (u, r) != (user, pk)
    {
      if Matching(after, u, r) != {} {
        var k :| k in Matching(after, u, r);
        assert k in Matching(likes, u, r);
      }
      if Matching(likes, u, r) != {} && (u, r) != (user, pk) {
        var k :| k in Matching(likes, u, r);
        assert k in Matching(after, u, r);
      }
    }
  }

  /** Every row other than the requesting user's row on `pk` keeps its key and its value. */
  lemma ToggleKeepsOtherRows(recipes: map<nat, Recipe>, likes: map<nat, Like>, nextId: nat,
                             user: Option<nat>, pk: nat, now: int)
    requires FreshKey(likes, nextId)
    ensures var t := Toggle(recipes, likes, nextId, user, pk, now);
      forall k :: k in likes && (user.None? || likes[k].owner != user.value || likes[k].recipe != pk)
        ==> k in t.likes && t.likes[k] == likes[k]
  {
  }

  /** Inserting a row for a pair that has none keeps `unique_together`. */
  lemma InsertKeepsUnique(likes: map<nat, Like>, nextId: nat, user: nat, pk: nat, now: int)
    requires UniquePairs(likes) && FreshKey(likes, nextId) && Matching(likes, user, pk) == {}
    ensures UniquePairs(likes[nextId := Like(user, pk, now)])
  {
    var t := likes[nextId := Like(user, pk, now)];
    forall i, j | i in t && j in t && i != j
      ensures t[i].owner != t[j].owner || t[i].recipe != t[j].recipe
    {
      if i == nextId {
        assert j !in Matching(likes, user, pk);
      } else if j == nextId {
        assert i !in Matching(likes, user, pk);
      }
    }
  }

  /** A store stays valid when its like table is replaced by one that keeps the integrity rules. */
  lemma ValidWithLikes(s: Store, likes: map<nat, Like>)
    requires Valid(s) && UniquePairs(likes)
    requires forall k :: k in likes ==> likes[k].owner in s.users && likes[k].recipe in s.recipes
    ensures Valid(s.(likes := likes))
  {
  }

  /** A toggle keeps `unique_together`, the foreign keys and the freshness of the next key. */
  lemma TogglePreservesValid(s: Store, nextId: nat, user: Option<nat>, pk: nat, now: int)
    requires Valid(s) && FreshKey(s.likes, nextId)
    requires user.Some? ==> user.value in s.users
    ensures var t := Toggle(s.recipes, s.likes, nextId, user, pk, now);
      Valid(s.(likes := t.likes)) && FreshKey(t.likes, t.nextId)
  {
    var t := Toggle(s.recipes, s.likes, nextId, user, pk, now);
    if user.None? || pk !in s.recipes {
      assert s.(likes := t.likes) == s;
    } else {
      var m := Matching(s.likes, user.value, pk);
      AtMostOneMatch(s.likes, user.value, pk);
      if m == {} {
        var row := Like(user.value, pk, now);
        assert t.likes == s.likes[nextId := row];
        InsertKeepsUnique(s.likes, nextId, user.value, pk, now);
        ValidWithLikes(s, s.likes[nextId := row]);
      } else {
        assert t.likes == s.likes - m;
        assert UniquePairs(s.likes - m);
        ValidWithLikes(s, s.likes - m);
      }
    }
  }

  /** Two successive toggles by one user on one existing recipe restore the set of pairs. */
  lemma ToggleTwiceRestoresPairs(recipes: map<nat, Recipe>, likes: map<nat, Like>, nextId: nat,
                                 user: nat, pk: nat, now: int, later: int)
    requires UniquePairs(likes) && FreshKey(likes, nextId) && pk in recipes
    ensures var t1 := Toggle(recipes, likes, nextId, Some(user), pk, now);
      var t2 := Toggle(recipes, t1.likes, t1.nextId, Some(user), pk, later);
      Pairs(t2.likes) == Pairs(likes)
  {
    var t1 := Toggle(recipes, likes, nextId, Some(user), pk, now);
    TogglePairs(recipes, likes, nextId, user, pk, now);
    if Matching(likes, user, pk) == {} {
      InsertKeepsUnique(likes, nextId, user, pk, now);
    }
    TogglePairs(recipes, t1.likes, t1.nextId, user, pk, later);
  }

  /** The like table the view writes to, with its auto-increment counter. */
  class LikeTable {
    var rows: map<nat, Like>
    var nextId: nat

    ghost predicate Valid()
      reads this
    {
      UniquePairs(rows) && FreshKey(rows, nextId)
    }

    constructor ()
      ensures Valid() && rows == map[] && nextId == 0
    {
      rows := map[];
      nextId := 0;
    }

    /** `post(request, pk)`: delete the user's like on `pk`, or create it. */
    method Post(recipes: map<nat, Recipe>, user: Option<nat>, pk: nat, now: int) returns (status: nat)
      requires Valid()
      modifies this
      ensures Valid()
      ensures Toggled(status, rows, nextId) == Toggle(recipes, old(rows), old(nextId), user, pk, now)
    {
      if user.None? {
        return HTTP_401_UNAUTHORIZED;
      }
      if pk !in recipes {
        return HTTP_404_NOT_FOUND;
      }
      var existing := Matching(rows, user.value, pk);
      AtMostOneMatch(rows, user.value, pk);
      if existing == {} {
        InsertKeepsUnique(rows, nextId, user.value, pk, now);
        rows := rows[nextId := Like(user.value, pk, now)];
        nextId := nextId + 1;
        status := HTTP_201_CREATED;
      } else {
        rows := rows - existing;
        status := HTTP_204_NO_CONTENT;
      }
    }
  }
}
