/**
 * The backend's tables as plain values: users, recipes and the `Like` rows,
 * with the integrity the schema declares (foreign keys, `unique_together`)
 * and the cascades that `on_delete=CASCADE` performs.
 */
module LikeModels {
  import opened Wrappers
  import opened RecipeModels

  /** The fields of Django's `User` that the serializers read. */
  datatype User = User(id: nat, username: string, email: string, firstName: string, lastName: string)

  /** A `Like` row: a foreign key to its owner and one to its recipe. */
  datatype Like = Like(owner: nat, recipe: nat, createdAt: int)

  /** The three tables, each keyed by primary key. */
  datatype Store = Store(users: map<nat, User>, recipes: map<nat, Recipe>, likes: map<nat, Like>)

  /** The rows that `Like.objects.filter(owner=user, recipe=recipe)` selects. */
  function Matching(likes: map<nat, Like>, user: nat, recipe: nat): (m: set<nat>)
    ensures forall k :: k in m <==> k in likes && likes[k].owner == user && likes[k].recipe == recipe
  {
    set k | k in likes && likes[k].owner == user && likes[k].recipe == recipe
  }

  /** The `(owner, recipe)` pairs present in the table. */
  function Pairs(likes: map<nat, Like>): (p: set<(nat, nat)>)
    ensures forall u: nat, r: nat :: (u, r) in p <==> Matching(likes, u, r) != {}
  {
    var p := set k | k in likes :: (likes[k].owner, likes[k].recipe);
    assert forall u: nat, r: nat :: Matching(likes, u, r) != {} ==> (u, r) in p by {
      forall u: nat, r: nat | Matching(likes, u, r) != {} ensures (u, r) in p {
        var k :| k in Matching(likes, u, r);
      }
    }
    p
  }

  /** `unique_together = ('owner', 'recipe')`. */
  predicate UniquePairs(likes: map<nat, Like>) {
    forall i, j :: i in likes && j in likes && i != j ==>
      likes[i].owner != likes[j].owner || likes[i].recipe != likes[j].recipe
  }

  /**
   * The integrity of the tables: keys agree with ids, usernames are unique
   * (Django's `User.username`), every foreign key resolves, and likes are
   * unique per `(owner, recipe)`.
   */
  predicate Valid(s: Store) {
    && (forall k :: k in s.users ==> s.users[k].id == k)
    && (forall k, k' :: k in s.users && k' in s.users && k != k' ==> s.users[k].username != s.users[k'].username)
    && (forall k :: k in s.recipes ==> s.recipes[k].id == k && s.recipes[k].owner in s.users)
    && (forall k :: k in s.likes ==> s.likes[k].owner in s.users && s.likes[k].recipe in s.recipes)
    && UniquePairs(s.likes)
  }

  /** Under `unique_together`, a filter on one pair selects at most one row. */
  lemma {:induction false} AtMostOneMatch(likes: map<nat, Like>, user: nat, recipe: nat)
    requires UniquePairs(likes)
    ensures |Matching(likes, user, recipe)| <= 1
  {
    var m := Matching(likes, user, recipe);
    if m != {} {
      var k :| k in m;
      assert m == {k} by {
        forall j | j in m ensures j == k {
        }
      }
    }
  }

  /** Deleting a recipe deletes every like on it (`recipe` is `on_delete=CASCADE`). */
  function DeleteRecipe(s: Store, rid: nat): (t: Store)
    ensures t.users == s.users
    ensures t.recipes == s.recipes - {rid}
    ensures forall k :: k in t.likes <==> k in s.likes && s.likes[k].recipe != rid
    ensures forall k :: k in t.likes ==> t.likes[k] == s.likes[k]
  {
    Store(s.users, s.recipes - {rid}, map k | k in s.likes && s.likes[k].recipe != rid :: s.likes[k])
  }

  /**
   * Deleting a user deletes the recipes they own (`Recipe.owner` cascades),
   * the likes they own, and the likes on their recipes (`Like.recipe` cascades).
   */
  function DeleteUser(s: Store, uid: nat): (t: Store)
    ensures t.users == s.users - {uid}
    ensures forall k :: k in t.recipes <==> k in s.recipes && s.recipes[k].owner != uid
    ensures forall k :: k in t.likes <==>
      k in s.likes && s.likes[k].owner != uid
      && !(s.likes[k].recipe in s.recipes && s.recipes[s.likes[k].recipe].owner == uid)
    ensures forall k :: k in t.recipes ==> t.recipes[k] == s.recipes[k]
    ensures forall k :: k in t.likes ==> t.likes[k] == s.likes[k]
  {
    var recipes := map k | k in s.recipes && s.recipes[k].owner != uid :: s.recipes[k];
    var likes := map k | k in s.likes && s.likes[k].owner != uid
                         && !(s.likes[k].recipe in s.recipes && s.recipes[s.likes[k].recipe].owner == uid)
                         :: s.likes[k];
    Store(s.users - {uid}, recipes, likes)
  }

  lemma DeleteRecipePreservesValid(s: Store, rid: nat)
    requires Valid(s)
    ensures Valid(DeleteRecipe(s, rid))
  {
  }

  lemma DeleteUserPreservesValid(s: Store, uid: nat)
    requires Valid(s)
    ensures Valid(DeleteUser(s, uid))
  {
    var t := DeleteUser(s, uid);
    forall k | k in t.recipes ensures t.recipes[k].id == k && t.recipes[k].owner in t.users {
      assert t.recipes[k] == s.recipes[k];
    }
    forall k | k in t.likes ensures t.likes[k].owner in t.users && t.likes[k].recipe in t.recipes {
      var l := s.likes[k];
      assert t.likes[k] == l && l.recipe in s.recipes;
      assert s.recipes[l.recipe].owner != uid;
    }
    assert UniquePairs(t.likes) by {
      forall i, j | i in t.likes && j in t.likes && i != j
        ensures t.likes[i].owner != t.likes[j].owner || t.likes[i].recipe != t.likes[j].recipe
      {
        assert t.likes[i] == s.likes[i] && t.likes[j] == s.likes[j];
      }
    }
  }

  /** `Like.__str__`: "<owner username> likes <recipe title>". */
  function LikeStr(s: Store, k: nat): (r: string)
    requires Valid(s) && k in s.likes
    ensures var name := s.users[s.likes[k].owner].username;
            var title := RecipeStr(s.recipes[s.likes[k].recipe]);
            |r| == |name| + 7 + |title| && r[..|name|] == name
            && r[|name|..|name| + 7] == " likes " && r[|name| + 7..] == title
  {
    s.users[s.likes[k].owner].username + " likes " + RecipeStr(s.recipes[s.likes[k].recipe])
  }
}
