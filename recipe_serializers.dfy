/**
 * `RecipeSerializer`: the twelve output fields of a recipe, with the owner
 * shown by username and the two fields computed from the like table.
 */
module RecipeSerializers {
  import opened Wrappers
  import opened RecipeModels
  import opened LikeModels
  import LikeViews

  /** The serialised recipe, one field per entry of `Meta.fields`, in that order. */
  datatype RecipeOut = RecipeOut(
    id: nat,
    owner: string,
    title: string,
    category: string,
    dietType: string,
    description: Option<string>,
    ingredients: string,
    instructions: string,
    createdAt: int,
    updatedAt: int,
    likeCount: int,
    userHasLiked: bool)

  /** The rows of `obj.likes`, the likes whose foreign key is the recipe. */
  function LikesOn(likes: map<nat, Like>, rid: nat): (r: set<nat>)
    ensures forall k :: k in r <==> k in likes && likes[k].recipe == rid
  {
    set k | k in likes && likes[k].recipe == rid
  }

  /** `get_like_count`: `obj.likes.count()`. */
  function LikeCount(likes: map<nat, Like>, rid: nat): nat {
    |LikesOn(likes, rid)|
  }

  /**
   * `get_user_has_liked`: false for an anonymous request, otherwise whether
   * a like by the requesting user on the recipe exists.
   */
  function UserHasLiked(likes: map<nat, Like>, rid: nat, requestUser: Option<nat>): (b: bool)
    ensures requestUser.None? ==> !b
    ensures requestUser.Some? ==> (b <==> (requestUser.value, rid) in Pairs(likes))
  {
    requestUser.Some? && Matching(likes, requestUser.value, rid) != {}
  }

  /** The serialised form of recipe `rid` for a request made by `requestUser`. */
  function Serialize(s: Store, rid: nat, requestUser: Option<nat>): (o: RecipeOut)
    requires Valid(s) && rid in s.recipes
    ensures o.id == rid && o.owner == s.users[s.recipes[rid].owner].username
    ensures o.category == CategoryCode(s.recipes[rid].category)
    ensures o.dietType == DietTypeCode(s.recipes[rid].dietType)
    ensures o.likeCount == |LikesOn(s.likes, rid)|
    ensures o.userHasLiked <==> requestUser.Some? && (requestUser.value, rid) in Pairs(s.likes)
  {
    var r := s.recipes[rid];
    RecipeOut(r.id, s.users[r.owner].username, r.title, CategoryCode(r.category), DietTypeCode(r.dietType),
              r.description, r.ingredients, r.instructions, r.createdAt, r.updatedAt,
              LikeCount(s.likes, rid), UserHasLiked(s.likes, rid, requestUser))
  }

  /** A new row on `pk` under a fresh key adds one like to `pk` and none to any other recipe. */
  lemma InsertedRowCounts(likes: map<nat, Like>, key: nat, row: Like, rid: nat)
    requires key !in likes
    ensures LikeCount(likes[key := row], rid) == LikeCount(likes, rid) + (if row.recipe == rid then 1 else 0)
  {
    if row.recipe == rid {
      assert LikesOn(likes[key := row], rid) == LikesOn(likes, rid) + {key};
    } else {
      assert LikesOn(likes[key := row], rid) == LikesOn(likes, rid);
    }
  }

  /** Removing one row takes one like away from its recipe and none from any other. */
  lemma RemovedRowCounts(likes: map<nat, Like>, key: nat, rid: nat)
    requires key in likes
    ensures LikeCount(likes - {key}, rid) == LikeCount(likes, rid) - (if likes[key].recipe == rid then 1 else 0)
  {
    if likes[key].recipe == rid {
      assert LikesOn(likes - {key}, rid) == LikesOn(likes, rid) - {key};
    } else {
      assert LikesOn(likes - {key}, rid) == LikesOn(likes, rid);
    }
  }

  /**
   * On an existing recipe a toggle answers 201 or 204; it moves the like
   * count of `pk` by one in the direction of its status and flips the user's
   * `user_has_liked`; the like count of every other recipe is unchanged.
   */
  lemma {:induction false} ToggleMovesCounts(recipes: map<nat, Recipe>, likes: map<nat, Like>, nextId: nat,
                                             user: nat, pk: nat, now: int, rid: nat)
    requires UniquePairs(likes) && LikeViews.FreshKey(likes, nextId) && pk in recipes
    ensures var t := LikeViews.Toggle(recipes, likes, nextId, Some(user), pk, now);
      && (t.status == LikeViews.HTTP_201_CREATED || t.status == LikeViews.HTTP_204_NO_CONTENT)
      && LikeCount(t.likes, rid) == LikeCount(likes, rid) + (
           if rid != pk then 0 else if t.status == LikeViews.HTTP_201_CREATED then 1 else -1)
      && UserHasLiked(t.likes, pk, Some(user)) == !UserHasLiked(likes, pk, Some(user))
  {
    var t := LikeViews.Toggle(recipes, likes, nextId, Some(user), pk, now);
    var m := Matching(likes, user, pk);
    AtMostOneMatch(likes, user, pk);
    LikeViews.TogglePairs(recipes, likes, nextId, user, pk, now);
    if m == {} {
      assert nextId !in likes;
      InsertedRowCounts(likes, nextId, Like(user, pk, now), rid);
    } else {
      var k :| k in m;
      assert m == {k};
      RemovedRowCounts(likes, k, rid);
    }
  }
}
