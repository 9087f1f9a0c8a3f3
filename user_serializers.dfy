/**
 * The user-facing serializers: registration (`create` with its defaults),
 * the token with its extra `username` claim, and the profile with its
 * `total_likes_received`.
 */
module UserSerializers {
  import opened Wrappers
  import opened RecipeModels
  import opened LikeModels
  import opened RecipeSerializers

  /** A registration body; `None` is an absent key. */
  datatype RegistrationData = RegistrationData(
    username: Option<string>,
    password: Option<string>,
    email: Option<string>,
    firstName: Option<string>,
    lastName: Option<string>)

  /** What `create_user` receives: the new row and the raw password it hashes. */
  datatype NewUser = NewUser(user: User, password: string)

  /**
   * `UserRegistrationSerializer.create`: `username` and `password` are
   * required (a missing one is a failed validation), the three optional
   * fields default to the empty string.
   */
  function Create(data: RegistrationData, id: nat): (r: Option<NewUser>)
    ensures r.Some? <==> data.username.Some? && data.password.Some?
    ensures r.Some? ==>
      && r.value.user.id == id
      && r.value.user.username == data.username.value
      && r.value.password == data.password.value
      && r.value.user.email == (if data.email.Some? then data.email.value else "")
      && r.value.user.firstName == (if data.firstName.Some? then data.firstName.value else "")
      && r.value.user.lastName == (if data.lastName.Some? then data.lastName.value else "")
  {
    if data.username.None? || data.password.None? then None
    else
      Some(NewUser(
        User(id, data.username.value, data.email.GetOr(""), data.firstName.GetOr(""), data.lastName.GetOr("")),
        data.password.value))
  }

  /** The registration serializer's output: `Meta.fields` without the write-only `password`. */
  function RegistrationOutput(u: User): (out: seq<(string, string)>)
    ensures forall i :: 0 <= i < |out| ==> out[i].0 != "password"
    ensures |out| == 4 && out[0] == ("username", u.username)
  {
    [("username", u.username), ("email", u.email), ("first_name", u.firstName), ("last_name", u.lastName)]
  }

  /** The payload claims of an issued token that the client reads. */
  datatype Claims = Claims(userId: nat, username: string)

  /** `MyTokenObtainPairSerializer.get_token`: the standard user-id claim plus `username`. */
  function GetToken(u: User): (c: Claims)
    ensures c.username == u.username && c.userId == u.id
  {
    Claims(u.id, u.username)
  }

  /** The likes on any recipe owned by `uid`: `Like.objects.filter(recipe__owner=obj)`. */
  function LikesReceived(s: Store, uid: nat): (r: set<nat>)
    ensures forall k :: k in r <==>
      k in s.likes && s.likes[k].recipe in s.recipes && s.recipes[s.likes[k].recipe].owner == uid
  {
    set k | k in s.likes && s.likes[k].recipe in s.recipes && s.recipes[s.likes[k].recipe].owner == uid
  }

  /** `get_total_likes_received`. */
  function TotalLikesReceived(s: Store, uid: nat): nat {
    |LikesReceived(s, uid)|
  }

  /** The sum of the like counts of the recipes listed in `ids`. */
  function SumLikeCounts(likes: map<nat, Like>, ids: seq<nat>): nat {
    if ids == [] then 0 else LikeCount(likes, ids[0]) + SumLikeCounts(likes, ids[1..])
  }

  /** The likes on any recipe listed in `ids`. */
  function LikesOnAny(likes: map<nat, Like>, ids: seq<nat>): (r: set<nat>)
    ensures forall k :: k in r <==> k in likes && likes[k].recipe in ids
  {
    set k | k in likes && likes[k].recipe in ids
  }

  predicate Distinct(ids: seq<nat>) {
    forall i, j :: 0 <= i < j < |ids| ==> ids[i] != ids[j]
  }

  /** Over distinct recipes, the likes on any of them are as many as the sum of their counts. */
  lemma {:induction false} LikesOnAnyIsSum(likes: map<nat, Like>, ids: seq<nat>)
    requires Distinct(ids)
    ensures |LikesOnAny(likes, ids)| == SumLikeCounts(likes, ids)
  {
    if ids != [] {
      var rest := ids[1..];
      assert Distinct(rest);
      LikesOnAnyIsSum(likes, rest);
      assert ids[0] !in rest;
      assert LikesOnAny(likes, ids) == LikesOn(likes, ids[0]) + LikesOnAny(likes, rest);
      assert LikesOn(likes, ids[0]) * LikesOnAny(likes, rest) == {};
    }
  }

  /**
   * `total_likes_received` equals the sum of `like_count` over the user's
   * recipes, listed in any order without repetition.
   */
  lemma TotalIsSumOfRecipeCounts(s: Store, uid: nat, ids: seq<nat>)
    requires Valid(s) && Distinct(ids)
    requires forall k :: k in ids <==> k in s.recipes && s.recipes[k].owner == uid
    ensures TotalLikesReceived(s, uid) == SumLikeCounts(s.likes, ids)
  {
    LikesOnAnyIsSum(s.likes, ids);
    assert LikesReceived(s, uid) == LikesOnAny(s.likes, ids);
  }

  /** `UserProfileSerializer`'s output, one field per entry of `Meta.fields`. */
  datatype ProfileOut = ProfileOut(
    id: nat,
    username: string,
    email: string,
    firstName: string,
    lastName: string,
    recipes: seq<RecipeOut>,
    totalLikesReceived: nat)

  /**
   * The profile of `uid`, whose recipes the related manager yields in the
   * order `ids` (the order is not fixed by the source, so it is a parameter).
   */
  function Profile(s: Store, uid: nat, ids: seq<nat>, requestUser: Option<nat>): (p: ProfileOut)
    requires Valid(s) && uid in s.users
    requires forall k :: k in ids ==> k in s.recipes
    ensures p.id == uid && p.username == s.users[uid].username
    ensures |p.recipes| == |ids|
    ensures forall i :: 0 <= i < |ids| ==> p.recipes[i] == Serialize(s, ids[i], requestUser)
    ensures p.totalLikesReceived == TotalLikesReceived(s, uid)
  {
    var u := s.users[uid];
    ProfileOut(u.id, u.username, u.email, u.firstName, u.lastName,
               seq(|ids|, i requires 0 <= i < |ids| => Serialize(s, ids[i], requestUser)),
               TotalLikesReceived(s, uid))
  }

  /** The sum of the `like_count` fields of serialised recipes. */
  function SumOfShownCounts(rs: seq<RecipeOut>): int {
    if rs == [] then 0 else rs[0].likeCount + SumOfShownCounts(rs[1..])
  }

  /**
   * On a profile listing exactly the user's recipes, `total_likes_received`
   * equals the sum of the `like_count` shown on those recipes.
   */
  lemma {:induction false} ProfileTotalMatchesShownCounts(s: Store, uid: nat, ids: seq<nat>, requestUser: Option<nat>)
    requires Valid(s) && uid in s.users && Distinct(ids)
    requires forall k :: k in ids <==> k in s.recipes && s.recipes[k].owner == uid
    ensures var p := Profile(s, uid, ids, requestUser);
      p.totalLikesReceived == SumOfShownCounts(p.recipes)
  {
    TotalIsSumOfRecipeCounts(s, uid, ids);
    ShownCountsAreSum(s, ids, requestUser);
  }

  lemma {:induction false} ShownCountsAreSum(s: Store, ids: seq<nat>, requestUser: Option<nat>)
    requires Valid(s) && forall k :: k in ids ==> k in s.recipes
    ensures SumOfShownCounts(seq(|ids|, i requires 0 <= i < |ids| => Serialize(s, ids[i], requestUser)))
            == SumLikeCounts(s.likes, ids)
  {
    var shown := seq(|ids|, i requires 0 <= i < |ids| => Serialize(s, ids[i], requestUser));
    if ids != [] {
      ShownCountsAreSum(s, ids[1..], requestUser);
      assert shown[1..] == seq(|ids[1..]|, i requires 0 <= i < |ids[1..]| => Serialize(s, ids[1..][i], requestUser));
    }
  }
}
