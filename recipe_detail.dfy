/**
 * The recipe detail page: the optimistic like toggle, the category and
 * diet names shown for the recipe's codes, and the owner check.
 */
module RecipeDetail {
  import opened Wrappers
  import opened RecipeModels
  import opened LikeModels
  import opened RecipeSerializers
  import opened UserSerializers
  import opened Constants
  import LikeViews

  const LoginRoute: string := "/login"

  /** The optimistic update: flip `user_has_liked` and move `like_count` by one. */
  function ToggledView(r: RecipeOut): (t: RecipeOut)
    ensures t.userHasLiked == !r.userHasLiked
    ensures t.likeCount == if r.userHasLiked then r.likeCount - 1 else r.likeCount + 1
    ensures t.(likeCount := r.likeCount, userHasLiked := r.userHasLiked) == r
  {
    r.(likeCount := if r.userHasLiked then r.likeCount - 1 else r.likeCount + 1,
       userHasLiked := !r.userHasLiked)
  }

  /** Two successful toggles restore the record. */
  lemma ToggleTwiceRestoresView(r: RecipeOut)
    ensures ToggledView(ToggledView(r)) == r
  {
  }

  /**
   * The optimistic update agrees with the server: when the page shows what
   * the serializer produced, flipping it gives what the serializer produces
   * after the toggle the request performed.
   */
  lemma {:induction false} OptimisticToggleMatchesServer(s: Store, nextId: nat, user: nat, pk: nat, now: int)
    requires Valid(s) && LikeViews.FreshKey(s.likes, nextId) && user in s.users && pk in s.recipes
    ensures var t := LikeViews.Toggle(s.recipes, s.likes, nextId, Some(user), pk, now);
      && Valid(s.(likes := t.likes))
      && ToggledView(Serialize(s, pk, Some(user))) == Serialize(s.(likes := t.likes), pk, Some(user))
  {
    var t := LikeViews.Toggle(s.recipes, s.likes, nextId, Some(user), pk, now);
    LikeViews.TogglePreservesValid(s, nextId, Some(user), pk, now);
    ToggleMovesCounts(s.recipes, s.likes, nextId, user, pk, now, pk);
    LikeViews.ToggleStatus(s.recipes, s.likes, nextId, Some(user), pk, now);
  }

  /** `table.find(c => c.code === code)?.name`. */
  function FindName(table: seq<Choice>, code: string): (r: Option<string>)
    ensures r.None? <==> forall i :: 0 <= i < |table| ==> table[i].code != code
    ensures r.Some? ==> exists i :: 0 <= i < |table| && table[i] == Choice(code, r.value)
                                   && forall j :: 0 <= j < i ==> table[j].code != code
  {
    if table == [] then None
    else if table[0].code == code then Some(table[0].name)
    else
      var r := FindName(table[1..], code);
      if r.Some? then
        ghost var i :| 0 <= i < |table[1..]| && table[1..][i] == Choice(code, r.value)
                       && forall j :: 0 <= j < i ==> table[1..][j].code != code;
        assert table[i + 1] == Choice(code, r.value);
        r
      else r
  }

  /** The name shown for a code: the table's name when a row matches, else the raw code. */
  function DisplayName(table: seq<Choice>, code: string): (name: string)
    ensures (exists i :: 0 <= i < |table| && table[i].code == code) ==>
              exists i :: 0 <= i < |table| && table[i] == Choice(code, name)
    ensures (forall i :: 0 <= i < |table| ==> table[i].code != code) ==> name == code
  {
    FindName(table, code).GetOr(code)
  }

  /** The name shown for each backend category and diet type is its label; an unknown code shows as itself. */
  lemma DisplayNames(c: Category, d: DietType, code: string)
    ensures DisplayName(Categories, CategoryCode(c)) == CategoryLabel(c)
    ensures DisplayName(DietTypes, DietTypeCode(d)) == DietTypeLabel(d)
    ensures (forall i :: 0 <= i < |Categories| ==> Categories[i].code != code) ==> DisplayName(Categories, code) == code
    ensures (forall i :: 0 <= i < |DietTypes| ==> DietTypes[i].code != code) ==> DisplayName(DietTypes, code) == code
  {
    TableCodesDistinct();
    TablesMatchBackendChoices();
    var ci := CategoryIndex(c);
    var di := DietTypeIndex(d);
    assert Categories[ci + 1] == Choice(CategoryCode(c), CategoryLabel(c));
    assert DietTypes[di + 1] == Choice(DietTypeCode(d), DietTypeLabel(d));
  }

  /** `isOwner`: a user is logged in and their username is the recipe's owner. */
  function IsOwner(user: Option<Claims>, r: RecipeOut): (b: bool)
    ensures user.None? ==> !b
    ensures user.Some? ==> (b <==> user.value.username == r.owner)
  {
    user.Some? && user.value.username == r.owner
  }

  /**
   * With the user decoded from a token issued to `u` and the recipe as the
   * serializer shows it, the page treats `u` as owner exactly when `u` owns
   * the recipe (usernames are unique).
   */
  lemma OwnerCheckMatchesOwnership(s: Store, uid: nat, rid: nat, requestUser: Option<nat>)
    requires Valid(s) && uid in s.users && rid in s.recipes
    ensures IsOwner(Some(GetToken(s.users[uid])), Serialize(s, rid, requestUser)) <==> s.recipes[rid].owner == uid
  {
  }

  /** The page's state: the loaded recipe and the current route. */
  class RecipeDetailPage {
    var recipe: Option<RecipeOut>
    var location: string

    constructor (location: string)
      ensures recipe.None? && this.location == location
    {
      recipe := None;
      this.location := location;
    }

    /**
     * `handleLikeToggle`. The button exists only once a recipe is loaded.
     * `posted` says whether the toggle request was sent; `ok` is its outcome.
     */
    method HandleLikeToggle(user: Option<Claims>, ok: bool) returns (posted: bool)
      requires recipe.Some?
      modifies this
      ensures posted <==> user.Some?
      ensures user.None? ==> recipe == old(recipe) && location == LoginRoute
      ensures user.Some? && ok ==> recipe == Some(ToggledView(old(recipe).value)) && location == old(location)
      ensures user.Some? && !ok ==> recipe == old(recipe) && location == old(location)
    {
      if user.None? {
        location := LoginRoute;
        return false;
      }
      posted := true;
      if ok {
        var prev := recipe.value;
        recipe := Some(prev.(likeCount := if prev.userHasLiked then prev.likeCount - 1 else prev.likeCount + 1,
                             userHasLiked := !prev.userHasLiked));
      }
    }
  }
}
