/**
 * The profile page: the profile fetched once on mount, and the user's
 * recipes sorted for display by most likes or by newest.
 */
module Profile {
  import opened Wrappers
  import opened RecipeSerializers
  import opened UserSerializers

  /** The two orders the sort dropdown offers. */
  datatype SortKey = ByLikes | ByNewest

  /** The `sortBy` values the page sorts by; any other value leaves the order as received. */
  function SortKeyOf(sortBy: string): (k: Option<SortKey>)
    ensures k == Some(ByLikes) <==> sortBy == "likes"
    ensures k == Some(ByNewest) <==> sortBy == "newest"
  {
    if sortBy == "likes" then Some(ByLikes)
    else if sortBy == "newest" then Some(ByNewest)
    else None
  }

  /** The value the comparator compares: the like count, or the creation time. */
  function KeyOf(k: SortKey, r: RecipeOut): int {
    match k
    case ByLikes => r.likeCount
    case ByNewest => r.createdAt
  }

  /** Largest key first. */
  ghost predicate Descending(s: seq<RecipeOut>, k: SortKey) {
    forall i, j :: 0 <= i < j < |s| ==> KeyOf(k, s[i]) >= KeyOf(k, s[j])
  }

  method Swap(a: array<RecipeOut>, i: nat, j: nat)
    requires i < a.Length && j < a.Length
    modifies a
    ensures a[..] == old(a[..])[i := old(a[j])][j := old(a[i])]
    ensures multiset(a[..]) == multiset(old(a[..]))
  {
    a[i], a[j] := a[j], a[i];
  }

  /** `recipesToSort.sort(...)` with a comparator that puts larger keys first. */
  method SortDescending(a: array<RecipeOut>, k: SortKey)
    modifies a
    ensures Descending(a[..], k)
    ensures multiset(a[..]) == multiset(old(a[..]))
  {
    if a.Length == 0 {
      return;
    }
    var i := 1;
    while i < a.Length
      invariant 1 <= i <= a.Length
      invariant Descending(a[..i], k)
      invariant multiset(a[..]) == multiset(old(a[..]))
    {
      var j := i;
      while j > 0 && KeyOf(k, a[j - 1]) < KeyOf(k, a[j])
        invariant 0 <= j <= i
        invariant multiset(a[..]) == multiset(old(a[..]))
        invariant forall p, q :: 0 <= p < q <= i && p != j && q != j ==> KeyOf(k, a[p]) >= KeyOf(k, a[q])
        invariant forall q :: j < q <= i ==> KeyOf(k, a[j]) >= KeyOf(k, a[q])
        decreases j
      {
        Swap(a, j - 1, j);
        j := j - 1;
      }
      i := i + 1;
    }
    assert a[..a.Length] == a[..];
  }

  /**
   * `sortedRecipes`: no list without a profile; otherwise a copy of the
   * profile's recipes, the same recipes, largest key first for a known sort
   * key and in the order received for any other.
   */
  method SortedRecipes(profile: Option<ProfileOut>, sortBy: string) returns (sorted: seq<RecipeOut>)
    ensures profile.None? ==> sorted == []
    ensures profile.Some? ==> multiset(sorted) == multiset(profile.value.recipes)
    ensures profile.Some? && SortKeyOf(sortBy).Some? ==> Descending(sorted, SortKeyOf(sortBy).value)
    ensures profile.Some? && SortKeyOf(sortBy).None? ==> sorted == profile.value.recipes
  {
    if profile.None? {
      return [];
    }
    var recipes := profile.value.recipes;
    var a := new RecipeOut[|recipes|](i requires 0 <= i < |recipes| => recipes[i]);
    assert a[..] == recipes;
    var key := SortKeyOf(sortBy);
    if key.Some? {
      SortDescending(a, key.value);
    }
    sorted := a[..];
  }

  /** The page's state: the fetched profile, the loading flag and the chosen order. */
  class ProfilePage {
    var profileData: Option<ProfileOut>
    var loading: bool
    var sortBy: string

    constructor()
      ensures profileData.None? && !loading && sortBy == "likes"
    {
      profileData := None;
      loading := false;
      sortBy := "likes";
    }

    /** `fetchProfile`: a response replaces the profile; a failure keeps what was there; loading ends either way. */
    method FetchProfile(response: Option<ProfileOut>)
      modifies this
      ensures profileData == (if response.Some? then response else old(profileData))
      ensures !loading && sortBy == old(sortBy)
    {
      loading := true;
      if response.Some? {
        profileData := response;
      }
      loading := false;
    }

    method SetSortBy(value: string)
      modifies this
      ensures sortBy == value && profileData == old(profileData) && loading == old(loading)
    {
      sortBy := value;
    }

    /** The cards shown, in display order. */
    method Shown() returns (cards: seq<RecipeOut>)
      ensures profileData.None? ==> cards == []
      ensures profileData.Some? ==> multiset(cards) == multiset(profileData.value.recipes)
      ensures profileData.Some? && SortKeyOf(sortBy).Some? ==> Descending(cards, SortKeyOf(sortBy).value)
      ensures profileData.Some? && SortKeyOf(sortBy).None? ==> cards == profileData.value.recipes
    {
      cards := SortedRecipes(profileData, sortBy);
    }
  }
}
