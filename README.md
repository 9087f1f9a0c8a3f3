# recipeApp in Dafny

A model of the parts of recipeApp whose behaviour can be stated precisely.
recipeApp is a recipe-sharing site with a Django REST backend and a React client.
The model covers these pieces:

- **Token refresh coordinator** (`api.js`, module `Api`).
  - The request interceptor attaches `Authorization: Bearer <access>`.
  - The response interceptor handles 401s with a single-flight refresh.
    The module-level `refreshTokenPromise` works as a lock.
    Every request that fails with 401 while a refresh is in flight joins that refresh.
    A successful refresh stores the new access token beside the old refresh token and replays every waiter once.
    A failed refresh clears the session, sends the page to `/login` and rejects every waiter.
  - The same logic is written twice:
    - as pure transitions over `ApiState`, with the invariant "at most one refresh in flight" proved for any sequence of events;
    - as the class `ApiClient`, whose methods are proved to perform exactly those transitions.
- **Session state** (`AuthContext.jsx`, module `AuthContext`).
  - The initial state, `loginUser`, `logoutUser` and the `storage` listener.
  - Each is a transition on the in-memory token and user, the stored pair and the instance's default headers.
  - The class `AuthProvider` performs them in place over the shared `ApiClient`.
- **Backend tables and the like toggle** (`like/models.py`, `like/views.py`, `recipes/models.py`).
  - Users, recipes and `Like` rows are maps keyed by primary key.
  - The store's integrity rules: foreign keys, `unique_together`, unique usernames.
  - The cascades, and the toggle endpoint as a function plus a `LikeTable` class whose `Post` method performs it.
  - Toggling changes exactly the requesting user's pair, and toggling twice restores the set of pairs.
- **Serialized fields** (`recipes/serializers.py`, `user/serializers.py`).
  - `like_count`, `user_has_liked`, `owner`, `total_likes_received`, the registration `create` defaults and the token's `username` claim.
  - `total_likes_received` is proved equal to the sum of the `like_count` values shown on the profile.
- **Client pages.**
  - `RecipeDetail.jsx`: the optimistic like update, proved to agree with what the serializer returns after the server's toggle; the name lookup with fallback; the owner check.
  - `RecipeList.jsx`: the query builder, `getPageNumber`, the page label, the next/previous guards and the image index.
  - `Profile.jsx`: the sort is an in-place insertion sort on a copied array, proved to give a permutation, largest key first.
  - `Register.jsx`: the submit sequence and the error-message formatting.
  - `EditRecipe.jsx` and `CreateRecipe.jsx`: the form records and their payloads.
  - `constants.js`: the tables and their agreement with the backend choices.

External effects are inputs and state:

- `localStorage` is `Browser.storedToken`, an `Option<TokenPair>`.
- `window.location` is `Browser.location` or a page's `location`.
- The outcome of each HTTP call is a parameter of the method that makes it.
- `jwtDecode` is an uninterpreted function `decode` held by `AuthProvider`.

The classes follow the code as written, including where "## Findings" records a departure from what the code evidently intends.
One such departure concerns a failed refresh.
`logoutUser` clears both the stored pair and the instance's default `Authorization` header.
A failed refresh clears only the stored pair, so the header that `loginUser` set stays in place.

## Model

| member | source | states |
|---|---|---|
| Api.WithHeader | frontEnd/src/api.js:16 | setting one header keeps every other header, and every other request field, unchanged |
| Api.AttachBearer | frontEnd/src/api.js:12-21 | with a stored access token the request gets `Authorization: Bearer <access>`; without one the request is untouched |
| Api.Replays | frontEnd/src/api.js:58-60 | each waiter is resent once, with `Authorization` set to the new access token and nothing else changed |
| Api.Rejections | frontEnd/src/api.js:62-63 | each waiter is rejected with the refresh call's error |
| Api.AtMostOneInFlight | frontEnd/src/api.js:24-55 | under the invariant, at most one refresh call is in flight, and one is in flight exactly while the lock is held |
| Api.StepKeepsInvariant | frontEnd/src/api.js:27-68 | a 401 arrival, a refresh success and a refresh failure each preserve the coordinator invariant |
| Api.RunKeepsInvariant | frontEnd/src/api.js:27-68 | any sequence of events preserves the invariant |
| Api.OnError | frontEnd/src/api.js:33-38 | the refresh path is taken exactly when a refresh token is stored, the status is 401 and `_retry` is unset; otherwise the error propagates and nothing changes; on the path the request is marked, waits, and joins the call in flight if there is one; storage, location and settlements are untouched |
| Api.OnRefreshResolved | frontEnd/src/api.js:39-60 | with a call in flight: the stored pair is the new access token with the posted refresh token, the lock is free, nobody waits, and each waiter is replayed once, in order, with the new bearer token; without one: nothing changes |
| Api.OnRefreshRejected | frontEnd/src/api.js:48-54 | with a call in flight: no stored pair, the page at `/login`, the lock free, nobody waits, and each waiter is rejected with the call's error, in order; without one: nothing changes |
| Api.PropagatesUnlessRefreshApplies | frontEnd/src/api.js:33-67 | unless a refresh token is stored, the status is 401 and `_retry` is unset, the error propagates unchanged and no state changes |
| Api.RefreshPathStartsOrJoins | frontEnd/src/api.js:33-38 | on the refresh path the request is marked `_retry` and waits; a refresh call posting the stored refresh token starts only when the lock is free, otherwise the request joins the call in flight |
| Api.ResolveKeepsRefreshToken | frontEnd/src/api.js:39-47 | after a successful refresh the lock is free, no request waits, and the stored pair is the new access token with the refresh token that was posted |
| Api.RejectClearsSession | frontEnd/src/api.js:48-54 | after a failed refresh the lock is free, the stored session is gone, the page is at `/login` and every waiter is rejected |
| Api.ReplayedRequestNeverRefreshesAgain | frontEnd/src/api.js:33-34 | the `_retry` guard: a replayed request carries the mark, so were its failure handed to this interceptor it would propagate without starting or joining a refresh (replays go through plain axios, so the interceptor does not in fact see them) |
| Api.ArrivalsShareOneCall | frontEnd/src/api.js:33-58 | N 401s arriving from idle start exactly one refresh call, and all N requests wait on it, marked `_retry` |
| Api.ConcurrentUnauthorizedShareOneRefresh | frontEnd/src/api.js:24-60 | N concurrent 401s followed by a successful refresh make one refresh call, replay all N once with the same new token, and keep the refresh token |
| Api.ApiClient.constructor | frontEnd/src/api.js:7-24 | the instance starts with no default `Authorization` header, no lock and no waiters, and satisfies the invariant |
| Api.ApiClient.InterceptRequest | frontEnd/src/api.js:12-21 | the outgoing request is the interceptor's result for the pair stored at send time |
| Api.ApiClient.HandleResponseError | frontEnd/src/api.js:29-58 | the new state and the handling are those of the 401 decision, and the invariant is kept |
| Api.ApiClient.ResolveRefresh | frontEnd/src/api.js:39-60 | the state becomes that of a successful refresh: lock freed, pair stored, waiters replayed; the invariant is kept |
| Api.ApiClient.RejectRefresh | frontEnd/src/api.js:48-54 | the state becomes that of a failed refresh, and the invariant is kept |
| AuthContext.Initial | frontEnd/src/context/AuthContext.jsx:10-19 | the token is the stored pair or none, and the user is decoded from its access token or none |
| AuthContext.Login | frontEnd/src/context/AuthContext.jsx:21-27 | login sets the token, decodes the user, stores the pair and sets the default header to its bearer token; no other header changes |
| AuthContext.Logout | frontEnd/src/context/AuthContext.jsx:29-35 | logout clears token, user and storage, and removes only the default `Authorization` header |
| AuthContext.LogoutIdempotent | frontEnd/src/context/AuthContext.jsx:29-35 | two logouts leave the same state as one |
| AuthContext.StorageChanged | frontEnd/src/context/AuthContext.jsx:39-47 | with no stored entry nothing changes; with one, its pair, its decoded user and its header are adopted, and every other default header is kept |
| AuthContext.LoginThenStorageChange | frontEnd/src/context/AuthContext.jsx:21-47 | the pair stored at login, read back by the listener, changes nothing |
| AuthContext.TransitionsKeepCoherent | frontEnd/src/context/AuthContext.jsx:10-47 | every transition keeps the user equal to the decoding of the current token |
| AuthContext.RequestAfterLoginCarriesToken | frontEnd/src/context/AuthContext.jsx:26 | after login every request sent through the instance carries the login's bearer token |
| AuthContext.RequestAfterLogoutCarriesNoToken | frontEnd/src/context/AuthContext.jsx:34 | after logout a request carries `Authorization` only if it set the header itself |
| AuthContext.RequestAfterRefreshFailureKeepsLoginHeader | frontEnd/src/api.js:48-54 | a failed refresh removes the stored pair, yet a request still carries the login's token through the default header that AuthContext.jsx:26 set |
| AuthContext.RefreshRejectedSession | frontEnd/src/context/AuthContext.jsx:29-35 | corrected: with a refresh in flight, a failed refresh ends the session as logout does, removing the stored pair and the default header; otherwise nothing changes |
| AuthContext.RequestAfterRefreshFailureCarriesNoToken | frontEnd/src/context/AuthContext.jsx:29-35 | corrected: after a failed refresh that ends the session this way, a request carries `Authorization` only if it set the header itself, with its own value |
| AuthContext.AuthProvider.constructor | frontEnd/src/context/AuthContext.jsx:10-19 | the provider's state is the initial state read from storage |
| AuthContext.AuthProvider.LoginUser | frontEnd/src/context/AuthContext.jsx:21-27 | performs the login transition; the coordinator sees only the new stored pair |
| AuthContext.AuthProvider.LogoutUser | frontEnd/src/context/AuthContext.jsx:29-35 | performs the logout transition; the coordinator sees only the cleared storage |
| AuthContext.AuthProvider.HandleStorageChange | frontEnd/src/context/AuthContext.jsx:39-47 | performs the listener's transition and leaves the coordinator's state alone |
| LikeModels.Matching | backEnd/recipeApp/like/views.py:22 | the rows selected are exactly those with the given owner and recipe |
| LikeModels.Pairs | backEnd/recipeApp/like/models.py:12 | a pair is present exactly when some row has that owner and recipe |
| LikeModels.AtMostOneMatch | backEnd/recipeApp/like/models.py:11-12 | under `unique_together`, a filter on one pair selects at most one row |
| LikeModels.DeleteRecipe | backEnd/recipeApp/like/models.py:8 | deleting a recipe removes exactly the likes on it and keeps every other row |
| LikeModels.DeleteUser | backEnd/recipeApp/like/models.py:7-8 | deleting a user removes their recipes, their likes and the likes on their recipes, and keeps every other row |
| LikeModels.DeleteRecipePreservesValid | backEnd/recipeApp/like/models.py:7-12 | the recipe cascade keeps foreign keys and `unique_together` intact |
| LikeModels.DeleteUserPreservesValid | backEnd/recipeApp/like/models.py:7-12 | the user cascade keeps foreign keys and `unique_together` intact |
| LikeModels.LikeStr | backEnd/recipeApp/like/models.py:14-15 | the string is the owner's username, then " likes ", then the recipe's title |
| LikeViews.Toggle | backEnd/recipeApp/like/views.py:10-29 | 401 exactly for an anonymous request and 404 exactly for an unknown recipe; 201 adds the user's like under the next id, keeps every other row and advances the id; 204 removes a row of the user's pair and adds none; any other answer changes nothing |
| LikeViews.ToggleStatus | backEnd/recipeApp/like/views.py:11-29 | 401 exactly for an anonymous request; 404 exactly for an unknown recipe; 204 exactly when the pair was present; 201 exactly when it was absent; 401 and 404 change nothing |
| LikeViews.TogglePairs | backEnd/recipeApp/like/views.py:21-29 | on a known recipe the set of pairs loses the user's pair if present and gains it otherwise; no other pair changes |
| LikeViews.InsertAddsPair | backEnd/recipeApp/like/views.py:28 | a row created under a fresh key adds exactly its `(owner, recipe)` pair |
| LikeViews.RemoveDropsPair | backEnd/recipeApp/like/views.py:22-24 | deleting the rows of a present pair drops exactly that pair |
| LikeViews.ToggleKeepsOtherRows | backEnd/recipeApp/like/views.py:22-28 | every row other than the user's row on the recipe keeps its key and value |
| LikeViews.InsertKeepsUnique | backEnd/recipeApp/like/views.py:28 | inserting a row for an absent pair keeps `unique_together` |
| LikeViews.TogglePreservesValid | backEnd/recipeApp/like/views.py:13-29 | a toggle keeps the store's integrity and the freshness of the next key |
| LikeViews.ToggleTwiceRestoresPairs | backEnd/recipeApp/like/views.py:21-29 | two toggles by one user on one recipe restore the set of pairs |
| LikeViews.LikeTable.Post | backEnd/recipeApp/like/views.py:13-29 | the status and the new table are those of the toggle, and the table stays valid |
| RecipeModels.CategoryCode | backEnd/recipeApp/recipes/models.py:5-22 | every category code is non-empty and fits `max_length` 2 |
| RecipeModels.DietTypeCode | backEnd/recipeApp/recipes/models.py:13-27 | every diet code is non-empty and fits `max_length` 3 |
| RecipeModels.ParseCategory | backEnd/recipeApp/recipes/models.py:5-25 | a string is accepted as exactly the category whose code it is |
| RecipeModels.ParseDietType | backEnd/recipeApp/recipes/models.py:13-30 | a string is accepted as exactly the diet type whose code it is |
| RecipeModels.Validate | backEnd/recipeApp/recipes/models.py:20-33 | a body is accepted exactly when the trimmed title is non-empty and at most 250 long, the trimmed ingredients and instructions are non-empty, no trimmed text field (description included) holds U+0000, and any given choice is a valid code; absent choices take OT and NON; the accepted text fields are the trimmed text, a null description stays null |
| RecipeModels.Trim | backEnd/recipeApp/recipes/models.py:20-33 | the text between the leading and the trailing whitespace; empty exactly when the input is blank; neither end of the result is whitespace |
| RecipeModels.TrimIdempotent | backEnd/recipeApp/recipes/models.py:20-33 | trimming twice is trimming once |
| RecipeModels.NullCharacterIsRejected | backEnd/recipeApp/recipes/serializers.py:5-16 | a title or description holding U+0000 is rejected |
| RecipeModels.TitleIsTrimmedBeforeValidation | backEnd/recipeApp/recipes/models.py:20 | a blank title is rejected; a padded title is stored without its padding |
| RecipeModels.RecipeStr | backEnd/recipeApp/recipes/models.py:37-38 | a recipe reads as its title, which for a well-formed row is non-empty, at most 250 long and trimmed |
| RecipeModels.AcceptedRowIsWellFormed | backEnd/recipeApp/recipes/models.py:20-33 | a row built from an accepted body satisfies the field constraints, with every text field trimmed |
| Constants.TablesStartWithAll | frontEnd/src/constants.js:1-12 | each table starts with code "" named "All" |
| Constants.TableCodesDistinct | frontEnd/src/constants.js:1-16 | codes in each table are pairwise distinct |
| Constants.TablesMatchBackendChoices | frontEnd/src/constants.js:1-16 | after "All", each table lists the backend choices in order, with their codes and labels |
| RecipeSerializers.LikesOn | backEnd/recipeApp/recipes/serializers.py:15-16 | `obj.likes` holds exactly the rows whose recipe is the object |
| RecipeSerializers.UserHasLiked | backEnd/recipeApp/recipes/serializers.py:18-22 | false for an anonymous request; otherwise true exactly when the user's pair is present |
| RecipeSerializers.Serialize | backEnd/recipeApp/recipes/serializers.py:5-22 | `owner` is the owner's username, codes are the row's, `like_count` counts the recipe's likes, and `user_has_liked` holds exactly when the request user's pair exists |
| RecipeSerializers.ToggleMovesCounts | backEnd/recipeApp/recipes/serializers.py:15-22 | a toggle on an existing recipe moves its `like_count` by +1 on 201 and -1 on 204, flips `user_has_liked`, and leaves every other recipe's count alone |
| UserSerializers.Create | backEnd/recipeApp/user/serializers.py:14-21 | a user is created exactly when username and password are given; email and names default to "" |
| UserSerializers.RegistrationOutput | backEnd/recipeApp/user/serializers.py:8-12 | the output never contains the write-only `password` |
| UserSerializers.GetToken | backEnd/recipeApp/user/serializers.py:26-31 | the token's `username` claim is the user's username |
| UserSerializers.LikesReceived | backEnd/recipeApp/user/serializers.py:42-44 | selects exactly the likes on recipes the user owns |
| UserSerializers.LikesOnAnyIsSum | backEnd/recipeApp/user/serializers.py:42-44 | over distinct recipes, the likes on any of them number the sum of their counts |
| UserSerializers.TotalIsSumOfRecipeCounts | backEnd/recipeApp/user/serializers.py:42-44 | `total_likes_received` is the sum of `like_count` over the user's recipes |
| UserSerializers.Profile | backEnd/recipeApp/user/serializers.py:33-44 | the profile lists each recipe's serialized form and the total likes received |
| UserSerializers.ProfileTotalMatchesShownCounts | backEnd/recipeApp/user/serializers.py:33-44 | the total shown on a profile equals the sum of the like counts shown on its recipes |
| RecipeDetail.ToggledView | frontEnd/src/components/RecipeDetail.jsx:60-66 | the update flips `user_has_liked`, moves `like_count` by -1 if it was liked and +1 otherwise, and changes nothing else |
| RecipeDetail.ToggleTwiceRestoresView | frontEnd/src/components/RecipeDetail.jsx:60-66 | two updates restore the record |
| RecipeDetail.OptimisticToggleMatchesServer | frontEnd/src/components/RecipeDetail.jsx:56-66 | the optimistic update of the serialized recipe equals the serialized recipe after the server's toggle |
| RecipeDetail.FindName | frontEnd/src/components/RecipeDetail.jsx:82-83 | finds the name of the first row with the code, or none when no row has it |
| RecipeDetail.DisplayName | frontEnd/src/components/RecipeDetail.jsx:82-83 | a code some table row has shows as the name of a row with that code; a code no row has shows as itself |
| RecipeDetail.IsOwner | frontEnd/src/components/RecipeDetail.jsx:81 | an anonymous viewer never owns; a logged-in viewer owns exactly the recipes whose owner name is their username |
| RecipeDetail.DisplayNames | frontEnd/src/components/RecipeDetail.jsx:82-83 | every backend code displays as its label; an unknown code displays as itself |
| RecipeDetail.OwnerCheckMatchesOwnership | frontEnd/src/components/RecipeDetail.jsx:81 | for a user decoded from their token, `isOwner` holds exactly when they own the recipe |
| RecipeDetail.RecipeDetailPage.HandleLikeToggle | frontEnd/src/components/RecipeDetail.jsx:49-71 | anonymous: no request, recipe unchanged, page at `/login`; success: the optimistic update; failure: nothing changes |
| RecipeList.BuildQuery | frontEnd/src/components/RecipeList.jsx:39-52 | every filter with a non-empty value appears, with its value, and no other key; there is one parameter per set filter; keys keep the order search, category, diet_type, ordering |
| RecipeList.InitialQuery | frontEnd/src/components/RecipeList.jsx:21-54 | with the initial filters the query is exactly `ordering=-like_count_ann` |
| RecipeList.GetPageNumber | frontEnd/src/components/RecipeList.jsx:70-79 | 1 without a link, for an unparseable link or without `page`; otherwise the `page` value |
| RecipeList.CurrentPageIsShownPage | frontEnd/src/components/RecipeList.jsx:200 | the label's current page, read from the server's `previous` link, is the page being shown |
| RecipeList.CurrentPage | frontEnd/src/components/RecipeList.jsx:200 | "Page X" is at least 1: 1 without a previous link, one past the previous link's page otherwise |
| RecipeList.TotalPagesAsWritten | frontEnd/src/components/RecipeList.jsx:200 | as written: 1 for no results, infinite for an empty page of a non-empty list, otherwise the least n whose n pages of the shown page's size hold all results |
| RecipeList.PageLabelAsWritten | frontEnd/src/components/RecipeList.jsx:200 | as written: "Page X" as above, and "of Y" divides by the number of results on the page shown, infinite when a non-empty list shows none |
| RecipeList.PageLabelAsWrittenOverstates | frontEnd/src/components/RecipeList.jsx:200 | as written, the label never shows fewer pages than there are, and agrees with the corrected label on a full page |
| RecipeList.PageLabel | frontEnd/src/components/RecipeList.jsx:200 | corrected: "Page X" as written, and "of Y" is the least number of server-size pages that hold all results, at least 1 |
| RecipeList.TotalPages | frontEnd/src/components/RecipeList.jsx:200 | 1 for no results; otherwise the least n whose n pages hold all results |
| RecipeList.TotalPagesAsWrittenOnFullPage | frontEnd/src/components/RecipeList.jsx:200 | on a full page the label's formula gives the true number of pages |
| RecipeList.TotalPagesAsWrittenOnLastPartialPage | frontEnd/src/components/RecipeList.jsx:200 | with 7 results at 5 per page, page 2 is labelled "of 4" instead of "of 2" |
| RecipeList.NextPageFetch | frontEnd/src/components/RecipeList.jsx:81-85 | fetches exactly when there is a next link, and fetches that link |
| RecipeList.PreviousPageFetch | frontEnd/src/components/RecipeList.jsx:87-91 | fetches exactly when there is a previous link, and fetches that link |
| RecipeList.ImageIndex | frontEnd/src/components/RecipeList.jsx:165 | the image index is always a valid index into the three images, and is the card index for the first three cards |
| RecipeList.ImageIndexCycles | frontEnd/src/components/RecipeList.jsx:165 | the images cycle: the card three places on shows the same image |
| Profile.SortKeyOf | frontEnd/src/components/Profile.jsx:40-43 | "likes" sorts by like count, "newest" by creation time; any other value does not sort |
| Profile.SortDescending | frontEnd/src/components/Profile.jsx:41-43 | the array ends up a permutation of itself with non-increasing keys |
| Profile.SortedRecipes | frontEnd/src/components/Profile.jsx:33-47 | no profile gives []; otherwise a permutation of the recipes, non-increasing by like count for "likes" or by created_at for "newest", and the original order for any other value |
| Profile.ProfilePage.constructor | frontEnd/src/components/Profile.jsx:13-16 | no profile yet, and `sortBy` defaults to "likes" |
| Profile.ProfilePage.FetchProfile | frontEnd/src/components/Profile.jsx:18-31 | a response replaces the profile, a failure keeps it, and loading ends either way |
| Profile.ProfilePage.SetSortBy | frontEnd/src/components/Profile.jsx:102 | only `sortBy` changes |
| Profile.ProfilePage.Shown | frontEnd/src/components/Profile.jsx:33-47 | no cards before the profile arrives; otherwise a permutation of the profile's recipes, non-increasing by the chosen key, and the server's order when the choice is not a sort key |
| Register.JoinAppend | frontEnd/src/components/Register.jsx:50 | joining a concatenation puts one separator between the two joins |
| Register.FormatErrors | frontEnd/src/components/Register.jsx:48-51 | no keys give ""; one key gives its "key: value" item; otherwise the message starts with the first key's item |
| Register.FormatErrorsAppend | frontEnd/src/components/Register.jsx:48-51 | the message for two bodies' keys is the two messages joined by ", " |
| Register.FormatErrorsSingle | frontEnd/src/components/Register.jsx:48-51 | one key with a message array reads "key: m1,m2,..." |
| Register.FailureMessage | frontEnd/src/components/Register.jsx:47-54 | the body's "key: value" items joined by ", " when a response body came; the generic text otherwise |
| Register.RegisterBodyCreatesUser | frontEnd/src/components/Register.jsx:35-37 | the page's registration body has every key `create` reads, so `create` builds a user with its username, email and password, and empty names |
| Register.RegisterForm.constructor | frontEnd/src/components/Register.jsx:17-21 | all fields empty and no error |
| Register.RegisterForm.Submit | frontEnd/src/components/Register.jsx:67-86 | with an input empty or an email the browser refuses, nothing is posted and nothing changes; otherwise mismatched passwords post nothing, and a match posts the registration first, logging in and going to "/" exactly when both posts succeed and showing an error otherwise |
| Register.RegisterForm.HandleSubmit | frontEnd/src/components/Register.jsx:25-57 | once the browser fires `onSubmit`: mismatched passwords: error "Passwords do not match." and no request; otherwise register, then request tokens only after registering succeeds; on both successes log in with the tokens and go to "/", with no error; on a failure show its message and stay |
| EditRecipe.RecordOf | frontEnd/src/components/EditRecipe.jsx:22-23 | the loaded record holds the response's title, codes, description, ingredients and instructions |
| EditRecipe.UnchangedEditKeepsFields | frontEnd/src/components/EditRecipe.jsx:19-45 | saving a loaded recipe without changes is accepted and writes back the row's own fields |
| EditRecipe.EmptyRecordIsRejected | frontEnd/src/components/EditRecipe.jsx:10-17 | the initial record is never sent, since its required title is empty; were it sent, the server would reject it |
| EditRecipe.ChangedTitleIsSent | frontEnd/src/components/EditRecipe.jsx:32-38 | changing the title changes that field of the submitted body and no other |
| EditRecipe.EditRecipeForm.constructor | frontEnd/src/components/EditRecipe.jsx:10-17 | the record starts with the six keys, all empty |
| EditRecipe.EditRecipeForm.LoadRecipe | frontEnd/src/components/EditRecipe.jsx:19-30 | a response replaces the record; a failure keeps the record and goes to "/" |
| EditRecipe.EditRecipeForm.HandleChange | frontEnd/src/components/EditRecipe.jsx:32-38 | exactly the named key takes the value |
| EditRecipe.EditRecipeForm.Submit | frontEnd/src/components/EditRecipe.jsx:57-149 | with the title, ingredients or instructions empty nothing is sent and nothing changes; otherwise the record is PUT to `/api/recipes/<id>/`, and success goes to `/recipes/<id>` |
| EditRecipe.EditRecipeForm.HandleSubmit | frontEnd/src/components/EditRecipe.jsx:40-50 | once the browser fires `onSubmit`: PUTs the current record to `/api/recipes/<id>/`; success goes to `/recipes/<id>`, failure stays |
| CreateRecipe.AllOptionIsRejected | frontEnd/src/components/CreateRecipe.jsx:65-78 | the selects offer "", and a body with "" as category or diet type is always rejected |
| CreateRecipe.OptionsAreServerChoices | frontEnd/src/components/CreateRecipe.jsx:65-78 | the corrected options are exactly the codes the server accepts |
| CreateRecipe.PayloadAcceptance | frontEnd/src/components/CreateRecipe.jsx:20-28 | a body whose choices are backend codes is accepted exactly when the trimmed text fields meet the constraints (non-blank where required, title at most 250 long, no U+0000), and the row gets the chosen codes and the trimmed title, ingredients, instructions and description |
| CreateRecipe.InitialChoicesAreOffered | frontEnd/src/components/CreateRecipe.jsx:11-12 | the initial choices BR and NON are offered codes |
| CreateRecipe.DecimalText | frontEnd/src/components/CreateRecipe.jsx:30 | the id prints as a non-empty string of digits that reads back as the id, with no leading zero except for 0 itself |
| CreateRecipe.CreateRecipeForm.constructor | frontEnd/src/components/CreateRecipe.jsx:7-12 | empty text fields, category BR and diet type NON |
| CreateRecipe.CreateRecipeForm.Payload | frontEnd/src/components/CreateRecipe.jsx:20-27 | copies the five fields and sends `dietType` as `diet_type` |
| CreateRecipe.CreateRecipeForm.SetText | frontEnd/src/components/CreateRecipe.jsx:55-128 | sets the text fields and keeps the choices |
| CreateRecipe.CreateRecipeForm.SelectCategory | frontEnd/src/components/CreateRecipe.jsx:65-69 | any option of the select as written, "All" included, can be picked; the category becomes it and nothing else changes |
| CreateRecipe.CreateRecipeForm.SelectDietType | frontEnd/src/components/CreateRecipe.jsx:75-79 | any option of the select as written, "All" included, can be picked; the diet type becomes it and nothing else changes |
| CreateRecipe.CreateRecipeForm.Submit | frontEnd/src/components/CreateRecipe.jsx:42-130 | with the title, ingredients or instructions empty nothing is sent and nothing changes; otherwise the current payload is posted, and a created id leads to `/recipes/<id>` |
| CreateRecipe.CreateRecipeForm.HandleSubmit | frontEnd/src/components/CreateRecipe.jsx:16-35 | once the browser fires `onSubmit`: posts the current payload; a created id leads to `/recipes/<id>`, a failure stays |

## Findings

| source | as written | input that shows it | evidently intended | confidence | as-written member | corrected member |
|---|---|---|---|---|---|---|
| frontEnd/src/components/RecipeList.jsx:200 | total pages is `ceil(count / results.length)`, the size of the page being shown | 7 recipes, 5 per page, on page 2: 2 results shown, label "Page 2 of 4"; with `count > 0` and no results the total is infinite | total pages is `ceil(count / page size)`, at least 1 | high (not executed) | RecipeList.TotalPagesAsWrittenOnLastPartialPage | RecipeList.TotalPages |
| frontEnd/src/api.js:48-54 | a failed refresh removes the stored pair but not the instance's default `Authorization` header set by `loginUser` (AuthContext.jsx:26) | log in, let the refresh fail, then send a request without its own header before the navigation to `/login` has reloaded the page: it still carries the old bearer token | a failed refresh ends the session as `logoutUser` (AuthContext.jsx:29-35) does, clearing both the storage and the header | low (not executed) | AuthContext.RequestAfterRefreshFailureKeepsLoginHeader | AuthContext.RequestAfterRefreshFailureCarriesNoToken |
| frontEnd/src/components/CreateRecipe.jsx:65-78 | the category and diet selects list every table row, including the filter-only "All" row with code "" (EditRecipe.jsx:83-94 does the same) | picking "All" as category posts `category: ""`, which the server always rejects | the form selects offer only the backend choices | medium (not executed) | CreateRecipe.AllOptionIsRejected | CreateRecipe.OptionsAreServerChoices |

`RecipeList.PageLabel` is the corrected label and uses `RecipeList.TotalPages`; `RecipeList.PageLabelAsWritten` is the label as the page builds it.
The page size is a server setting that is not part of this model, so `TotalPages` takes it as a parameter.
The page classes keep the code as written: `CreateRecipe.CreateRecipeForm` picks from the selects' full option lists, and `Api.ApiClient.RejectRefresh` leaves the default header alone.
`CreateRecipe.CategoryOptions`, `CreateRecipe.DietTypeOptions` and `AuthContext.RefreshRejectedSession` are the corrected definitions beside them.

## Left out

- JSON serialization of the stored pair and of request and response bodies. Storage holds the parsed pair.
- Percent-encoding in `URLSearchParams` and `new URL` parsing. The query is a list of key/value pairs. A link is its text together with what parsing yields.
- RecipeList.GetPageNumber: `Number(page)` on a non-numeric `page` gives NaN, and an empty `page=` reads as 1. The model's page parameter is a natural number or absent.
- `new Date` parsing. Creation times are integer timestamps.
- The 500 ms debounce timer of the search box. The model builds the query from the debounced term.
- Real concurrency and microtask ordering. The coordinator is driven by discrete events: a 401 arrives, the refresh resolves, the refresh rejects.
- Replays travel through plain axios, outside the interceptors, and their own outcomes are not modelled. The model records that each waiter was resent or rejected.
- `jwtDecode` and JWT signing. Decoding is an uninterpreted function.
- Password hashing in `create_user`, and the ORM. Tables are maps keyed by primary key.
- `LikeViews.Toggle` answers an anonymous request with 401. Whether DRF answers 401 or 403 depends on the authentication classes, which are not part of this model.
- Profile.SortedRecipes: sort stability, which `Array.prototype.sort` guarantees, is not stated.
- Profile.SortDescending: stability is not stated either; the insertion sort by adjacent swaps is stable, but no contract says so.
- EditRecipe.RecordOf: only the response's string and null fields are kept. The number and boolean fields (`id`, `like_count`, `user_has_liked`, timestamps) are read-only on the server.
- The server answers a `null` choice field with 400 ("This field may not be null."). The model's input type has no `null` for choice fields: a choice is absent or a string. The pages never send `null` choices.
- RecipeModels.Trim strips six whitespace characters (space, tab, line feed, carriage return, vertical tab, form feed). Python's `str.strip()` also strips the characters `str.isspace()` accepts beyond these six (U+001C to U+001F, U+0085, U+00A0 and the other Unicode spaces).
- Register.RegisterForm.Submit: the browser's `type="email"` syntax check is not modelled; its verdict is the parameter `emailAccepted`.
- Register.RegisterBodyCreatesUser: the registration serializer's field validation runs before `create` and is not modelled: unique username, the username's length and characters, the email format, a blank password, and trimming. The lemma states only that the body has every key `create` reads.
- Page reloads after navigation. `location` records only where the page went.
- Fetching the recipe on the detail page and deleting it (`RecipeDetail.jsx:18-47`) are single requests with no state logic, so they are not modelled.
- `alert`, `confirm` and `console` output.
- Login.jsx, App.jsx, NavBar.jsx, the URL routing files and the generic DRF views are not part of this model.
