# Blog front-end state reducers, modelled in Dafny

This project models the two Redux slices of a blog front-end:

- the **posts** slice holds the list of posts, the server's pagination
  descriptor, the counters `count` and `total`, and five transient flags;
- the **user** slice holds the current session (`userInfo`, `isLoggedIn`,
  `isAdmin`) and four transient flags.

Each case reducer is a pure function from the current state and an action
payload to the next state. A case reducer that reads a field of a `null`
payload throws in the source. Here such a case returns `Threw`, and the
store then keeps its previous state (`Base.Commit`). The vote and view
cases read the payload only inside the `findIndex` callback, so with an
empty list they do not throw. The decision logic of
the `fetchUser` thunk is modelled as a pure function over the outcomes of
its two requests: the token check, and a profile refresh given as a
function from the requested key to its outcome.

Modules:

- `Base`: `Option` for JavaScript values that may be missing or falsy,
  `Result`, `Reduced`, and `OrElse` (JavaScript's `s || d` on strings).
- `PostList`: the list operations of the posts slice, namely `findIndex` by
  `_id`, replacing the first match, upsert, and `filter` by `_id`.
- `PostsSlice`: state, actions and case reducers of the posts slice.
- `UserSlice`: state, actions and case reducers of the user slice.
- `FetchUserDecision`: the `fetchUser` decision and its end-to-end effect.

JavaScript truthiness is modelled explicitly:

- `None` stands for a missing or falsy object, list or number. `x || 0` on
  a number is `GetOr(0)`, which gives the same result for a present zero.
- `""` stands for a missing or falsy string.
- A rejection without a payload reads like `ErrorInfo("", "")`, because
  `action.payload?.message` is then undefined.

The behaviour below is modelled as the code has it. A reader might expect
otherwise:

- Deleting or removing a post drops **every** post with that `_id`, not
  just one. With unique `_id`s exactly one post goes
  (`PostsSlice.DeleteRemovesOne`).
- The flags are not exclusive. Pending and rejected never reset
  `isSuccess`, so `isSuccess` and `isError` can both hold after a settled
  request (`PostsSlice.SuccessAndErrorTogether`). The user slice's pending
  and fulfilled cases never clear `isError` (`UserSlice.RetryKeepsError`).
- `fetchPostById`, `upvotePost`, `downvotePost` and `incrementPostView`
  have no pending case, and their fulfilled cases touch no flag.
  `fetchPostsByCategory` fulfilled does not set `isSuccess`.
- Vote and view responses whose `_id` is not listed change nothing. An
  update response with an unlisted `_id` leaves the list unchanged but
  still sets `isSuccess` and stops loading.
- A login or register response without a user leaves `isAdmin` and
  `userInfo` as they were, so `isAdmin` can hold while `isLoggedIn` does not
  (`UserSlice.AdminWithoutLogin`).
- A profile update does not recompute `isAdmin` (`UserSlice.ProfileUpdateKeepsStaleAdmin`).

## Model

| member | source | states |
|---|---|---|
| Base.OrElse | src/app/features/blogs/postsSlice.js:22-23 | JavaScript logical or on strings (`action.payload?.message` or the default): a non-empty left operand wins, an empty one yields the default, and the result is empty only when both are |
| PostList.FindIndex | src/app/features/blogs/postsSlice.js:239 | `findIndex` by `_id` gives -1 exactly when no post carries the `_id`, and otherwise the position of the first post that does |
| PostList.ReplaceFirst | src/app/features/blogs/postsSlice.js:259-270 | replace-in-place keeps the length. It replaces only the first post with the payload's `_id`, and it is the identity when there is none |
| PostList.Upsert | src/app/features/blogs/postsSlice.js:238-252 | afterwards the `_id` is listed. A listed `_id` has its first post replaced and the length kept; an unlisted one is appended at the end |
| PostList.RemoveById | src/app/features/blogs/postsSlice.js:193 | `filter` by `_id` leaves no post with that `_id`. It keeps every other post in its original order (a subsequence), shrinks the list by the number of matches, and is the identity without a match |
| PostList.UpsertIdempotent | src/app/features/blogs/postsSlice.js:233-253 | upserting the same post twice equals upserting it once |
| PostList.ReplaceFirstIdempotent | src/app/features/blogs/postsSlice.js:259-270 | replacing with the same post twice equals replacing once |
| PostList.ReplaceFirstKeepsIds | src/app/features/blogs/postsSlice.js:269 | replace-in-place keeps every position's `_id`, hence keeps `_id`s unique |
| PostList.UpsertKeepsUnique | src/app/features/blogs/postsSlice.js:245-251 | upsert never creates a second post with the same `_id` |
| PostList.RemoveKeepsUnique | src/app/features/blogs/postsSlice.js:351 | filtering by `_id` keeps `_id`s unique |
| PostList.UniqueCountIsOne | src/app/features/blogs/postsSlice.js:351 | in a list with unique `_id`s a listed `_id` occurs exactly once |
| PostList.RemoveUniqueDropsOne | src/app/features/blogs/postsSlice.js:351 | with unique `_id`s the filter removes exactly one post if the `_id` is listed, and none otherwise |
| PostList.ReplaceFirstIsReplaceAll | src/app/features/blogs/postsSlice.js:334-339 | with unique `_id`s, replacing the first match equals replacing every match, the reference meaning of "update by identity" |
| PostList.RemoveUndoesPrepend | src/app/features/blogs/postsSlice.js:318 | deleting a freshly prepended post gives back the original list |
| PostList.RemoveAfterOverwrite | src/app/features/blogs/postsSlice.js:245 | overwriting a post with one of the same `_id` is invisible to a filter on that `_id` |
| PostList.RemoveAfterAppend | src/app/features/blogs/postsSlice.js:251 | appending a post is invisible to a filter on its `_id` |
| PostList.RemoveUndoesUpsert | src/app/features/blogs/postsSlice.js:233-253 | deleting a post after fetching it gives the same list as deleting it beforehand |
| PostsSlice.HandlePending | src/app/features/blogs/postsSlice.js:11-16 | pending sets loading and clears the error message and code. The list, pagination, counters and `isSuccess` keep their values |
| PostsSlice.HandleRejected | src/app/features/blogs/postsSlice.js:19-24 | rejected records the error and stops loading. The message is the payload's or the default, the code is the payload's or `UNKNOWN_ERROR`, and both are non-empty. Data and `isSuccess` are kept |
| PostsSlice.DefaultMessage | src/app/features/blogs/postsSlice.js:228-371 | every rejected case of the slice has a non-empty default message, so a recorded error always has a message |
| PostsSlice.ClearFlags | src/app/features/blogs/postsSlice.js:183-190 | `clearState` returns the five flags to their initial values and keeps the list, pagination and counters |
| PostsSlice.PostsFetchedCase | src/app/features/blogs/postsSlice.js:200-227 | with page data, each of list, pagination, `count` and `total` takes the payload's value or its empty/zero default. Without page data all four reset. Both branches set `isSuccess` and stop loading |
| PostsSlice.PostFetchedCase | src/app/features/blogs/postsSlice.js:233-253 | a missing payload changes nothing. Otherwise the post is upserted (first match replaced, or appended) and no flag is touched |
| PostsSlice.ReplacedCase | src/app/features/blogs/postsSlice.js:259-289 | for upvote, downvote and view (lines 358-368): a `null` payload throws exactly when the list is non-empty, and on an empty list changes nothing. Otherwise only the first post with the payload's `_id` is replaced; every other field (flags, pagination, counters) and the length are kept, and an unlisted `_id` changes nothing |
| PostsSlice.Unwrap | src/app/features/blogs/postsSlice.js:311 | the post a create or update response carries: its `post` field when present, else the body itself |
| PostsSlice.CategoryFetchedCase | src/app/features/blogs/postsSlice.js:296-303 | the list becomes the payload wholesale and loading stops. Pagination, counters and `isSuccess` are kept |
| PostsSlice.PostAddedCase | src/app/features/blogs/postsSlice.js:310-319 | a `null` payload throws. Otherwise the new post is at index 0, the old list follows unchanged, and the length grows by one. `isSuccess` is set, loading stops, and every other field (error flag, message, code, pagination, counters) is kept |
| PostsSlice.PostUpdatedCase | src/app/features/blogs/postsSlice.js:326-340 | a `null` payload throws. Otherwise the unwrapped post replaces only the first match, the length is kept, and an unlisted `_id` leaves the list unchanged. `isSuccess` is set, loading stops, and every other field is kept |
| PostsSlice.PostDeletedCase | src/app/features/blogs/postsSlice.js:347-352 | no post with the deleted `_id` remains, the rest keep their order, and the length drops by the number of matches. `isSuccess` is set, loading stops, and every other field is kept |
| PostsSlice.RemovePostCase | src/app/features/blogs/postsSlice.js:191-194 | local removal filters like a delete (no match left, the rest in order, the length down by the matches) and changes no other field |
| PostsSlice.Reduce | src/app/features/blogs/postsSlice.js:182-371 | the case table throws exactly on a missing payload a case dereferences; pending, rejected and `clearState` keep the data; vote, view and `removePost` change only the list |
| PostsSlice.ThrowsExactlyOnMissingPayload | src/app/features/blogs/postsSlice.js:233-368 | a case reducer throws exactly when it dereferences a `null` payload: create and update always, vote and view only on a non-empty list; the store then keeps its state |
| PostsSlice.PendingDispatch | src/app/features/blogs/postsSlice.js:196-371 | pending of `fetchPostById`, `upvotePost`, `downvotePost` and `incrementPostView` reaches no case and changes nothing. Every other pending action runs the shared handler |
| PostsSlice.ClearAbsorbsFlags | src/app/features/blogs/postsSlice.js:183-190 | `clearState` after a pending, rejected or clear action equals `clearState` alone, and those actions keep the data |
| PostsSlice.FlagsOnlyKeepData | src/app/features/blogs/postsSlice.js:11-24 | any run of pending, rejected and clear actions leaves the list, pagination and counters unchanged |
| PostsSlice.SuccessAndErrorTogether | src/app/features/blogs/postsSlice.js:11-24 | a successful fetch followed by a failed retry leaves both `isSuccess` and `isError` set |
| PostsSlice.FetchPostsForgetsHistory | src/app/features/blogs/postsSlice.js:204-221 | after `fetchPosts` the list, pagination and counters depend on the payload alone, and the list is the payload's posts or empty |
| PostsSlice.FetchPostByIdIdempotent | src/app/features/blogs/postsSlice.js:233-253 | dispatching the same fetched post twice equals dispatching it once |
| PostsSlice.DeleteUndoesAdd | src/app/features/blogs/postsSlice.js:347-352 | deleting a freshly created post with a new `_id` restores the list it was added to |
| PostsSlice.DeleteRemovesOne | src/app/features/blogs/postsSlice.js:347-352 | with unique `_id`s a delete shortens the list by one if the `_id` is listed, and leaves it unchanged otherwise |
| PostsSlice.PrependUnique | src/app/features/blogs/postsSlice.js:318 | prepending keeps `_id`s unique exactly when the new `_id` is not yet listed |
| PostsSlice.UniqueIdsStep | src/app/features/blogs/postsSlice.js:196-371 | from unique `_id`s, an action keeps them unique unless it is a fetch of a list with duplicates or the creation of a post whose `_id` is already listed, and exactly then |
| UserSlice.PendingCase | src/app/features/user/userSlice.js:158-161 | pending sets loading and keeps the session, `isSuccess` and any recorded error |
| UserSlice.RejectedCase | src/app/features/user/userSlice.js:181-186 | rejected records a non-empty error (the payload or the default), stops loading, and keeps the session and `isSuccess` |
| UserSlice.DefaultMessage | src/app/features/user/userSlice.js:181-297 | every rejected case of the slice has a non-empty default message |
| UserSlice.SignIn | src/app/features/user/userSlice.js:170-172 | the user becomes current and logged in, and `isAdmin` holds exactly when the role is `admin`; loading, success, error and message are kept |
| UserSlice.AuthCase | src/app/features/user/userSlice.js:162-180 | a `null` payload throws. With `success` and a user: that user, logged in, admin exactly for role `admin`. Otherwise only `isLoggedIn` drops; `userInfo` and `isAdmin` stay. Both branches set `isSuccess` and stop loading |
| UserSlice.LoggedOutCase | src/app/features/user/userSlice.js:222-229 | logout clears the user and both session flags, sets `isSuccess` and stops loading |
| UserSlice.UserFetchedCase | src/app/features/user/userSlice.js:241-262 | a valid session with a user logs in as login does. Otherwise `isLoggedIn` and `isAdmin` drop and `userInfo` stays. `isSuccess` is set either way |
| UserSlice.ProfileUpdatedCase | src/app/features/user/userSlice.js:277-291 | a `null` payload throws. `userInfo` is replaced only with `success` and data, the session flags and the recorded error never change, `isSuccess` is set and loading stops |
| UserSlice.IsValid | src/app/features/user/userSlice.js:243 | a session is valid unless `valid` is exactly `false`; an undefined `valid` counts as valid |
| UserSlice.Reduce | src/app/features/user/userSlice.js:127-298 | the case table throws only on a `null` login, register or profile payload; pending, rejected and `clearState` keep the session; no action breaks the session's consistency |
| UserSlice.ClearFlags | src/app/features/user/userSlice.js:128-142 | `clearState` resets loading, success, error and message, and keeps `userInfo`, `isLoggedIn` and `isAdmin` |
| UserSlice.ConsistentStep | src/app/features/user/userSlice.js:155-298 | every action keeps the invariant that `isLoggedIn` and `isAdmin` each imply a user record |
| UserSlice.ConsistentRun | src/app/features/user/userSlice.js:116-299 | every state reachable by any run of actions from a consistent state is consistent |
| UserSlice.AdminWithoutLogin | src/app/features/user/userSlice.js:170-176 | `isAdmin` survives a login answered without a user, while `isLoggedIn` drops |
| UserSlice.RetryKeepsError | src/app/features/user/userSlice.js:158-186 | a failed login retried successfully is logged in with `isError` and the old message still recorded |
| UserSlice.RegisterIsLogin | src/app/features/user/userSlice.js:192-210 | register fulfilled and login fulfilled have the same effect on every state and payload |
| UserSlice.FetchLogsInLikeLogin | src/app/features/user/userSlice.js:241-253 | a valid fetched session with a user has the same effect as a successful login with that user |
| UserSlice.LoginIdempotent | src/app/features/user/userSlice.js:162-180 | dispatching the same login response twice equals dispatching it once |
| UserSlice.ClearReach | src/app/features/user/userSlice.js:144-153 | `clearUserState` yields exactly the initial state, as does logout followed by `clearState`. `clearState` alone keeps the session |
| UserSlice.RoleAgreesStep | src/app/features/user/userSlice.js:170-171 | every action except a profile update keeps `isAdmin` in line with the logged-in user's role |
| UserSlice.ProfileUpdateKeepsStaleAdmin | src/app/features/user/userSlice.js:277-291 | a profile update that changes an administrator's role leaves `isAdmin` set |
| FetchUserDecision.ProfileKey | src/app/features/user/userSlice.js:58-59 | the refresh key is `id` when that is non-empty and `_id` otherwise, and it is empty exactly when both are |
| FetchUserDecision.Resolve | src/app/features/user/userSlice.js:48-78 | rejects exactly when the token check fails or has no user: a transport error gives its message or the default, no `success` gives "token invalid", no user gives "user missing". A resolved result has `valid = true` and the refreshed profile if it succeeded, else the token's user |
| FetchUserDecision.Settle | src/app/features/user/userSlice.js:66-78 | the thunk fulfils exactly when the token check succeeds with a user, with a valid session for the resolved user; otherwise it rejects `fetchUser` with the decision's message: the transport's message or the default, "token invalid", or "user missing", never empty |
| FetchUserDecision.FetchUserOutcome | src/app/features/user/userSlice.js:48-73 | end to end, a valid token logs in the resolved user with success recorded. Any other answer records an error and keeps the session |
| FetchUserDecision.SettledSessionLogsIn | src/app/features/user/userSlice.js:66-73 | every fulfilled `fetchUser` payload is a valid session with a user |
| FetchUserDecision.ProfileFailureFallsBack | src/app/features/user/userSlice.js:61-73 | a failed profile request falls back to the token's user and still logs in with success |

## Left out

- The HTTP requests of every thunk (URLs, parameters, `withCredentials`).
  Only the payloads they settle with are modelled, as action parameters.
  The one exception is `fetchUser`, whose request outcomes are parameters
  of `FetchUserDecision.Resolve`.
- `logInfo` calls: logging with no effect on state.
- Redux Toolkit's `createSlice`, `createAsyncThunk` and Immer drafts. Each
  case is a plain function, and `Reduce` is the case table.
- Concurrent requests resolving out of order. Each dispatch is applied in
  the order given.
- The wording of the default messages. They are copied as constants and
  only their non-emptiness is used.
- A `fetchPostsByCategory` payload that is not an array: the source stores
  it as the list anyway. The model takes the payload to be a list of posts.
- A delete payload that is not a post id, and posts without an `_id`. The
  model gives every post an `_id` string and every delete an id string.
- A `fetchUser` fulfilled payload that is `null`. The thunk always
  fulfils with an object, so the case reducer cannot throw there.
- Non-object truthy payloads (a number or string where an object is
  expected). They read as objects whose fields are all missing.
- The pagination `next` field is modelled as an optional integer. The
  reducers never inspect it.
