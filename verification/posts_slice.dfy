/** The `posts` slice: its state, the actions its thunks and local reducers
    dispatch, and one case reducer per action. */
module PostsSlice {
  import opened Base
  import opened PostList

  /** The server's pagination descriptor `{next, total, count}`. */
  datatype Pagination = Pagination(next: Option<int>, total: int, count: int)

  /** `{ next: null, total: 0, count: 0 }`, the default pagination. */
  const EmptyPagination := Pagination(None, 0, 0)

  datatype State = State(
    posts: seq<Post>,
    isLoading: bool,
    isSuccess: bool,
    isError: bool,
    errorMessage: string,
    errorCode: Option<string>,
    pagination: Pagination,
    count: int,
    total: int)

  const Initial := State([], false, false, false, "", None, EmptyPagination, 0, 0)

  /** The code recorded when a rejection carries none. */
  const UnknownError := "UNKNOWN_ERROR"

  /** The asynchronous operations of the slice. */
  datatype Thunk =
    | FetchPosts | FetchPostById | UpvotePost | DownvotePost | FetchPostsByCategory
    | AddNewPost | UpdatePost | DeletePost | IncrementPostView

  /** The `{message, code}` a request is rejected with. The empty string
      stands for a missing or falsy field, and also for a rejection that
      carries no payload at all (`action.payload?.message` is then undefined). */
  datatype ErrorInfo = ErrorInfo(message: string, code: string)

  /** The `data` object of a `fetchPosts` response; `None` is a missing or
      falsy field. */
  datatype PageData = PageData(
    posts: Option<seq<Post>>,
    pagination: Option<Pagination>,
    count: Option<int>,
    total: Option<int>)

  /** The body of a create or update response: `post` is its `post` field and
      `asPost` is the body itself read as a post (`payload.post || payload`). */
  datatype SaveBody = SaveBody(post: Option<Post>, asPost: Post)

  /** `None` in a payload position is a `null`/`undefined` payload; for
      `PostsFetched` it is also a payload without `data`, and for
      `PostFetched` any falsy payload (the two cases test truthiness). */
  datatype Action =
    | Pending(thunk: Thunk)
    | Rejected(failed: Thunk, error: ErrorInfo)
    | PostsFetched(page: Option<PageData>)
    | PostFetched(fetched: Option<Post>)
    | Upvoted(upvoted: Option<Post>)
    | Downvoted(downvoted: Option<Post>)
    | CategoryFetched(inCategory: seq<Post>)
    | PostAdded(added: Option<SaveBody>)
    | PostUpdated(updated: Option<SaveBody>)
    | PostDeleted(deletedId: PostId)
    | ViewIncremented(viewed: Option<Post>)
    | ClearState
    | RemovePost(removedId: PostId)

  /** The message recorded when a rejection of `t` carries none. */
  function DefaultMessage(t: Thunk): (m: string)
    ensures m != ""
  {
    match t
    case FetchPosts => "Postları getirirken hata oluştu."
    case FetchPostById => "Tekil post getirilirken hata oluştu."
    case UpvotePost => "Upvote eklenirken hata oluştu."
    case DownvotePost => "Downvote eklenirken hata oluştu."
    case FetchPostsByCategory => "Postları getirirken hata oluştu."
    case AddNewPost => "Post eklerken hata oluştu."
    case UpdatePost => "Post güncellerken hata oluştu."
    case DeletePost => "Post silerken hata oluştu."
    case IncrementPostView => "Görüntülenme artırılırken hata oluştu."
  }

  /** Only these thunks register a pending case; the pending actions of the
      others reach no case reducer. */
  predicate HasPendingCase(t: Thunk) {
    t in {FetchPosts, FetchPostsByCategory, AddNewPost, UpdatePost, DeletePost}
  }

  /** The list and everything fetched with it agree between two states. */
  predicate SameData(a: State, b: State) {
    && a.posts == b.posts
    && a.pagination == b.pagination
    && a.count == b.count
    && a.total == b.total
  }

  /** The transient flags agree between two states. */
  predicate SameFlags(a: State, b: State) {
    && a.isLoading == b.isLoading
    && a.isSuccess == b.isSuccess
    && a.isError == b.isError
    && a.errorMessage == b.errorMessage
    && a.errorCode == b.errorCode
  }

  /** The shared pending case: loading, with any previous error cleared. */
  function HandlePending(s: State): (r: State)
    ensures r.isLoading && !r.isError && r.errorMessage == "" && r.errorCode == None
    ensures SameData(r, s) && r.isSuccess == s.isSuccess
  {
    s.(isLoading := true, isError := false, errorMessage := "", errorCode := None)
  }

  /** The shared rejected case: the error is recorded with a non-empty message
      and code, falling back to `fallback` and `UNKNOWN_ERROR`. */
  function HandleRejected(s: State, e: ErrorInfo, fallback: string): (r: State)
    requires fallback != ""
    ensures !r.isLoading && r.isError
    ensures r.errorMessage != "" && r.errorCode.Some? && r.errorCode.value != ""
    ensures e.message != "" ==> r.errorMessage == e.message
    ensures e.message == "" ==> r.errorMessage == fallback
    ensures e.code != "" ==> r.errorCode == Some(e.code)
    ensures e.code == "" ==> r.errorCode == Some(UnknownError)
    ensures SameData(r, s) && r.isSuccess == s.isSuccess
  {
    s.(isLoading := false, isError := true,
       errorMessage := OrElse(e.message, fallback),
       errorCode := Some(OrElse(e.code, UnknownError)))
  }

  /** The local `clearState`: the flags return to their initial values. */
  function ClearFlags(s: State): (r: State)
    ensures SameFlags(r, Initial) && SameData(r, s)
  {
    s.(isLoading := false, isSuccess := false, isError := false, errorMessage := "", errorCode := None)
  }

  /** `fetchPosts` fulfilled: the list and its counters are replaced wholesale,
      each missing field defaulting to empty or zero. */
  function PostsFetchedCase(s: State, page: Option<PageData>): (r: State)
    ensures !r.isLoading && r.isSuccess
    ensures r.isError == s.isError && r.errorMessage == s.errorMessage && r.errorCode == s.errorCode
    ensures page.Some? ==>
      && (page.value.posts.Some? ==> r.posts == page.value.posts.value)
      && (page.value.posts.None? ==> r.posts == [])
      && (page.value.pagination.Some? ==> r.pagination == page.value.pagination.value)
      && (page.value.pagination.None? ==> r.pagination == EmptyPagination)
      && (page.value.count.Some? ==> r.count == page.value.count.value)
      && (page.value.count.None? ==> r.count == 0)
      && (page.value.total.Some? ==> r.total == page.value.total.value)
      && (page.value.total.None? ==> r.total == 0)
    ensures page.None? ==> r.posts == [] && r.pagination == EmptyPagination && r.count == 0 && r.total == 0
  {
    var s' := s.(isLoading := false, isSuccess := true);
    match page
    case Some(d) =>
      s'.(posts := d.posts.GetOr([]), pagination := d.pagination.GetOr(EmptyPagination),
          count := d.count.GetOr(0), total := d.total.GetOr(0))
    case None =>
      s'.(posts := [], pagination := EmptyPagination, count := 0, total := 0)
  }

  /** `fetchPostById` fulfilled: upsert by `_id`; no flag is touched and a
      missing payload changes nothing. */
  function PostFetchedCase(s: State, fetched: Option<Post>): (r: State)
    ensures SameFlags(r, s) && r.pagination == s.pagination && r.count == s.count && r.total == s.total
    ensures fetched.None? ==> r == s
    ensures fetched.Some? ==> HasId(r.posts, fetched.value.id)
    ensures fetched.Some? && HasId(s.posts, fetched.value.id) ==>
      |r.posts| == |s.posts|
      && forall i :: IsFirst(s.posts, fetched.value.id, i) ==> r.posts == s.posts[i := fetched.value]
    ensures fetched.Some? && !HasId(s.posts, fetched.value.id) ==> r.posts == s.posts + [fetched.value]
  {
    match fetched
    case None => s
    case Some(p) => s.(posts := Upsert(s.posts, p))
  }

  /** The upvote, downvote and view cases: the first post with the payload's
      `_id` is replaced and nothing else changes. A `null` payload throws only
      on a non-empty list: `findIndex` never calls its callback, which reads
      the payload's `_id`, on an empty array. */
  function ReplacedCase(s: State, payload: Option<Post>): (r: Reduced<State>)
    ensures r.Threw? <==> payload.None? && |s.posts| > 0
    ensures payload.None? && |s.posts| == 0 ==> r == Next(s)
    ensures r.Next? ==> r.state == s.(posts := r.state.posts)
    ensures r.Next? ==> |r.state.posts| == |s.posts|
    ensures r.Next? && payload.Some? && !HasId(s.posts, payload.value.id) ==> r.state == s
    ensures r.Next? && payload.Some? ==>
      forall i :: IsFirst(s.posts, payload.value.id, i) ==> r.state.posts == s.posts[i := payload.value]
  {
    match payload
    case None => if |s.posts| == 0 then Next(s) else Threw
    case Some(p) => Next(s.(posts := ReplaceFirst(s.posts, p)))
  }

  /** `payload.post || payload`: the post a create or update response carries. */
  function Unwrap(body: SaveBody): (p: Post)
    ensures body.post.Some? ==> p == body.post.value
    ensures body.post.None? ==> p == body.asPost
  {
    body.post.GetOr(body.asPost)
  }

  /** `fetchPostsByCategory` fulfilled: the list is replaced; pagination,
      counters and `isSuccess` keep their values. */
  function CategoryFetchedCase(s: State, inCategory: seq<Post>): (r: State)
    ensures r.posts == inCategory && !r.isLoading
    ensures r.isSuccess == s.isSuccess && r.isError == s.isError
    ensures r.errorMessage == s.errorMessage && r.errorCode == s.errorCode
    ensures r.pagination == s.pagination && r.count == s.count && r.total == s.total
  {
    s.(isLoading := false, posts := inCategory)
  }

  /** `addNewPost` fulfilled: the new post goes in front of the list. */
  function PostAddedCase(s: State, added: Option<SaveBody>): (r: Reduced<State>)
    ensures r.Threw? <==> added.None?
    ensures r.Next? ==>
      && |r.state.posts| == |s.posts| + 1
      && r.state.posts[0] == Unwrap(added.value)
      && r.state.posts[1..] == s.posts
      && r.state.isSuccess && !r.state.isLoading
      && r.state == s.(posts := r.state.posts, isLoading := false, isSuccess := true)
  {
    match added
    case None => Threw
    case Some(body) => Next(s.(isLoading := false, isSuccess := true, posts := [Unwrap(body)] + s.posts))
  }

  /** `updatePost` fulfilled: like a vote, but it also settles the flags. */
  function PostUpdatedCase(s: State, updated: Option<SaveBody>): (r: Reduced<State>)
    ensures r.Threw? <==> updated.None?
    ensures r.Next? ==> r.state.isSuccess && !r.state.isLoading
    ensures r.Next? ==> r.state == s.(posts := r.state.posts, isLoading := false, isSuccess := true)
    ensures r.Next? ==> |r.state.posts| == |s.posts|
    ensures r.Next? && !HasId(s.posts, Unwrap(updated.value).id) ==> r.state.posts == s.posts
    ensures r.Next? ==>
      forall i :: IsFirst(s.posts, Unwrap(updated.value).id, i) ==>
        r.state.posts == s.posts[i := Unwrap(updated.value)]
  {
    match updated
    case None => Threw
    case Some(body) =>
      Next(s.(isLoading := false, isSuccess := true, posts := ReplaceFirst(s.posts, Unwrap(body))))
  }

  /** `deletePost` fulfilled: every post with the deleted `_id` goes. */
  function PostDeletedCase(s: State, id: PostId): (r: State)
    ensures r.isSuccess && !r.isLoading
    ensures !HasId(r.posts, id) && IsSubsequence(r.posts, s.posts)
    ensures |r.posts| == |s.posts| - CountId(s.posts, id)
    ensures r == s.(posts := r.posts, isLoading := false, isSuccess := true)
  {
    s.(isLoading := false, isSuccess := true, posts := RemoveById(s.posts, id))
  }

  /** The local `removePost`: like a delete, but no flag is touched. */
  function RemovePostCase(s: State, id: PostId): (r: State)
    ensures r == s.(posts := r.posts)
    ensures !HasId(r.posts, id) && IsSubsequence(r.posts, s.posts)
    ensures |r.posts| == |s.posts| - CountId(s.posts, id)
    ensures !HasId(s.posts, id) ==> r == s
  {
    s.(posts := RemoveById(s.posts, id))
  }

  /** The slice reducer: dispatches each action to its case. It throws
      exactly on a missing payload it dereferences; the flag actions keep the
      data, and the vote, view and local removal actions touch only the list. */
  function Reduce(s: State, a: Action): (r: Reduced<State>)
    ensures r.Threw? <==> MissingPayload(s, a)
    ensures FlagsOnly(a) ==> r.Next? && SameData(r.state, s)
    ensures r.Next? && (a.Upvoted? || a.Downvoted? || a.ViewIncremented? || a.RemovePost?) ==>
      r.state == s.(posts := r.state.posts)
  {
    match a
    case Pending(t) => if HasPendingCase(t) then Next(HandlePending(s)) else Next(s)
    case Rejected(t, e) => Next(HandleRejected(s, e, DefaultMessage(t)))
    case PostsFetched(page) => Next(PostsFetchedCase(s, page))
    case PostFetched(p) => Next(PostFetchedCase(s, p))
    case Upvoted(p) => ReplacedCase(s, p)
    case Downvoted(p) => ReplacedCase(s, p)
    case CategoryFetched(ps) => Next(CategoryFetchedCase(s, ps))
    case PostAdded(body) => PostAddedCase(s, body)
    case PostUpdated(body) => PostUpdatedCase(s, body)
    case PostDeleted(id) => Next(PostDeletedCase(s, id))
    case ViewIncremented(p) => ReplacedCase(s, p)
    case ClearState => Next(ClearFlags(s))
    case RemovePost(id) => Next(RemovePostCase(s, id))
  }

  /** The store's state after dispatching `a`. */
  function Dispatch(s: State, a: Action): State {
    Commit(s, Reduce(s, a))
  }

  /** The store's state after dispatching every action of `trace` in order. */
  function Run(s: State, trace: seq<Action>): State
    decreases |trace|
  {
    if |trace| == 0 then s else Run(Dispatch(s, trace[0]), trace[1..])
  }

  /** The actions whose case reducer, in state `s`, dereferences a `null`
      payload: add and update always read `payload.post`; vote and view read
      the payload's `_id` only when `findIndex` has a post to test it on. */
  predicate MissingPayload(s: State, a: Action) {
    || (a.Upvoted? && a.upvoted.None? && |s.posts| > 0)
    || (a.Downvoted? && a.downvoted.None? && |s.posts| > 0)
    || (a.ViewIncremented? && a.viewed.None? && |s.posts| > 0)
    || (a.PostAdded? && a.added.None?)
    || (a.PostUpdated? && a.updated.None?)
  }

  /** A case reducer throws exactly on a missing payload it dereferences,
      and the store then keeps its state; `fetchPostById` guards its payload. */
  lemma ThrowsExactlyOnMissingPayload(s: State, a: Action)
    ensures Reduce(s, a).Threw? <==> MissingPayload(s, a)
    ensures Dispatch(s, a) == s <== MissingPayload(s, a)
  {
  }

  /** The pending action of a thunk without a pending case changes nothing;
      the others run the shared pending case. */
  lemma PendingDispatch(s: State, t: Thunk)
    ensures !HasPendingCase(t) ==> Dispatch(s, Pending(t)) == s
    ensures HasPendingCase(t) ==> Dispatch(s, Pending(t)) == HandlePending(s)
    ensures HasPendingCase(t) <==> t !in {FetchPostById, UpvotePost, DownvotePost, IncrementPostView}
  {
  }

  /** Actions that only ever touch the transient flags. */
  predicate FlagsOnly(a: Action) {
    a.Pending? || a.Rejected? || a.ClearState?
  }

  /** `clearState` erases every trace of a pending or rejected action. */
  lemma ClearAbsorbsFlags(s: State, a: Action)
    requires FlagsOnly(a)
    ensures Dispatch(Dispatch(s, a), ClearState) == Dispatch(s, ClearState)
    ensures SameData(Dispatch(s, a), s)
  {
  }

  /** Any run of pending, rejected and `clearState` actions leaves the list,
      the pagination and the counters as they were. */
  lemma {:induction false} FlagsOnlyKeepData(s: State, trace: seq<Action>)
    requires forall i :: 0 <= i < |trace| ==> FlagsOnly(trace[i])
    ensures SameData(Run(s, trace), s)
    decreases |trace|
  {
    if |trace| > 0 {
      ClearAbsorbsFlags(s, trace[0]);
      FlagsOnlyKeepData(Dispatch(s, trace[0]), trace[1..]);
    }
  }

  /** The flags are not exclusive: neither pending nor rejected resets
      `isSuccess`, so a fetch that succeeded and a retry that failed leave
      both `isSuccess` and `isError` set. */
  lemma SuccessAndErrorTogether()
    ensures var s := Run(Initial, [Pending(FetchPosts), PostsFetched(None),
                                    Pending(FetchPosts), Rejected(FetchPosts, ErrorInfo("", ""))]);
            s.isSuccess && s.isError && !s.isLoading && s.errorCode == Some(UnknownError)
  {
  }

  /** A successful `fetchPosts` forgets everything the list held before: the
      outcome depends on the payload alone. */
  lemma FetchPostsForgetsHistory(s1: State, s2: State, page: Option<PageData>)
    ensures SameData(Dispatch(s1, PostsFetched(page)), Dispatch(s2, PostsFetched(page)))
    ensures Dispatch(s1, PostsFetched(page)).posts == (if page.Some? then page.value.posts.GetOr([]) else [])
  {
  }

  /** Dispatching the same `fetchPostById` result twice is dispatching it once. */
  lemma FetchPostByIdIdempotent(s: State, fetched: Option<Post>)
    ensures Dispatch(Dispatch(s, PostFetched(fetched)), PostFetched(fetched)) == Dispatch(s, PostFetched(fetched))
  {
    if fetched.Some? {
      UpsertIdempotent(s.posts, fetched.value);
    }
  }

  /** Deleting a freshly created post restores the list it was added to. */
  lemma DeleteUndoesAdd(s: State, body: SaveBody)
    requires !HasId(s.posts, Unwrap(body).id)
    ensures Dispatch(Dispatch(s, PostAdded(Some(body))), PostDeleted(Unwrap(body).id)).posts == s.posts
  {
    RemoveUndoesPrepend(s.posts, Unwrap(body));
  }

  /** With unique `_id`s, a delete removes exactly one post when the `_id` is
      present and leaves the list alone otherwise. */
  lemma DeleteRemovesOne(s: State, id: PostId)
    requires UniqueIds(s.posts)
    ensures HasId(s.posts, id) ==> |Dispatch(s, PostDeleted(id)).posts| == |s.posts| - 1
    ensures !HasId(s.posts, id) ==> Dispatch(s, PostDeleted(id)).posts == s.posts
  {
    RemoveUniqueDropsOne(s.posts, id);
  }

  /** When an action keeps the `_id`s of the list unique: only a replacing
      fetch of a list with duplicates, or the creation of a post whose `_id`
      is already listed, can break it. */
  predicate KeepsIdsUnique(s: State, a: Action) {
    match a
    case PostsFetched(Some(d)) => UniqueIds(d.posts.GetOr([]))
    case CategoryFetched(ps) => UniqueIds(ps)
    case PostAdded(Some(body)) => !HasId(s.posts, Unwrap(body).id)
    case _ => true
  }

  /** Prepending keeps `_id`s unique exactly when the new `_id` is fresh. */
  lemma PrependUnique(posts: seq<Post>, p: Post)
    requires UniqueIds(posts)
    ensures UniqueIds([p] + posts) <==> !HasId(posts, p.id)
  {
    var r := [p] + posts;
    if !HasId(posts, p.id) {
      forall i, j | 0 <= i < j < |r| ensures r[i].id != r[j].id {
        assert r[j] == posts[j - 1];
        if i > 0 {
          assert r[i] == posts[i - 1];
        }
      }
    } else {
      var k :| 0 <= k < |posts| && posts[k].id == p.id;
      assert r[k + 1] == posts[k] && r[0] == p;
      assert r[0].id == r[k + 1].id;
    }
  }

  /** Starting from unique `_id`s, an action keeps them unique exactly when
      `KeepsIdsUnique` says so. */
  lemma UniqueIdsStep(s: State, a: Action)
    requires UniqueIds(s.posts)
    ensures UniqueIds(Dispatch(s, a).posts) <==> KeepsIdsUnique(s, a)
  {
    match a
    case PostFetched(Some(p)) => UpsertKeepsUnique(s.posts, p);
    case Upvoted(Some(p)) => ReplaceFirstKeepsIds(s.posts, p);
    case Downvoted(Some(p)) => ReplaceFirstKeepsIds(s.posts, p);
    case ViewIncremented(Some(p)) => ReplaceFirstKeepsIds(s.posts, p);
    case PostUpdated(Some(body)) => ReplaceFirstKeepsIds(s.posts, Unwrap(body));
    case PostAdded(Some(body)) => PrependUnique(s.posts, Unwrap(body));
    case PostDeleted(id) => RemoveKeepsUnique(s.posts, id);
    case RemovePost(id) => RemoveKeepsUnique(s.posts, id);
    case _ =>
  }
}
