/** The list operations the posts slice performs on its `posts` array:
    `findIndex` by `_id`, replace-in-place, upsert, and `filter` by `_id`. */
module PostList {

  /** The `_id` of a post. */
  type PostId = string

  /** A blog post as the server sends it. The reducers only ever look at `id`
      (the `_id` field); the other fields travel along unchanged. */
  datatype Post = Post(
    id: PostId,
    title: string,
    category: string,
    author: string,
    upvotes: int,
    downvotes: int,
    views: int)

  /** Some post in `posts` carries `id`. */
  predicate HasId(posts: seq<Post>, id: PostId) {
    exists i :: 0 <= i < |posts| && posts[i].id == id
  }

  /** `i` is the position of the first post carrying `id`. */
  predicate IsFirst(posts: seq<Post>, id: PostId, i: int) {
    && 0 <= i < |posts|
    && posts[i].id == id
    && forall j :: 0 <= j < i ==> posts[j].id != id
  }

  /** No two posts share an `_id`. */
  predicate UniqueIds(posts: seq<Post>) {
    forall i, j :: 0 <= i < j < |posts| ==> posts[i].id != posts[j].id
  }

  /** How many posts carry `id`. */
  function CountId(posts: seq<Post>, id: PostId): (n: nat)
    ensures n <= |posts|
    ensures n == 0 <==> !HasId(posts, id)
  {
    if |posts| == 0 then 0
    else
      var rest := CountId(posts[1..], id);
      assert forall i :: 1 <= i < |posts| ==> posts[i] == posts[1..][i - 1];
      if posts[0].id == id then rest + 1 else rest
  }

  /** `posts.findIndex(p => p._id === id)`: the first match, or -1. */
  function FindIndex(posts: seq<Post>, id: PostId): (r: int)
    ensures -1 <= r < |posts|
    ensures r == -1 <==> !HasId(posts, id)
    ensures r != -1 ==> IsFirst(posts, id, r)
  {
    if |posts| == 0 then -1
    else if posts[0].id == id then 0
    else
      var k := FindIndex(posts[1..], id);
      assert forall i :: 1 <= i < |posts| ==> posts[i] == posts[1..][i - 1];
      if k == -1 then -1 else k + 1
  }

  /** The first match is unique, so a contract that names it pins one index. */
  lemma FirstIsUnique(posts: seq<Post>, id: PostId, i: int, j: int)
    requires IsFirst(posts, id, i) && IsFirst(posts, id, j)
    ensures i == j
  {
  }

  /** The vote, view and update cases: `posts[index] = p` when `findIndex`
      finds `p`'s `_id`, and nothing otherwise. */
  function ReplaceFirst(posts: seq<Post>, p: Post): (r: seq<Post>)
    ensures |r| == |posts|
    ensures !HasId(posts, p.id) ==> r == posts
    ensures forall i :: IsFirst(posts, p.id, i) ==> r == posts[i := p]
  {
    var k := FindIndex(posts, p.id);
    if k == -1 then posts
    else
      assert forall i :: IsFirst(posts, p.id, i) ==> i == k by {
        forall i | IsFirst(posts, p.id, i) { FirstIsUnique(posts, p.id, i, k); }
      }
      posts[k := p]
  }

  /** The `fetchPostById` case: replace the first post with `p`'s `_id`, or
      append `p` when there is none. */
  function Upsert(posts: seq<Post>, p: Post): (r: seq<Post>)
    ensures HasId(r, p.id)
    ensures HasId(posts, p.id) ==> |r| == |posts|
    ensures forall i :: IsFirst(posts, p.id, i) ==> r == posts[i := p]
    ensures !HasId(posts, p.id) ==> r == posts + [p]
  {
    var k := FindIndex(posts, p.id);
    if k == -1 then
      assert (posts + [p])[|posts|] == p;
      posts + [p]
    else
      assert ReplaceFirst(posts, p)[k] == p;
      ReplaceFirst(posts, p)
  }

  /** `posts.filter(p => p._id !== id)`: every post carrying `id` goes. */
  function RemoveById(posts: seq<Post>, id: PostId): (r: seq<Post>)
    ensures !HasId(r, id)
    ensures |r| == |posts| - CountId(posts, id)
    ensures IsSubsequence(r, posts)
    ensures forall q :: q in posts && q.id != id ==> q in r
    ensures !HasId(posts, id) ==> r == posts
  {
    if |posts| == 0 then []
    else
      var rest := RemoveById(posts[1..], id);
      assert forall q :: q in posts ==> q == posts[0] || q in posts[1..];
      if posts[0].id == id then rest
      else
        assert forall i :: 1 <= i < |[posts[0]] + rest| ==> ([posts[0]] + rest)[i] == rest[i - 1];
        assert ([posts[0]] + rest)[1..] == rest;
        [posts[0]] + rest
  }

  /** `a` is `b` with some elements dropped, the rest in their order. */
  predicate IsSubsequence(a: seq<Post>, b: seq<Post>)
    decreases |b|
  {
    if |a| == 0 then true
    else if |b| == 0 then false
    else (a[0] == b[0] && IsSubsequence(a[1..], b[1..])) || IsSubsequence(a, b[1..])
  }

  /** Fetching the same post twice leaves the list as fetching it once. */
  lemma {:induction false} UpsertIdempotent(posts: seq<Post>, p: Post)
    ensures Upsert(Upsert(posts, p), p) == Upsert(posts, p)
  {
    var once := Upsert(posts, p);
    if HasId(posts, p.id) {
      var k := FindIndex(posts, p.id);
      assert IsFirst(once, p.id, k);
    } else {
      assert IsFirst(once, p.id, |posts|);
      assert once[|posts| := p] == once;
    }
  }

  /** A second vote, view or update response equal to the first changes nothing. */
  lemma {:induction false} ReplaceFirstIdempotent(posts: seq<Post>, p: Post)
    ensures ReplaceFirst(ReplaceFirst(posts, p), p) == ReplaceFirst(posts, p)
  {
    if HasId(posts, p.id) {
      var k := FindIndex(posts, p.id);
      assert IsFirst(ReplaceFirst(posts, p), p.id, k);
    }
  }

  /** Replacing a post in place keeps every `_id` where it was. */
  lemma ReplaceFirstKeepsIds(posts: seq<Post>, p: Post)
    ensures forall i :: 0 <= i < |posts| ==> ReplaceFirst(posts, p)[i].id == posts[i].id
    ensures UniqueIds(posts) ==> UniqueIds(ReplaceFirst(posts, p))
  {
    if HasId(posts, p.id) {
      var k := FindIndex(posts, p.id);
      assert ReplaceFirst(posts, p) == posts[k := p];
    }
  }

  /** Fetching one post never introduces a second post with its `_id`. */
  lemma UpsertKeepsUnique(posts: seq<Post>, p: Post)
    requires UniqueIds(posts)
    ensures UniqueIds(Upsert(posts, p))
  {
    if HasId(posts, p.id) {
      ReplaceFirstKeepsIds(posts, p);
    } else {
      var r := Upsert(posts, p);
      forall i, j | 0 <= i < j < |r| ensures r[i].id != r[j].id {
        if j == |posts| {
          assert r[i] == posts[i];
        }
      }
    }
  }

  /** Filtering by `_id` keeps the list free of duplicate `_id`s. */
  lemma {:induction false} RemoveKeepsUnique(posts: seq<Post>, id: PostId)
    requires UniqueIds(posts)
    ensures UniqueIds(RemoveById(posts, id))
  {
    if |posts| > 0 {
      var rest := RemoveById(posts[1..], id);
      RemoveKeepsUnique(posts[1..], id);
      if posts[0].id != id {
        forall i | 0 <= i < |rest| ensures rest[i].id != posts[0].id {
          SubsequenceMembers(rest, posts[1..], rest[i]);
          var j :| 0 <= j < |posts[1..]| && posts[1..][j] == rest[i];
          assert posts[1..][j] == posts[j + 1];
        }
        var r := [posts[0]] + rest;
        forall i, j | 0 <= i < j < |r| ensures r[i].id != r[j].id {
          if i == 0 {
            assert r[j] == rest[j - 1];
          } else {
            assert r[i] == rest[i - 1] && r[j] == rest[j - 1];
          }
        }
      }
    }
  }

  /** Every element of a subsequence is an element of the whole. */
  lemma {:induction false} SubsequenceMembers(a: seq<Post>, b: seq<Post>, x: Post)
    requires IsSubsequence(a, b) && x in a
    ensures x in b
    decreases |b|
  {
    assert |b| > 0;
    if a[0] == b[0] && IsSubsequence(a[1..], b[1..]) {
      if x != a[0] {
        assert x in a[1..];
        SubsequenceMembers(a[1..], b[1..], x);
      }
    } else {
      SubsequenceMembers(a, b[1..], x);
    }
  }

  /** With unique `_id`s a present `_id` is carried by exactly one post. */
  lemma {:induction false} UniqueCountIsOne(posts: seq<Post>, id: PostId)
    requires UniqueIds(posts) && HasId(posts, id)
    ensures CountId(posts, id) == 1
  {
    var tail := posts[1..];
    assert UniqueIds(tail);
    if posts[0].id == id {
      forall i | 0 <= i < |tail| ensures tail[i].id != id {
        assert tail[i] == posts[i + 1];
      }
    } else {
      var i :| 0 <= i < |posts| && posts[i].id == id;
      assert tail[i - 1].id == id;
      UniqueCountIsOne(tail, id);
    }
  }

  /** With unique `_id`s, filtering removes exactly one post when the `_id`
      is present and none otherwise. */
  lemma RemoveUniqueDropsOne(posts: seq<Post>, id: PostId)
    requires UniqueIds(posts)
    ensures HasId(posts, id) ==> |RemoveById(posts, id)| == |posts| - 1
    ensures !HasId(posts, id) ==> RemoveById(posts, id) == posts
  {
    if HasId(posts, id) {
      UniqueCountIsOne(posts, id);
    }
  }

  /** Every post carrying `p`'s `_id` replaced by `p`: the in-place update a
      reader expects when `_id`s identify posts. */
  function ReplaceAll(posts: seq<Post>, p: Post): (r: seq<Post>)
    ensures |r| == |posts|
  {
    seq(|posts|, i requires 0 <= i < |posts| => if posts[i].id == p.id then p else posts[i])
  }

  /** With unique `_id`s, replacing the first match is replacing every match. */
  lemma ReplaceFirstIsReplaceAll(posts: seq<Post>, p: Post)
    requires UniqueIds(posts)
    ensures ReplaceFirst(posts, p) == ReplaceAll(posts, p)
  {
    if HasId(posts, p.id) {
      var k := FindIndex(posts, p.id);
      assert ReplaceFirst(posts, p) == posts[k := p];
    }
  }

  /** Deleting a freshly created post undoes its creation. */
  lemma RemoveUndoesPrepend(posts: seq<Post>, p: Post)
    requires !HasId(posts, p.id)
    ensures RemoveById([p] + posts, p.id) == posts
  {
    assert ([p] + posts)[1..] == posts;
  }

  /** Overwriting a post by one with the same `_id` is invisible to a filter
      on that `_id`. */
  lemma {:induction false} RemoveAfterOverwrite(posts: seq<Post>, i: int, q: Post)
    requires 0 <= i < |posts| && posts[i].id == q.id
    ensures RemoveById(posts[i := q], q.id) == RemoveById(posts, q.id)
  {
    if i > 0 {
      assert posts[i := q][1..] == posts[1..][i - 1 := q];
      RemoveAfterOverwrite(posts[1..], i - 1, q);
    } else {
      assert posts[i := q][1..] == posts[1..];
    }
  }

  /** A post appended at the end is invisible to a filter on its `_id`. */
  lemma {:induction false} RemoveAfterAppend(posts: seq<Post>, p: Post)
    ensures RemoveById(posts + [p], p.id) == RemoveById(posts, p.id)
  {
    if |posts| == 0 {
      assert RemoveById([p], p.id) == RemoveById([p][1..], p.id);
    } else {
      assert (posts + [p])[1..] == posts[1..] + [p];
      RemoveAfterAppend(posts[1..], p);
    }
  }

  /** Deleting a post after fetching it leaves what deleting it beforehand
      leaves: the fetch is undone completely. */
  lemma RemoveUndoesUpsert(posts: seq<Post>, p: Post)
    ensures RemoveById(Upsert(posts, p), p.id) == RemoveById(posts, p.id)
  {
    if HasId(posts, p.id) {
      var k := FindIndex(posts, p.id);
      RemoveAfterOverwrite(posts, k, p);
    } else {
      RemoveAfterAppend(posts, p);
    }
  }
}
