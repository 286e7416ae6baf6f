/**
 * The demo service (`services/demoService.ts`): three stores (posts, comments,
 * liked post ids) and the create-post, create-comment and toggle-like
 * operations that read and then set them. The operations are `async` but
 * await nothing, so each runs atomically.
 *
 * `Date.now()` (which the new ids embed) and `new Date().toISOString()` are
 * parameters.
 */
module Demo {
  import opened Shared
  import opened Seqs
  import opened Text
  import opened Records

  /** The post `demoOperations.createPost` builds. */
  function NewDemoPost(caption: string, photoUrl: string, now: nat, nowIso: string): (p: Post)
    ensures p.caption == caption && p.photoUrl == photoUrl
    ensures p.moderationStatus == Pending && p.likeCount == 0 && p.commentCount == 0
    ensures p.feedId == "GLOBAL" && p.owner == "current-user" && p.createdAt == nowIso
    ensures Prefixed(p.id, "demo-post-", Decimal(now))
  {
    Post("demo-post-" + Decimal(now), caption, photoUrl, Pending, 0, 0, nowIso, "current-user", "GLOBAL")
  }

  /** The comment `demoOperations.createComment` builds. */
  function NewDemoComment(postId: string, body: string, now: nat, nowIso: string): (c: Comment)
    ensures c.postId == postId && c.body == body && c.owner == "current-user" && c.createdAt == nowIso
    ensures Prefixed(c.id, "demo-comment-", Decimal(now))
  {
    Comment("demo-comment-" + Decimal(now), postId, "current-user", body, nowIso)
  }

  // ---------------------------------------------------------------------
  // toggleLike

  function IsNot(postId: string): string -> bool {
    (id: string) => id != postId
  }

  /** The liked-id list after `toggleLike(postId)`: filtered out if present, appended if not. */
  function ToggledLikeIds(ids: seq<string>, postId: string): (r: seq<string>)
    ensures postId in r <==> postId !in ids
    ensures forall x :: x != postId ==> (x in r <==> x in ids)
    ensures NoDuplicates(ids) ==> NoDuplicates(r)
  {
    if postId in ids then
      var kept := Filter(ids, IsNot(postId));
      assert forall x :: x != postId && x in ids ==> x in kept by {
        forall x | x != postId && x in ids ensures x in kept {
          var k :| 0 <= k < |ids| && ids[k] == x;
        }
      }
      SubsequenceKeepsNoDuplicates(kept, ids);
      kept
    else ids + [postId]
  }

  /** Toggling the same post twice restores the set of liked ids. */
  lemma ToggleLikeIdsTwice(ids: seq<string>, postId: string)
    ensures forall x :: x in ToggledLikeIds(ToggledLikeIds(ids, postId), postId) <==> x in ids
  {
  }

  /** A post's like count moved by -1 if it was liked before, else by +1. */
  function ShiftLikeCount(wasLiked: bool): Post -> Post {
    (p: Post) => p.(likeCount := if wasLiked then p.likeCount - 1 else p.likeCount + 1)
  }

  /** Toggling twice restores every post's like count (the second toggle sees the flipped membership). */
  lemma ToggleLikeCountTwice(posts: seq<Post>, postId: string, wasLiked: bool)
    ensures UpdatePosts(UpdatePosts(posts, postId, ShiftLikeCount(wasLiked)), postId, ShiftLikeCount(!wasLiked)) == posts
  {
    var twice := UpdatePosts(UpdatePosts(posts, postId, ShiftLikeCount(wasLiked)), postId, ShiftLikeCount(!wasLiked));
    assert forall i :: 0 <= i < |posts| ==> twice[i] == posts[i];
  }

  // ---------------------------------------------------------------------
  // The stores

  /** `demoPostsStore`, `demoCommentsStore` and `demoLikesStore`. */
  class DemoService {
    var posts: seq<Post>
    var comments: seq<Comment>
    var likedIds: seq<string>

    /** The stores start from the seed posts and comments and no likes. */
    constructor (seedPosts: seq<Post>, seedComments: seq<Comment>)
      ensures posts == seedPosts && comments == seedComments && likedIds == []
    {
      posts := seedPosts;
      comments := seedComments;
      likedIds := [];
    }

    method CreatePost(caption: string, photoUrl: string, now: nat, nowIso: string) returns (p: Post)
      modifies this
      ensures p == NewDemoPost(caption, photoUrl, now, nowIso)
      ensures posts == [p] + old(posts)
      ensures comments == old(comments) && likedIds == old(likedIds)
    {
      p := NewDemoPost(caption, photoUrl, now, nowIso);
      var current := posts;
      posts := [p] + current;
    }

    method CreateComment(postId: string, body: string, now: nat, nowIso: string) returns (c: Comment)
      modifies this
      ensures c == NewDemoComment(postId, body, now, nowIso)
      ensures comments == old(comments) + [c]
      ensures posts == UpdatePosts(old(posts), postId, BumpCommentCount)
      ensures likedIds == old(likedIds)
    {
      c := NewDemoComment(postId, body, now, nowIso);
      var currentComments := comments;
      comments := currentComments + [c];
      var currentPosts := posts;
      posts := UpdatePosts(currentPosts, postId, BumpCommentCount);
    }

    method ToggleLike(postId: string) returns (isLiked: bool)
      modifies this
      ensures isLiked == (postId !in old(likedIds))
      ensures isLiked == (postId in likedIds)
      ensures likedIds == ToggledLikeIds(old(likedIds), postId)
      ensures posts == UpdatePosts(old(posts), postId, ShiftLikeCount(!isLiked))
      ensures comments == old(comments)
    {
      var currentLikes := likedIds;
      var wasLiked := postId in currentLikes;
      if wasLiked {
        likedIds := Filter(currentLikes, IsNot(postId));
      } else {
        likedIds := currentLikes + [postId];
      }
      var currentPosts := posts;
      posts := UpdatePosts(currentPosts, postId, ShiftLikeCount(wasLiked));
      isLiked := !wasLiked;
    }
  }
}
