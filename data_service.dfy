/**
 * The data service (`services/dataService.ts`): the module-level atoms
 * `postsStore`, `commentsStore`, `likesStore`, `isLoadingStore`, `errorStore`
 * and the `feedSubscription` handle, and the operations that set them around
 * one awaited backend call each.
 *
 * Every backend call (a GraphQL query or mutation) is an opaque step passed
 * in as a `Call<T>`: it resolves with a value or rejects with what was
 * thrown. The stores are written only after the call settles, so each
 * operation is atomic around its single call. The subscription handles the
 * service holds are values; `released` records, in order, every handle whose
 * `unsubscribe()` the service has called.
 */
module DataService {
  import opened Calls
  import opened Shared
  import opened Seqs
  import opened Records
  import Demo

  /** The input of `createPost` and `savePost`. */
  datatype PostInput = PostInput(caption: string, photoStorageKey: string, photoUrl: string, feedId: Option<string>)

  /** A live subscription to one feed's event channel; `serial` tells handles apart. */
  datatype Subscription = Subscription(feedId: string, serial: nat)

  /** The `type` of a feed event, with the moderation status a MODERATION_UPDATED event carries. */
  datatype FeedEventKind =
    | PostCreated
    | PostUpdated
    | ModerationUpdated(status: ModerationStatus)
    | CommentCreated
    | LikeUpdated
    | OtherKind

  datatype FeedEvent = FeedEvent(postId: string, kind: FeedEventKind, createdAt: string)

  /** The result of an awaited call whose value is not used. */
  datatype Outcome = Done | Failed(thrown: Thrown)

  /** `{ ...post, moderationStatus: status }`. */
  function SetModeration(status: ModerationStatus): Post -> Post {
    (p: Post) => p.(moderationStatus := status)
  }

  /** `{ ...post, likeCount: Math.max(0, post.likeCount - 1) }`. */
  function Unliked(p: Post): (r: Post)
    ensures r.likeCount >= 0
    ensures p.likeCount > 0 ==> r.likeCount == p.likeCount - 1
    ensures p.likeCount <= 0 ==> r.likeCount == 0
    ensures r.(likeCount := p.likeCount) == p
  {
    p.(likeCount := if p.likeCount - 1 < 0 then 0 else p.likeCount - 1)
  }

  /** `{ ...post, likeCount: post.likeCount + 1 }`. */
  function Liked(p: Post): Post {
    p.(likeCount := p.likeCount + 1)
  }

  function IsLikeOf(postId: string): Like -> bool {
    (l: Like) => l.postId == postId
  }

  function NotLikeOf(postId: string): Like -> bool {
    (l: Like) => l.postId != postId
  }

  // ---------------------------------------------------------------------
  // Properties of the store updates

  /** A MODERATION_UPDATED event applied twice leaves the posts as after one application. */
  lemma ModerationIdempotent(posts: seq<Post>, postId: string, status: ModerationStatus)
    ensures var once := UpdatePosts(posts, postId, SetModeration(status));
      UpdatePosts(once, postId, SetModeration(status)) == once
  {
    var once := UpdatePosts(posts, postId, SetModeration(status));
    var twice := UpdatePosts(once, postId, SetModeration(status));
    assert forall i :: 0 <= i < |posts| ==> twice[i] == once[i];
  }

  /** A MODERATION_UPDATED event sets the status of exactly the posts with its id and nothing else. */
  lemma ModerationTargetsOnly(posts: seq<Post>, postId: string, status: ModerationStatus)
    ensures var r := UpdatePosts(posts, postId, SetModeration(status));
      && |r| == |posts|
      && (forall i :: 0 <= i < |posts| && posts[i].id == postId ==>
            r[i].moderationStatus == status && r[i].(moderationStatus := posts[i].moderationStatus) == posts[i])
      && (forall i :: 0 <= i < |posts| && posts[i].id != postId ==> r[i] == posts[i])
  {
  }

  /** Unliking removes every like of the post, keeps the others in order, and never drives a count below 0. */
  lemma UnlikeEffect(likes: seq<Like>, posts: seq<Post>, postId: string)
    requires forall i :: 0 <= i < |posts| ==> posts[i].likeCount >= 0
    ensures var kept := Filter(likes, NotLikeOf(postId));
      && (forall l :: l in kept ==> l.postId != postId)
      && (forall i :: 0 <= i < |likes| && likes[i].postId != postId ==> likes[i] in kept)
      && IsSubsequence(kept, likes)
    ensures var r := UpdatePosts(posts, postId, Unliked);
      forall i :: 0 <= i < |r| ==> r[i].likeCount >= 0
  {
  }

  /** A like followed by an unlike of the same post restores the likes and the counts, when no like of it existed. */
  lemma LikeThenUnlikeRestores(likes: seq<Like>, posts: seq<Post>, postId: string, created: Like)
    requires forall i :: 0 <= i < |likes| ==> likes[i].postId != postId
    requires created.postId == postId
    requires forall i :: 0 <= i < |posts| ==> posts[i].likeCount >= 0
    ensures Filter(likes + [created], NotLikeOf(postId)) == likes
    ensures UpdatePosts(UpdatePosts(posts, postId, Liked), postId, Unliked) == posts
  {
    FilterAll(likes, NotLikeOf(postId));
    FilterDropsLast(likes, created, NotLikeOf(postId));
    var twice := UpdatePosts(UpdatePosts(posts, postId, Liked), postId, Unliked);
    assert forall i :: 0 <= i < |posts| ==> twice[i] == posts[i];
  }

  lemma {:induction false} FilterDropsLast<T>(s: seq<T>, x: T, p: T -> bool)
    requires !p(x)
    ensures Filter(s + [x], p) == Filter(s, p)
  {
    if s == [] {
      assert Filter([x], p) == Filter([x][1..], p);
    } else {
      assert (s + [x])[1..] == s[1..] + [x];
      FilterDropsLast(s[1..], x, p);
    }
  }

  // ---------------------------------------------------------------------
  // The stores

  class DataStore {
    var posts: seq<Post>
    var comments: seq<Comment>
    var likes: seq<Like>
    var isLoading: bool
    var error: Option<string>
    var subscription: Option<Subscription>
    var released: seq<Subscription>
    /** `import.meta.env.PUBLIC_DEMO_MODE === "true"`. */
    const demoMode: bool
    const demo: Demo.DemoService

    constructor (demoMode: bool, demo: Demo.DemoService)
      ensures this.demoMode == demoMode && this.demo == demo
      ensures posts == [] && comments == [] && likes == []
      ensures !isLoading && error == None && subscription == None && released == []
    {
      this.demoMode := demoMode;
      this.demo := demo;
      posts, comments, likes := [], [], [];
      isLoading, error := false, None;
      subscription, released := None, [];
    }

    /**
     * `loadFeed(feedId)`: in demo mode the demo posts are copied in; otherwise
     * `listFeed` is awaited, and its posts replace the store on success, while
     * on failure the error message is recorded and the posts are kept.
     */
    method LoadFeed(feedId: string, listFeed: Call<seq<Post>>)
      modifies this
      ensures demoMode ==> posts == demo.posts && error == None
      ensures !demoMode && listFeed.Resolved? ==> posts == listFeed.value && error == None
      ensures !demoMode && listFeed.Rejected? ==>
        posts == old(posts) && error == Some(MessageOf(listFeed.thrown, "Failed to load feed"))
      ensures !isLoading
      ensures comments == old(comments) && likes == old(likes)
      ensures subscription == old(subscription) && released == old(released)
    {
      isLoading := true;
      error := None;
      if demoMode {
        posts := demo.posts;
      } else {
        match listFeed
        case Resolved(fetched) =>
          posts := fetched;
        case Rejected(thrown) =>
          error := Some(MessageOf(thrown, "Failed to load feed"));
      }
      isLoading := false;
    }

    /**
     * `createPost(input)`: in demo mode the demo service creates the post (its
     * own store gets it, this one does not); otherwise the created post is put
     * ahead of the existing posts, or the error is recorded and rethrown.
     */
    method CreatePost(input: PostInput, created: Call<Post>, now: nat, nowIso: string) returns (result: Call<Post>)
      modifies this, demo
      ensures demoMode ==>
        && result == Resolved(Demo.NewDemoPost(input.caption, input.photoUrl, now, nowIso))
        && demo.posts == [result.value] + old(demo.posts)
        && demo.comments == old(demo.comments) && demo.likedIds == old(demo.likedIds)
        && posts == old(posts) && error == None
      ensures !demoMode ==> unchanged(demo) && result == created
      ensures !demoMode && created.Resolved? ==> posts == [created.value] + old(posts) && error == None
      ensures !demoMode && created.Rejected? ==>
        posts == old(posts) && error == Some(MessageOf(created.thrown, "Failed to create post"))
      ensures !isLoading
      ensures comments == old(comments) && likes == old(likes)
      ensures subscription == old(subscription) && released == old(released)
    {
      isLoading := true;
      error := None;
      if demoMode {
        var p := demo.CreatePost(input.caption, input.photoUrl, now, nowIso);
        result := Resolved(p);
      } else {
        match created
        case Resolved(p) =>
          var current := posts;
          posts := [p] + current;
          result := Resolved(p);
        case Rejected(thrown) =>
          error := Some(MessageOf(thrown, "Failed to create post"));
          result := Call.Rejected(thrown);
      }
      isLoading := false;
    }

    /**
     * `savePost(input)`: awaits the save-post mutation and returns its post id.
     * It never touches the posts: the new post arrives later through the feed.
     */
    method SavePost(input: PostInput, saved: Call<string>) returns (result: Call<string>)
      modifies this
      ensures result == saved
      ensures posts == old(posts)
      ensures saved.Resolved? ==> error == None
      ensures saved.Rejected? ==> error == Some(MessageOf(saved.thrown, "Failed to save post"))
      ensures !isLoading
      ensures comments == old(comments) && likes == old(likes)
      ensures subscription == old(subscription) && released == old(released)
    {
      isLoading := true;
      error := None;
      match saved {
        case Resolved(postId) =>
          result := Resolved(postId);
        case Rejected(thrown) =>
          error := Some(MessageOf(thrown, "Failed to save post"));
          result := Call.Rejected(thrown);
      }
      isLoading := false;
    }

    /** `loadComments(postId)`: the fetched comments replace the store; a failure is rethrown. */
    method LoadComments(postId: string, listComments: Call<seq<Comment>>) returns (result: Call<seq<Comment>>)
      modifies this
      ensures result == listComments
      ensures listComments.Resolved? ==> comments == listComments.value
      ensures listComments.Rejected? ==> comments == old(comments)
      ensures posts == old(posts) && likes == old(likes)
      ensures isLoading == old(isLoading) && error == old(error)
      ensures subscription == old(subscription) && released == old(released)
    {
      match listComments
      case Resolved(fetched) =>
        comments := fetched;
        result := Resolved(fetched);
      case Rejected(thrown) =>
        result := Call.Rejected(thrown);
    }

    /**
     * `addComment(postId, body)`: on success the new comment is appended and
     * the matching post's comment count goes up by one; on failure nothing changes.
     */
    method AddComment(postId: string, body: string, created: Call<Comment>) returns (result: Call<Comment>)
      modifies this
      ensures result == created
      ensures created.Resolved? ==>
        comments == old(comments) + [created.value] && posts == UpdatePosts(old(posts), postId, BumpCommentCount)
      ensures created.Rejected? ==> comments == old(comments) && posts == old(posts)
      ensures likes == old(likes) && isLoading == old(isLoading) && error == old(error)
      ensures subscription == old(subscription) && released == old(released)
    {
      match created
      case Resolved(c) =>
        var currentComments := comments;
        comments := currentComments + [c];
        var currentPosts := posts;
        posts := UpdatePosts(currentPosts, postId, BumpCommentCount);
        result := Resolved(c);
      case Rejected(thrown) =>
        result := Call.Rejected(thrown);
    }

    /**
     * `toggleLike(postId)`: when a like of the post exists, `deleteLike` is
     * awaited, then every like of the post is removed and its count lowered
     * (floored at 0); otherwise `createLike` is awaited, its like appended and
     * the count raised. If the awaited call fails, nothing changes.
     */
    method ToggleLike(postId: string, deleteLike: Outcome, createLike: Call<Like>) returns (result: Outcome)
      modifies this
      ensures var existed := exists i :: 0 <= i < |old(likes)| && old(likes)[i].postId == postId;
        && (existed && deleteLike.Done? ==>
              likes == Filter(old(likes), NotLikeOf(postId)) && posts == UpdatePosts(old(posts), postId, Unliked)
              && result == Done)
        && (existed && deleteLike.Failed? ==>
              likes == old(likes) && posts == old(posts) && result == deleteLike)
        && (!existed && createLike.Resolved? ==>
              likes == old(likes) + [createLike.value] && posts == UpdatePosts(old(posts), postId, Liked)
              && result == Done)
        && (!existed && createLike.Rejected? ==>
              likes == old(likes) && posts == old(posts) && result == Failed(createLike.thrown))
      ensures comments == old(comments) && isLoading == old(isLoading) && error == old(error)
      ensures subscription == old(subscription) && released == old(released)
    {
      var currentLikes := likes;
      var existing := FirstIndex(currentLikes, IsLikeOf(postId));
      if existing >= 0 {
        match deleteLike
        case Done =>
          likes := Filter(currentLikes, NotLikeOf(postId));
          var currentPosts := posts;
          posts := UpdatePosts(currentPosts, postId, Unliked);
          result := Done;
        case Failed(thrown) =>
          result := Failed(thrown);
      } else {
        match createLike
        case Resolved(l) =>
          likes := currentLikes + [l];
          var currentPosts := posts;
          posts := UpdatePosts(currentPosts, postId, Liked);
          result := Done;
        case Rejected(thrown) =>
          result := Failed(thrown);
      }
    }

    /** Calls `unsubscribe()` on the held handle, if any, and forgets it. */
    method UnsubscribeFromFeed()
      modifies this
      ensures subscription == None
      ensures released == old(released) + (if old(subscription).Some? then [old(subscription).value] else [])
      ensures posts == old(posts) && comments == old(comments) && likes == old(likes)
      ensures isLoading == old(isLoading) && error == old(error)
    {
      if subscription.Some? {
        released := released + [subscription.value];
        subscription := None;
      }
    }

    /** `subscribeToFeed(feedId)`: tears down the held subscription before installing the new one. */
    method SubscribeToFeed(feedId: string, newHandle: Subscription) returns (handle: Subscription)
      modifies this
      ensures handle == newHandle && subscription == Some(newHandle)
      ensures released == old(released) + (if old(subscription).Some? then [old(subscription).value] else [])
      ensures posts == old(posts) && comments == old(comments) && likes == old(likes)
      ensures isLoading == old(isLoading) && error == old(error)
    {
      if subscription.Some? {
        released := released + [subscription.value];
      }
      subscription := Some(newHandle);
      handle := newHandle;
    }

    /**
     * The subscription callback for one event of feed `feedId`: a post event
     * reloads the feed, a moderation event sets the status of the post with the
     * event's id, a comment event reloads that post's comments, and a like event
     * (or any other type, or a message without an event) changes nothing.
     */
    method HandleFeedEvent(feedId: string, event: Option<FeedEvent>, listFeed: Call<seq<Post>>,
                           listComments: Call<seq<Comment>>)
      modifies this
      ensures event.None? ==> posts == old(posts) && comments == old(comments) && error == old(error)
      ensures event.Some? && event.value.kind.ModerationUpdated? ==>
        posts == UpdatePosts(old(posts), event.value.postId, SetModeration(event.value.kind.status))
        && comments == old(comments) && error == old(error)
      ensures event.Some? && (event.value.kind.PostCreated? || event.value.kind.PostUpdated?) && !demoMode ==>
        comments == old(comments)
        && (listFeed.Resolved? ==> posts == listFeed.value && error == None)
        && (listFeed.Rejected? ==>
              posts == old(posts) && error == Some(MessageOf(listFeed.thrown, "Failed to load feed")))
      ensures event.Some? && (event.value.kind.PostCreated? || event.value.kind.PostUpdated?) && demoMode ==>
        comments == old(comments) && posts == demo.posts && error == None
      ensures event.Some? && event.value.kind.CommentCreated? ==>
        posts == old(posts) && error == old(error)
        && comments == (if listComments.Resolved? then listComments.value else old(comments))
      ensures event.Some? && (event.value.kind.LikeUpdated? || event.value.kind.OtherKind?) ==>
        posts == old(posts) && comments == old(comments) && error == old(error)
      ensures event.Some? && (event.value.kind.PostCreated? || event.value.kind.PostUpdated?) ==> !isLoading
      ensures event.None? || !(event.value.kind.PostCreated? || event.value.kind.PostUpdated?) ==>
        isLoading == old(isLoading)
      ensures likes == old(likes) && subscription == old(subscription) && released == old(released)
    {
      if event.Some? {
        var e := event.value;
        match e.kind
        case PostCreated =>
          LoadFeed(feedId, listFeed);
        case PostUpdated =>
          LoadFeed(feedId, listFeed);
        case ModerationUpdated(status) =>
          var currentPosts := posts;
          posts := UpdatePosts(currentPosts, e.postId, SetModeration(status));
        case CommentCreated =>
          var _ := LoadComments(e.postId, listComments);
        case LikeUpdated =>
        case OtherKind =>
      }
    }

    /** `cleanupData`: empties posts, comments and likes and unsubscribes. */
    method CleanupData()
      modifies this
      ensures posts == [] && comments == [] && likes == []
      ensures subscription == None
      ensures released == old(released) + (if old(subscription).Some? then [old(subscription).value] else [])
      ensures isLoading == old(isLoading) && error == old(error)
    {
      posts := [];
      comments := [];
      likes := [];
      UnsubscribeFromFeed();
    }
  }
}
