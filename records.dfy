/**
 * The Post, Comment and Like records of the data service (`services/dataService.ts`),
 * which the demo service's stores hold too, and the one update pattern both
 * services apply to a post list: `posts.map(post => post.id === postId ? {...} : post)`.
 */
module Records {
  import opened Shared
  import opened Seqs

  datatype Post = Post(
    id: string,
    caption: string,
    photoUrl: string,
    moderationStatus: ModerationStatus,
    likeCount: int,
    commentCount: int,
    createdAt: string,
    owner: string,
    feedId: string)

  datatype Comment = Comment(
    id: string,
    postId: string,
    owner: string,
    body: string,
    createdAt: string)

  datatype Like = Like(
    id: string,
    postId: string,
    owner: string,
    createdAt: string)

  /** `posts.map(post => post.id === postId ? f(post) : post)`. */
  function UpdatePosts(posts: seq<Post>, postId: string, f: Post -> Post): (r: seq<Post>)
    ensures |r| == |posts|
    ensures forall i :: 0 <= i < |posts| && posts[i].id != postId ==> r[i] == posts[i]
    ensures forall i :: 0 <= i < |posts| && posts[i].id == postId ==> r[i] == f(posts[i])
  {
    seq(|posts|, i requires 0 <= i < |posts| =>
      if posts[i].id == postId then f(posts[i]) else posts[i])
  }

  /** A by-id update whose id no post has changes nothing. */
  lemma UpdateAbsentId(posts: seq<Post>, postId: string, f: Post -> Post)
    requires forall i :: 0 <= i < |posts| ==> posts[i].id != postId
    ensures UpdatePosts(posts, postId, f) == posts
  {
  }

  function HasPostId(postId: string): Post -> bool {
    (p: Post) => p.id == postId
  }

  function BumpCommentCount(p: Post): Post {
    p.(commentCount := p.commentCount + 1)
  }

  /** The sum of the posts' comment counts. */
  function TotalCommentCount(posts: seq<Post>): int {
    if posts == [] then 0 else posts[0].commentCount + TotalCommentCount(posts[1..])
  }

  /** The comment-count bump adds one per post carrying the id: exactly one when ids are unique. */
  lemma {:induction false} CommentBumpTotal(posts: seq<Post>, postId: string)
    ensures TotalCommentCount(UpdatePosts(posts, postId, BumpCommentCount))
            == TotalCommentCount(posts) + Count(posts, HasPostId(postId))
  {
    if posts != [] {
      var r := UpdatePosts(posts, postId, BumpCommentCount);
      assert r[1..] == UpdatePosts(posts[1..], postId, BumpCommentCount);
      CommentBumpTotal(posts[1..], postId);
    }
  }
}
