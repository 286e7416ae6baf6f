/**
 * The demo feed store (`stores/feed.ts`): the `feedStore` atom of feed items,
 * the `feedFilterStore` atom, the computed pending-moderation count and
 * filtered feed, and the synchronous like / comment updates.
 *
 * `Date.now()` and `new Date().toISOString()`, used for a new comment's id
 * and timestamp, are parameters.
 */
module Feed {
  import opened Seqs
  import opened Text
  import opened Shared
  import Users

  datatype FeedComment = FeedComment(
    id: string,
    authorId: string,
    authorName: string,
    text: string,
    createdAt: string)

  datatype FeedItem = FeedItem(
    id: string,
    authorId: string,
    authorName: string,
    caption: string,
    imageUrl: string,
    likes: int,
    likedByViewer: bool,
    createdAt: string,
    moderationStatus: ModerationStatus,
    comments: seq<FeedComment>)

  datatype FeedFilter = Global | Following

  /** The mock signed-in user whose follow list the "following" filter uses. */
  const CurrentUserId: string := "user-2"

  function IsPending(item: FeedItem): bool {
    item.moderationStatus == Pending
  }

  /** The computed `pendingModeration` store: the number of PENDING items. */
  function PendingModeration(items: seq<FeedItem>): (n: nat)
    ensures n == Count(items, IsPending)
    ensures n <= |items|
  {
    |Filter(items, IsPending)|
  }

  function ByAuthor(authorId: string): FeedItem -> bool {
    (item: FeedItem) => item.authorId == authorId
  }

  /** `getPostsByAuthor`: the items of one author, in feed order. */
  function GetPostsByAuthor(items: seq<FeedItem>, authorId: string): (r: seq<FeedItem>)
    ensures IsSubsequence(r, items)
    ensures forall x :: x in r ==> x.authorId == authorId
    ensures forall i :: 0 <= i < |items| && items[i].authorId == authorId ==> items[i] in r
    ensures |r| == Count(items, ByAuthor(authorId))
  {
    Filter(items, ByAuthor(authorId))
  }

  // ---------------------------------------------------------------------
  // toggleLike

  /** The item with its like flipped: one like fewer if the viewer had liked it, one more otherwise. */
  function FlipLike(item: FeedItem): (r: FeedItem)
    ensures r.likedByViewer == !item.likedByViewer
    ensures r.likes == if item.likedByViewer then item.likes - 1 else item.likes + 1
    ensures r.(likedByViewer := item.likedByViewer, likes := item.likes) == item
  {
    item.(likedByViewer := !item.likedByViewer,
          likes := item.likes + (if item.likedByViewer then -1 else 1))
  }

  /** The feed after `toggleLike(id)`: every item with that id has its like flipped. */
  function WithLikeToggled(items: seq<FeedItem>, id: string): (r: seq<FeedItem>)
    ensures |r| == |items|
    ensures forall i :: 0 <= i < |items| ==> r[i].id == items[i].id
    ensures forall i :: 0 <= i < |items| && items[i].id != id ==> r[i] == items[i]
    ensures forall i :: 0 <= i < |items| && items[i].id == id ==> r[i] == FlipLike(items[i])
  {
    seq(|items|, i requires 0 <= i < |items| =>
      if items[i].id == id then FlipLike(items[i]) else items[i])
  }

  /** Toggling the like of the same item twice restores the feed. */
  lemma ToggleLikeInvolution(items: seq<FeedItem>, id: string)
    ensures WithLikeToggled(WithLikeToggled(items, id), id) == items
  {
    var twice := WithLikeToggled(WithLikeToggled(items, id), id);
    assert forall i :: 0 <= i < |items| ==> twice[i] == items[i];
  }

  /** The scenario of the feed component's test: 0 likes, then 1, then 0 again. */
  lemma ToggleLikeCountsUpThenDown(item: FeedItem)
    requires item.likes == 0 && !item.likedByViewer
    ensures var once := WithLikeToggled([item], item.id);
      once[0].likes == 1 && once[0].likedByViewer
      && WithLikeToggled(once, item.id)[0].likes == 0
  {
  }

  // ---------------------------------------------------------------------
  // addComment

  /** The comment `addComment` appends: authored by "viewer" ("You"), with the trimmed text. */
  function ViewerComment(text: string, now: nat, createdAt: string): (c: FeedComment)
    ensures Prefixed(c.id, "comment-", Decimal(now))
    ensures c.authorId == "viewer" && c.authorName == "You" && c.text == Trim(text) && c.createdAt == createdAt
  {
    FeedComment("comment-" + Decimal(now), "viewer", "You", Trim(text), createdAt)
  }

  /**
   * The feed after `addComment(id, text)`: unchanged for blank text, else the
   * viewer's comment is appended to the comments of every item with that id.
   */
  function WithComment(items: seq<FeedItem>, id: string, text: string, now: nat, createdAt: string): (r: seq<FeedItem>)
    ensures IsBlank(text) ==> r == items
    ensures |r| == |items|
    ensures forall i :: 0 <= i < |items| ==> r[i].id == items[i].id
    ensures forall i :: 0 <= i < |items| && items[i].id != id ==> r[i] == items[i]
    ensures !IsBlank(text) ==> forall i :: 0 <= i < |items| && items[i].id == id ==>
      && r[i].comments == items[i].comments + [ViewerComment(text, now, createdAt)]
      && r[i].(comments := items[i].comments) == items[i]
  {
    if IsBlank(text) then items
    else
      var c := ViewerComment(text, now, createdAt);
      seq(|items|, i requires 0 <= i < |items| =>
        if items[i].id == id then items[i].(comments := items[i].comments + [c]) else items[i])
  }

  /** The appended comment's text is non-empty and carries no surrounding white space. */
  lemma CommentTextTrimmed(text: string, now: nat, createdAt: string)
    requires !IsBlank(text)
    ensures var t := ViewerComment(text, now, createdAt).text;
      t != [] && !IsWhitespace(t[0]) && !IsWhitespace(t[|t| - 1])
  {
  }

  // ---------------------------------------------------------------------
  // filteredFeedStore and searchPosts

  /** An author the current user follows and whose profile exists (`getFollowingUsers` drops unknown ids). */
  predicate FollowedAuthor(users: seq<Users.UserProfile>, authorId: string) {
    Users.IsFollowing(users, CurrentUserId, authorId) && Users.IndexOfUser(users, authorId) >= 0
  }

  function FromFollowed(followedIds: seq<string>): FeedItem -> bool {
    (item: FeedItem) => item.authorId in followedIds
  }

  function ByFollowedAuthor(users: seq<Users.UserProfile>): FeedItem -> bool {
    (item: FeedItem) => FollowedAuthor(users, item.authorId)
  }

  /** The computed `filteredFeedStore`. */
  function FilteredFeed(items: seq<FeedItem>, filter: FeedFilter, users: seq<Users.UserProfile>): (r: seq<FeedItem>)
    ensures filter == Global ==> r == items
    ensures filter == Following ==>
      && IsSubsequence(r, items)
      && (forall x :: x in r ==> FollowedAuthor(users, x.authorId))
      && (forall i :: 0 <= i < |items| && FollowedAuthor(users, items[i].authorId) ==> items[i] in r)
      && |r| == Count(items, ByFollowedAuthor(users))
  {
    match filter
    case Global => items
    case Following =>
      var followedIds := Users.IdsOf(Users.GetFollowingUsers(users, CurrentUserId));
      FollowedIdsExact(users, followedIds);
      CountAgree(items, FromFollowed(followedIds), ByFollowedAuthor(users));
      Filter(items, FromFollowed(followedIds))
  }

  /** The ids `getFollowingUsers(currentUserId)` yields are exactly the followed authors. */
  lemma FollowedIdsExact(users: seq<Users.UserProfile>, followedIds: seq<string>)
    requires followedIds == Users.IdsOf(Users.GetFollowingUsers(users, CurrentUserId))
    ensures forall a :: a in followedIds <==> FollowedAuthor(users, a)
  {
    var me := Users.IndexOfUser(users, CurrentUserId);
    if me >= 0 {
      var known := Users.IsKnown(users);
      assert followedIds == Filter(users[me].followingIds, known);
      forall a ensures a in followedIds <==> FollowedAuthor(users, a) {
        if a in users[me].followingIds && known(a) {
          var k :| 0 <= k < |users[me].followingIds| && users[me].followingIds[k] == a;
          assert users[me].followingIds[k] in followedIds;
        }
      }
    }
  }

  /** The caption or author name contains the lower-cased query, ignoring (ASCII) case. */
  predicate PostMatches(item: FeedItem, query: string) {
    var q := Lower(query);
    Contains(Lower(item.caption), q) || Contains(Lower(item.authorName), q)
  }

  function PostQuery(query: string): FeedItem -> bool {
    (item: FeedItem) => PostMatches(item, query)
  }

  /** `searchPosts`: the whole feed for a blank query, else the matching items in feed order. */
  function SearchPosts(items: seq<FeedItem>, query: string): (r: seq<FeedItem>)
    ensures IsBlank(query) ==> r == items
    ensures !IsBlank(query) ==>
      && IsSubsequence(r, items)
      && (forall x :: x in r ==> PostMatches(x, query))
      && (forall i :: 0 <= i < |items| && PostMatches(items[i], query) ==> items[i] in r)
      && |r| == Count(items, PostQuery(query))
  {
    if IsBlank(query) then items else Filter(items, PostQuery(query))
  }

  // ---------------------------------------------------------------------
  // The store

  /** The `feedStore` and `feedFilterStore` atoms. */
  class FeedStore {
    var items: seq<FeedItem>
    var filter: FeedFilter

    constructor ()
      ensures items == [] && filter == Global
    {
      items := [];
      filter := Global;
    }

    method ToggleLike(id: string)
      modifies this
      ensures items == WithLikeToggled(old(items), id) && filter == old(filter)
    {
      items := WithLikeToggled(items, id);
    }

    method AddComment(id: string, text: string, now: nat, createdAt: string)
      modifies this
      ensures items == WithComment(old(items), id, text, now, createdAt) && filter == old(filter)
    {
      var trimmed := Trim(text);
      if trimmed == [] {
        return;
      }
      items := WithComment(items, id, text, now, createdAt);
    }

    method SetFeedFilter(f: FeedFilter)
      modifies this
      ensures filter == f && items == old(items)
    {
      filter := f;
    }
  }
}
