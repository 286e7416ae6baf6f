/**
 * The analytics service (`services/analyticsService.ts`): the integer parts
 * of the dashboard metrics, the top posts by engagement, the recent-activity
 * list and the real-time pending count, all computed from the feed and the
 * user directory.
 *
 * `getTopPosts` sorts the feed store's own array in place: the model copies
 * the store's items into an `array`, sorts that, and stores the result back.
 * `Math.random()` picks are parameters.
 */
module Analytics {
  import opened Seqs
  import opened Text
  import opened Shared
  import opened Feed
  import Users

  // ---------------------------------------------------------------------
  // calculateAnalyticsMetrics

  /**
   * `feed.reduce((sum, post) => sum + post.likes, 0)`, folded from the first
   * post as `reduce` does. With no negative like count the total is
   * non-negative, and it is 0 exactly when no post has a like.
   */
  function TotalLikes(feed: seq<FeedItem>): (r: int)
    ensures (forall i :: 0 <= i < |feed| ==> feed[i].likes >= 0) ==>
      r >= 0 && (r == 0 <==> forall i :: 0 <= i < |feed| ==> feed[i].likes == 0)
  {
    if feed == [] then 0 else TotalLikes(feed[..|feed| - 1]) + feed[|feed| - 1].likes
  }

  /**
   * `feed.reduce((sum, post) => sum + post.comments.length, 0)`: 0 exactly
   * when no post has a comment, and at least the comments of any one post.
   */
  function TotalComments(feed: seq<FeedItem>): (r: nat)
    ensures r == 0 <==> forall i :: 0 <= i < |feed| ==> feed[i].comments == []
    ensures forall i :: 0 <= i < |feed| ==> |feed[i].comments| <= r
  {
    if feed == [] then 0 else TotalComments(feed[..|feed| - 1]) + |feed[|feed| - 1].comments|
  }

  /** The totals add up over a split of the feed. */
  lemma {:induction false} TotalsAppend(a: seq<FeedItem>, b: seq<FeedItem>)
    ensures TotalLikes(a + b) == TotalLikes(a) + TotalLikes(b)
    ensures TotalComments(a + b) == TotalComments(a) + TotalComments(b)
  {
    if b == [] {
      assert a + b == a;
    } else {
      assert (a + b)[..|a + b| - 1] == a + b[..|b| - 1];
      TotalsAppend(a, b[..|b| - 1]);
    }
  }

  /** The total of a single post is its own count. */
  lemma TotalsSingle(item: FeedItem)
    ensures TotalLikes([item]) == item.likes && TotalComments([item]) == |item.comments|
  {
    assert [item][..0] == [];
  }

  /** Liking a post the viewer had not liked raises the total likes by one, and unliking lowers it by one. */
  lemma {:induction false} ToggleLikeMovesTotal(feed: seq<FeedItem>, k: nat)
    requires k < |feed|
    requires forall i :: 0 <= i < |feed| && i != k ==> feed[i].id != feed[k].id
    ensures TotalLikes(WithLikeToggled(feed, feed[k].id))
            == TotalLikes(feed) + (if feed[k].likedByViewer then -1 else 1)
    ensures TotalComments(WithLikeToggled(feed, feed[k].id)) == TotalComments(feed)
  {
    var id := feed[k].id;
    var r := WithLikeToggled(feed, id);
    assert feed == feed[..k] + [feed[k]] + feed[k + 1..];
    assert r == r[..k] + [r[k]] + r[k + 1..];
    assert r[..k] == feed[..k];
    assert r[k + 1..] == feed[k + 1..];
    TotalsAppend(feed[..k] + [feed[k]], feed[k + 1..]);
    TotalsAppend(feed[..k], [feed[k]]);
    TotalsAppend(r[..k] + [r[k]], r[k + 1..]);
    TotalsAppend(r[..k], [r[k]]);
    TotalsSingle(feed[k]);
    TotalsSingle(r[k]);
  }

  /** A non-blank comment on a post adds exactly one to the total comments. */
  lemma {:induction false} CommentRaisesTotal(feed: seq<FeedItem>, k: nat, text: string, now: nat, createdAt: string)
    requires k < |feed| && !IsBlank(text)
    requires forall i :: 0 <= i < |feed| && i != k ==> feed[i].id != feed[k].id
    ensures TotalComments(WithComment(feed, feed[k].id, text, now, createdAt)) == TotalComments(feed) + 1
    ensures TotalLikes(WithComment(feed, feed[k].id, text, now, createdAt)) == TotalLikes(feed)
  {
    var id := feed[k].id;
    var r := WithComment(feed, id, text, now, createdAt);
    assert feed == feed[..k] + [feed[k]] + feed[k + 1..];
    assert r == r[..k] + [r[k]] + r[k + 1..];
    assert r[..k] == feed[..k];
    assert r[k + 1..] == feed[k + 1..];
    TotalsAppend(feed[..k] + [feed[k]], feed[k + 1..]);
    TotalsAppend(feed[..k], [feed[k]]);
    TotalsAppend(r[..k] + [r[k]], r[k + 1..]);
    TotalsAppend(r[..k], [r[k]]);
    TotalsSingle(feed[k]);
    TotalsSingle(r[k]);
  }

  datatype Trend = Up | Down | Neutral

  /** The moderation-queue tile's change figure, `Math.max(0, pending - 18)`. */
  function QueueChange(pending: nat): (c: nat)
    ensures c == 0 <==> pending <= 18
    ensures c > 0 ==> pending == 18 + c
  {
    if pending < 18 then 0 else pending - 18
  }

  /** The moderation-queue tile's trend. */
  function QueueTrend(pending: nat): (t: Trend)
    ensures t != Down
    ensures t == Up <==> pending > 20
  {
    if pending > 20 then Up else Neutral
  }

  /** An upward trend always comes with a change of at least 3. */
  lemma UpTrendHasChange(pending: nat)
    requires QueueTrend(pending) == Up
    ensures QueueChange(pending) >= 3
  {
  }

  /** The integer figures behind the dashboard tiles (their localised rendering is not modelled). */
  datatype Metrics = Metrics(
    totalUsers: nat,
    activePosts: nat,
    totalLikes: int,
    totalComments: nat,
    pendingModeration: nat,
    queueChange: string,
    queueTrend: Trend)

  /** `calculateAnalyticsMetrics`, its integer parts. */
  function CalculateMetrics(feed: seq<FeedItem>, users: seq<Users.UserProfile>): (m: Metrics)
    ensures m.totalUsers == |users| && m.activePosts == |feed|
    ensures m.totalLikes == TotalLikes(feed) && m.totalComments == TotalComments(feed)
    ensures m.pendingModeration == Count(feed, IsPending) && m.pendingModeration <= m.activePosts
    ensures m.queueChange == "+" + Decimal(QueueChange(m.pendingModeration))
    ensures m.queueTrend == Up <==> m.pendingModeration > 20
    ensures m.queueTrend == Neutral <==> m.pendingModeration <= 20
  {
    var pending := |Filter(feed, IsPending)|;
    Metrics(|users|, |feed|, TotalLikes(feed), TotalComments(feed), pending,
            "+" + Decimal(QueueChange(pending)), QueueTrend(pending))
  }

  /** The moderation queue on the dashboard is the feed's own pending count. */
  lemma MetricsPendingIsFeedPending(feed: seq<FeedItem>, users: seq<Users.UserProfile>)
    ensures CalculateMetrics(feed, users).pendingModeration == PendingModeration(feed)
  {
  }

  // ---------------------------------------------------------------------
  // getTopPosts

  /** A post's engagement: likes plus comments. */
  function Engagement(item: FeedItem): int {
    item.likes + |item.comments|
  }

  /** Non-increasing engagement. */
  ghost predicate ByEngagement(s: seq<FeedItem>) {
    forall p, q :: 0 <= p < q < |s| ==> Engagement(s[p]) >= Engagement(s[q])
  }

  /** A caption longer than 50 characters is cut to 50 and marked with "...". */
  function ShortCaption(caption: string): (r: string)
    ensures |caption| <= 50 ==> r == caption
    ensures |caption| > 50 ==> |r| == 53 && r[..50] == caption[..50] && r[50..] == "..."
  {
    if |caption| > 50 then caption[..50] + "..." else caption
  }

  /** The top-post card; its engagement percentage string is not modelled. */
  datatype TopPost = TopPost(id: string, caption: string, author: string, likes: int, comments: nat)

  function ToTopPost(item: FeedItem): (t: TopPost)
    ensures t.id == item.id && t.author == item.authorName && t.likes == item.likes
    ensures t.comments == |item.comments| && t.caption == ShortCaption(item.caption)
  {
    TopPost(item.id, ShortCaption(item.caption), item.authorName, item.likes, |item.comments|)
  }

  /**
   * `getTopPosts`: sorts the feed store's array in place, most engaging
   * first, and returns the cards of its first three posts. The store keeps
   * the sorted order afterwards.
   */
  method GetTopPosts(store: FeedStore) returns (top: seq<TopPost>)
    modifies store
    ensures ByEngagement(store.items)
    ensures multiset(store.items) == multiset(old(store.items))
    ensures store.filter == old(store.filter)
    ensures |top| == Min3(|store.items|)
    ensures forall i :: 0 <= i < |top| ==> top[i] == ToTopPost(store.items[i])
  {
    var items := store.items;
    var feed := new FeedItem[|items|](i requires 0 <= i < |items| => items[i]);
    assert feed[..] == items;
    SortByEngagement(feed);
    store.items := feed[..];
    top := TopCards(store.items[..Min3(|store.items|)]);
  }

  /** `.map(...)` of the top-post card over a slice of posts. */
  function TopCards(posts: seq<FeedItem>): (r: seq<TopPost>)
    ensures |r| == |posts|
    ensures forall i :: 0 <= i < |posts| ==> r[i] == ToTopPost(posts[i])
  {
    seq(|posts|, i requires 0 <= i < |posts| => ToTopPost(posts[i]))
  }

  function Min3(n: nat): (r: nat)
    ensures r <= 3 && r <= n && (r == 3 || r == n)
  {
    if n < 3 then n else 3
  }

  /** Insertion sort on engagement, most engaging first (ties in either order). */
  method SortByEngagement(a: array<FeedItem>)
    modifies a
    ensures ByEngagement(a[..])
    ensures multiset(a[..]) == multiset(old(a[..]))
  {
    if a.Length == 0 {
      return;
    }
    for i := 1 to a.Length
      invariant ByEngagement(a[..i])
      invariant multiset(a[..]) == multiset(old(a[..]))
    {
      InsertAt(a, i);
    }
    assert a[..a.Length] == a[..];
  }

  /** Apart from the post at `j`, the prefix `s[..i+1]` is sorted. */
  ghost predicate SortedExcept(s: seq<FeedItem>, i: nat, j: nat)
    requires i < |s|
  {
    forall p, q :: 0 <= p < q <= i && p != j && q != j ==> Engagement(s[p]) >= Engagement(s[q])
  }

  /** The post at `j` is more engaging than every post after it up to `i`. */
  ghost predicate AboveRest(s: seq<FeedItem>, i: nat, j: nat)
    requires j <= i < |s|
  {
    forall q :: j < q <= i ==> Engagement(s[q]) < Engagement(s[j])
  }

  /** Swapping the post at `j` with a less engaging left neighbour moves the gap one step left. */
  lemma SwapLeft(s: seq<FeedItem>, i: nat, j: nat)
    requires 0 < j <= i < |s|
    requires SortedExcept(s, i, j) && AboveRest(s, i, j)
    requires Engagement(s[j - 1]) < Engagement(s[j])
    ensures var t := s[j - 1 := s[j]][j := s[j - 1]];
      SortedExcept(t, i, j - 1) && AboveRest(t, i, j - 1) && multiset(t) == multiset(s)
  {
    var t := s[j - 1 := s[j]][j := s[j - 1]];
    forall p, q | 0 <= p < q <= i && p != j - 1 && q != j - 1
      ensures Engagement(t[p]) >= Engagement(t[q])
    {
      if q == j {
        assert t[q] == s[j - 1];
        if p < j - 1 {
          assert Engagement(s[p]) >= Engagement(s[j - 1]);
        }
      } else if p == j {
        assert Engagement(s[j - 1]) < Engagement(s[j]);
      }
    }
  }

  /** Once the post at `j` is no more engaging than its left neighbour, the prefix is sorted. */
  lemma SettledSorted(s: seq<FeedItem>, i: nat, j: nat)
    requires j <= i < |s|
    requires SortedExcept(s, i, j) && AboveRest(s, i, j)
    requires j == 0 || Engagement(s[j - 1]) >= Engagement(s[j])
    ensures ByEngagement(s[..i + 1])
  {
    forall p, q | 0 <= p < q < i + 1 ensures Engagement(s[p]) >= Engagement(s[q]) {
      if q == j && p < j - 1 {
        assert Engagement(s[p]) >= Engagement(s[j - 1]);
      }
    }
  }

  /** Moves `a[i]` left past every less engaging post, so that `a[..i+1]` is sorted. */
  method InsertAt(a: array<FeedItem>, i: nat)
    requires 0 < i < a.Length
    requires ByEngagement(a[..i])
    modifies a
    ensures ByEngagement(a[..i + 1])
    ensures multiset(a[..]) == multiset(old(a[..]))
    ensures a[i + 1..] == old(a[i + 1..])
  {
    var j := i;
    while j > 0 && Engagement(a[j - 1]) < Engagement(a[j])
      invariant 0 <= j <= i
      invariant SortedExcept(a[..], i, j) && AboveRest(a[..], i, j)
      invariant multiset(a[..]) == multiset(old(a[..]))
      invariant a[i + 1..] == old(a[i + 1..])
    {
      ghost var s := a[..];
      a[j - 1], a[j] := a[j], a[j - 1];
      assert a[..] == s[j - 1 := s[j]][j := s[j - 1]];
      SwapLeft(s, i, j);
      j := j - 1;
    }
    SettledSorted(a[..], i, j);
  }

  // ---------------------------------------------------------------------
  // getRecentActivity

  datatype ActivityEvent = ActivityEvent(time: string, action: string, user: string)

  /** `users[pick]?.displayName || "Unknown User"`. */
  function PickedName(users: seq<Users.UserProfile>, pick: nat): (name: string)
    ensures pick < |users| && users[pick].displayName != "" ==> name == users[pick].displayName
    ensures pick >= |users| || users[pick].displayName == "" ==> name == "Unknown User"
  {
    if pick < |users| && users[pick].displayName != "" then users[pick].displayName else "Unknown User"
  }

  function PostActivity(index: nat, item: FeedItem): ActivityEvent {
    ActivityEvent(Decimal((index + 1) * 5) + "m ago", "New post created", item.authorName)
  }

  /**
   * `getRecentActivity`: one "New post created" event per post among the first
   * three, then a comment event and a follow event naming randomly picked
   * users (`pick1` and `pick2` are the `Math.floor(Math.random() * users.length)`
   * draws). It never holds more than 5 events, so the final `slice(0, 5)` keeps
   * them all.
   */
  method GetRecentActivity(feed: seq<FeedItem>, users: seq<Users.UserProfile>, pick1: nat, pick2: nat)
    returns (activities: seq<ActivityEvent>)
    requires users == [] || (pick1 < |users| && pick2 < |users|)
    ensures |activities| == Min3(|feed|) + 2 && |activities| <= 5
    ensures forall i :: 0 <= i < Min3(|feed|) ==> activities[i] == PostActivity(i, feed[i])
    ensures activities[Min3(|feed|)] == ActivityEvent("12m ago", "New comment on post", PickedName(users, pick1))
    ensures activities[Min3(|feed|) + 1] == ActivityEvent("18m ago", "User followed", PickedName(users, pick2))
  {
    activities := [];
    var recent := feed[..Min3(|feed|)];
    for index := 0 to |recent|
      invariant |activities| == index
      invariant forall i :: 0 <= i < index ==> activities[i] == PostActivity(i, feed[i])
    {
      activities := activities + [PostActivity(index, recent[index])];
    }
    activities := activities + [
      ActivityEvent("12m ago", "New comment on post", PickedName(users, pick1)),
      ActivityEvent("18m ago", "User followed", PickedName(users, pick2))];
    activities := activities[..Min(5, |activities|)];
  }

  /** The post events come with times 5m, 10m and 15m ago. */
  lemma PostActivityTimes(feed: seq<FeedItem>)
    requires |feed| >= 3
    ensures PostActivity(0, feed[0]).time == "5m ago"
    ensures PostActivity(1, feed[1]).time == "10m ago"
    ensures PostActivity(2, feed[2]).time == "15m ago"
  {
    assert Decimal(5) == "5";
    assert Decimal(10) == Decimal(1) + ['0'];
    assert Decimal(15) == Decimal(1) + ['5'];
  }

  // ---------------------------------------------------------------------
  // getRealtimeMetrics

  /** `getRealtimeMetrics().pendingModeration`; the other, random figures are not modelled. */
  function RealtimePending(feed: seq<FeedItem>): (n: nat)
    ensures n == Count(feed, IsPending)
    ensures n == PendingModeration(feed)
  {
    |Filter(feed, IsPending)|
  }
}
