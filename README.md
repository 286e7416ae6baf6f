# social-app core, modelled in Dafny

This project models the client-side core of a small photo-sharing app. The
app is an Astro and React front end backed by AWS Amplify (AppSync GraphQL, S3
and Cognito), with a demo mode that runs without a backend. The model covers:

- the shared library's DynamoDB key builders (`Shared`);
- the user directory and its follow graph (`Users`);
- the demo feed store with likes, comments, filters and search (`Feed`);
- the notification and chat stores (`Notifications`, `Chat`);
- the data service, whose stores change around one awaited backend call per
  operation, and its feed subscription (`DataService`);
- the demo service's in-memory stores (`Demo`);
- the real-time service's event history (`Realtime`);
- the analytics dashboard figures (`Analytics`);
- environment detection, configuration and validation (`Environment`).

Each nanostores atom the source mutates is a field of a `class`, one class per
source module. Its methods state the new value of every field. The value the
store takes is given by a pure function, and the lemmas are stated about that
function. Computed stores and read-only helpers are functions.

A few modules are support code:

- `Seqs` holds `Array.prototype.filter` with its characterisation (an order-preserving
  subsequence holding exactly the matching elements) and the counts built on it.
- `Text` holds the string operations the source uses: `trim`, ASCII
  `toLowerCase`, `includes`, `replace` with a string pattern, `join` and
  decimal rendering.
- `Calls` holds the outcome of a call into the backend (awaited, or for
  opening a subscription, synchronous): it yields a value, or it throws an
  `Error` object or some other value.
- `Records` holds the Post, Comment and Like records and the by-id post update
  that both services use.

These effects are parameters of the model:

- the backend (GraphQL queries, mutations and subscriptions), passed as the
  outcome of each awaited call;
- `Date.now()` and `toISOString()`;
- the `Math.random()` picks;
- `window.location`, passed as an optional location;
- the `import.meta.env` variables, where an empty string means unset;
- URL parsing (`isValidUrl`), passed as a predicate.

Notes on the source:

- `savePost` (`services/dataService.ts:102-126`) only awaits the mutation and
  returns the id. It never inserts into `postsStore` and has no rollback. The
  data-service unit test describes an optimistic insert; the model follows the
  code.
- `connectToFeed` (`services/realtimeService.ts:22-55`) calls `unsubscribe()` on
  the held handle before opening the new subscription. It clears the stored
  handle only on success, so after a failed attempt it still holds the
  released handle. `RealtimeService.ConnectToFeed` states this: a later
  `Disconnect` unsubscribes that handle a second time.
- `unfollowUser` (`stores/users.ts:63-84`) has no self check, unlike
  `followUser`. When both ids are the same, the second splice acts on the
  profile the first one already changed. `Users.Unfollowed` models that order.
- Demo ids embed `Date.now()`, so two demo posts created in the same
  millisecond get the same id. The model takes the clock as a parameter and
  does not assume ids are unique. The lemmas about counts that need unique
  ids say so in their `requires`.

## Model

| member | source | states |
|---|---|---|
| Shared.PkUser | libs/shared/src/index.ts:38 | the user partition key is "USER#" followed by the id unchanged |
| Shared.PkPost | libs/shared/src/index.ts:39 | the post partition key is "POST#" followed by the id unchanged |
| Shared.PkComment | libs/shared/src/index.ts:40 | a comment lives in its post's partition: the key equals the post key |
| Shared.PkFeed | libs/shared/src/index.ts:41 | the feed partition key is "FEED#" followed by the feed id |
| Shared.SkComment | libs/shared/src/index.ts:47 | the comment sort key is "COMMENT#" followed by the comment id |
| Shared.SkLike | libs/shared/src/index.ts:48 | the like sort key is "LIKE#" followed by the user id |
| Shared.KeyExamples | libs/shared/src/__tests__/index.test.ts:5-9 | the keys the unit test expects: "POST#123", "POST", "COMMENT#c-1" |
| Shared.BuildersInjective | libs/shared/src/index.ts:37-49 | every parameterised key builder is injective, so the argument can be recovered from the key |
| Shared.PartitionKeysDisjoint | libs/shared/src/index.ts:37-42 | user, post and feed partition keys never collide, whatever the ids |
| Shared.SortKeysDisjoint | libs/shared/src/index.ts:44-49 | the profile, post, comment and like sort keys are pairwise distinct |
| Users.IndexOfUser | apps/web/src/stores/users.ts:25 | `users.find` by id: -1 exactly when no profile has the id, else the first index holding it |
| Users.FindUser | apps/web/src/stores/users.ts:25 | none exactly when no profile has the id; otherwise the first listed profile with that id |
| Users.SameIdsSameIndex | apps/web/src/stores/users.ts:44-45 | updates that keep every id in place keep every lookup result |
| Users.FindUserByUsername | apps/web/src/stores/users.ts:18-19 | the first profile whose username equals the query ignoring case, and none exactly when there is no such profile |
| Users.IsAdmin | apps/web/src/stores/users.ts:24-27 | true exactly when the first profile with the id has the admin role |
| Users.GetAdmins | apps/web/src/stores/users.ts:34 | exactly the admin profiles, in directory order, as many as the directory has admins |
| Users.IsFollowing | apps/web/src/stores/users.ts:37-40 | true exactly when the first profile with the follower id lists the target id; false when no profile has the follower id |
| Users.Followed | apps/web/src/stores/users.ts:42-61 | the follow changes nothing when a profile is missing or the ids are equal; otherwise the follower's profile becomes `AddFollowing` of it and the target's `AddFollower` of it, and no other profile changes |
| Users.AddFollowing | apps/web/src/stores/users.ts:49-52 | the target id is in the new following list, the old list is kept as its prefix, at most one id is added, the counter moves with the list, and no other field changes |
| Users.AddFollower | apps/web/src/stores/users.ts:55-58 | the follower id is in the new follower list, the old list is kept as its prefix, at most one id is added, the counter moves with the list, and no other field changes |
| Users.FollowOnlyAdds | apps/web/src/stores/users.ts:42-61 | a follow keeps every old list as a prefix, adds only the target to the follower's following list and only the follower to the target's follower list, and changes no other field |
| Users.FollowEstablishes | apps/web/src/stores/users.ts:49-58 | after a permitted follow, the follower follows the target and is on the target's follower list |
| Users.FollowIdempotent | apps/web/src/stores/users.ts:49-58 | following twice leaves the directory as after one follow |
| Users.FollowPreservesConsistency | apps/web/src/stores/users.ts:49-58 | a follow keeps every counter equal to the length of its list, with no repeated id |
| Users.RemoveFirst | apps/web/src/stores/users.ts:70-74 | `splice(indexOf(x), 1)`: an absent `x` leaves the list as it is; otherwise exactly the first occurrence is cut out, the rest kept in order; with distinct ids `x` is gone and all others are kept |
| Users.Max0 | apps/web/src/stores/users.ts:73 | `Math.max(0, n)` is non-negative and is either 0 or `n` |
| Users.Unfollowed | apps/web/src/stores/users.ts:63-84 | an unfollow changes nothing when a profile is missing; otherwise the follower's profile becomes `DropFollowing` of it and the target's `DropFollower` of it (both on one profile when the ids are equal), and no other profile changes |
| Users.DropFollowing | apps/web/src/stores/users.ts:70-74 | an absent target leaves the profile as it is; otherwise one entry leaves the following list, the rest stay in order, the counter drops by one but not below zero, and no other field changes |
| Users.DropFollower | apps/web/src/stores/users.ts:76-81 | an absent follower leaves the profile as it is; otherwise one entry leaves the follower list, the rest stay in order, the counter drops by one but not below zero, and no other field changes |
| Users.UnfollowOnlyRemoves | apps/web/src/stores/users.ts:63-84 | every new list is a subsequence of the old one, every id other than the removed one stays, and no other field changes |
| Users.UnfollowEstablishes | apps/web/src/stores/users.ts:70-81 | after an unfollow of distinct-id lists, the follower no longer follows the target and is off its follower list |
| Users.DropKeepsConsistency | apps/web/src/stores/users.ts:70-81 | removing an id from either list keeps that profile's counters equal to its list lengths |
| Users.UnfollowPreservesConsistency | apps/web/src/stores/users.ts:63-84 | an unfollow keeps the directory consistent and every counter non-negative |
| Users.ResolveIds | apps/web/src/stores/users.ts:90-91 | the known profiles for the ids, in list order, dropping unknown ids; each is the directory's own profile |
| Users.GetFollowingUsers | apps/web/src/stores/users.ts:86-92 | empty for an unknown user; else the profiles the user follows, in list order |
| Users.GetFollowerUsers | apps/web/src/stores/users.ts:94-100 | empty for an unknown user; else the user's followers' profiles, in list order |
| Users.SearchUsers | apps/web/src/stores/users.ts:103-113 | all users for a blank query; else exactly the profiles whose name, username or bio contains the query ignoring case, in order |
| Users.UserDirectory.FollowUser | apps/web/src/stores/users.ts:42-61 | returns whether both profiles exist and differ, and leaves the directory as `Followed` says |
| Users.UserDirectory.UnfollowUser | apps/web/src/stores/users.ts:63-84 | returns whether both profiles exist, and leaves the directory as `Unfollowed` says |
| Feed.PendingModeration | apps/web/src/stores/feed.ts:28-31 | the number of PENDING items, at most the feed length |
| Feed.GetPostsByAuthor | apps/web/src/stores/feed.ts:37-38 | exactly the author's items, in feed order |
| Feed.FlipLike | apps/web/src/stores/feed.ts:44-48 | the viewer flag is flipped, the count moves by -1 if it was set and +1 if not, and nothing else changes |
| Feed.WithLikeToggled | apps/web/src/stores/feed.ts:40-52 | the items with the id have their like flipped and all others are unchanged |
| Feed.ToggleLikeInvolution | apps/web/src/stores/feed.ts:40-52 | toggling the same item twice restores the feed |
| Feed.ToggleLikeCountsUpThenDown | apps/web/src/components/FeedIsland.test.tsx:19-28 | from 0 unliked, one toggle gives 1 liked and a second gives 0 again |
| Feed.WithComment | apps/web/src/stores/feed.ts:54-79 | blank text changes nothing; otherwise the viewer's trimmed comment is appended to the items with the id and nothing else changes |
| Feed.ViewerComment | apps/web/src/stores/feed.ts:65-71 | the new comment's id is "comment-" followed by the clock in decimal; it is by "viewer" ("You"), with the trimmed text and the given time |
| Feed.CommentTextTrimmed | apps/web/src/stores/feed.ts:55-71 | a stored comment's text is non-empty with no leading or trailing white space |
| Feed.FilteredFeed | apps/web/src/stores/feed.ts:89-101 | the global filter shows the whole feed; the following filter shows exactly the items of existing authors the current user follows, in order, as many as the feed has |
| Feed.FollowedIdsExact | apps/web/src/stores/feed.ts:94-97 | the following ids the filter uses are exactly the followed authors whose profile exists |
| Feed.SearchPosts | apps/web/src/stores/feed.ts:108-119 | the whole feed for a blank query; else exactly the items whose caption or author name contains the query ignoring case, in order |
| Feed.FeedStore.ToggleLike | apps/web/src/stores/feed.ts:40-52 | the feed atom becomes `WithLikeToggled` of its old value and the filter is kept |
| Feed.FeedStore.AddComment | apps/web/src/stores/feed.ts:54-79 | the feed atom becomes `WithComment` of its old value and the filter is kept |
| Feed.FeedStore.SetFeedFilter | apps/web/src/stores/feed.ts:103-105 | the filter atom takes the new value and the feed is kept |
| Notifications.MarkedRead | apps/web/src/stores/notifications.ts:17-28 | the notifications with the id become read and all others are unchanged |
| Notifications.MarkReadIdempotent | apps/web/src/stores/notifications.ts:17-28 | marking the same id read twice is the same as once |
| Notifications.UnreadCount | apps/web/src/stores/notifications.ts:30-31 | the number of notifications not yet read |
| Notifications.UnreadAfterMark | apps/web/src/stores/notifications.ts:17-31 | marking an id read lowers the unread count by exactly the unread notifications with that id |
| Notifications.NotificationStore.MarkNotificationRead | apps/web/src/stores/notifications.ts:17-28 | the atom becomes `MarkedRead` of its old value |
| Chat.MessagesForChannel | apps/web/src/stores/chat.ts:51-52 | exactly the channel's messages, in store order |
| Records.UpdatePosts | apps/web/src/services/dataService.ts:177-179 | the posts with the id are replaced by their update and all others are unchanged |
| Records.UpdateAbsentId | apps/web/src/services/dataService.ts:177-179 | an update by an id no post has changes nothing |
| Records.CommentBumpTotal | apps/web/src/services/demoService.ts:94-99 | bumping the comment count raises the total by the number of posts with the id |
| Demo.NewDemoPost | apps/web/src/services/demoService.ts:64-80 | a pending "GLOBAL" post by "current-user" with zero counts and id "demo-post-" followed by the clock |
| Demo.NewDemoComment | apps/web/src/services/demoService.ts:82-93 | a comment by "current-user" on the post, with id "demo-comment-" followed by the clock |
| Demo.ToggledLikeIds | apps/web/src/services/demoService.ts:104-112 | the post's id is in the result exactly when it was not in the list, other ids are kept, and no id is repeated |
| Demo.ToggleLikeIdsTwice | apps/web/src/services/demoService.ts:104-112 | toggling the same post twice restores the set of liked ids |
| Demo.ToggleLikeCountTwice | apps/web/src/services/demoService.ts:114-121 | two toggles restore every like count |
| Demo.DemoService.CreatePost | apps/web/src/services/demoService.ts:64-80 | the new post goes first in the posts store and the other stores are kept |
| Demo.DemoService.CreateComment | apps/web/src/services/demoService.ts:82-102 | the comment is appended and the post's comment count goes up |
| Demo.DemoService.ToggleLike | apps/web/src/services/demoService.ts:104-124 | returns whether the post is now liked, which is the opposite of before, and moves its count to match |
| DataService.Unliked | apps/web/src/services/dataService.ts:178 | the like count goes down by one, never below 0, and nothing else changes |
| DataService.ModerationIdempotent | apps/web/src/services/dataService.ts:221-229 | applying the same moderation event twice is the same as once |
| DataService.ModerationTargetsOnly | apps/web/src/services/dataService.ts:221-229 | a moderation event sets the status of exactly the posts with its id and nothing else |
| DataService.UnlikeEffect | apps/web/src/services/dataService.ts:172-180 | an unlike removes every like of the post, keeps the other likes in order and keeps counts non-negative |
| DataService.LikeThenUnlikeRestores | apps/web/src/services/dataService.ts:164-198 | a like followed by an unlike restores the likes and the like counts |
| DataService.DataStore.LoadFeed | apps/web/src/services/dataService.ts:44-65 | demo mode copies the demo posts; otherwise posts are replaced on success, or kept with the error recorded on failure; loading ends |
| DataService.DataStore.CreatePost | apps/web/src/services/dataService.ts:67-100 | demo mode delegates to the demo store and keeps its comments and likes; otherwise the created post goes first, or the error is recorded and rethrown |
| DataService.DataStore.SavePost | apps/web/src/services/dataService.ts:102-126 | returns the mutation's result, never changes the posts, and records the error on failure |
| DataService.DataStore.LoadComments | apps/web/src/services/dataService.ts:129-138 | the fetched comments replace the store; a failure is rethrown and changes nothing |
| DataService.DataStore.AddComment | apps/web/src/services/dataService.ts:140-161 | on success the comment is appended and the post's count bumped; on failure nothing changes |
| DataService.DataStore.ToggleLike | apps/web/src/services/dataService.ts:164-198 | with a like of the post: delete, then drop its likes and lower its count; without: create, append and raise; a failed call changes nothing |
| DataService.DataStore.UnsubscribeFromFeed | apps/web/src/services/dataService.ts:246-251 | the held handle, if any, is unsubscribed once and forgotten |
| DataService.DataStore.SubscribeToFeed | apps/web/src/services/dataService.ts:203-244 | the held handle is unsubscribed before the new one is held and returned |
| DataService.DataStore.HandleFeedEvent | apps/web/src/services/dataService.ts:209-241 | post events reload the feed (a failed reload records its message or "Failed to load feed") and end not loading, moderation events set the post's status, comment events reload the comments, and other events change nothing |
| DataService.DataStore.CleanupData | apps/web/src/services/dataService.ts:264-269 | posts, comments and likes are emptied and the subscription is released |
| Realtime.WithEvent | apps/web/src/services/realtimeService.ts:39-40 | the new event first, then the older ones in order, at most 50 in all |
| Realtime.NewestFirst | apps/web/src/services/realtimeService.ts:39-40 | the `n` newest arrivals, newest first |
| Realtime.HistoryIsNewest50 | apps/web/src/services/realtimeService.ts:39-40 | whatever arrived, the history is exactly the 50 newest events, newest first |
| Realtime.RealtimeService.ConnectToFeed | apps/web/src/services/realtimeService.ts:22-55 | the held handle is released first; success holds the new handle and connects; failure records the error and keeps the stale handle |
| Realtime.RealtimeService.ReceiveEvent | apps/web/src/services/realtimeService.ts:30-41 | the event goes to the head of the history and nothing else changes |
| Realtime.RealtimeService.Disconnect | apps/web/src/services/realtimeService.ts:57-64 | the held handle, if any, is released and forgotten, and the service is disconnected |
| Analytics.TotalsAppend | apps/web/src/services/analyticsService.ts:42-43 | the like and comment totals add up over a split of the feed |
| Analytics.TotalsSingle | apps/web/src/services/analyticsService.ts:42-43 | the totals of one post are its own counts |
| Analytics.ToggleLikeMovesTotal | apps/web/src/services/analyticsService.ts:42-43 | toggling a like on a post with a unique id moves total likes by exactly one and keeps total comments |
| Analytics.CommentRaisesTotal | apps/web/src/services/analyticsService.ts:42-43 | a non-blank comment on a post with a unique id raises total comments by one and keeps total likes |
| Analytics.QueueChange | apps/web/src/services/analyticsService.ts:91 | the change figure is 0 exactly when at most 18 posts are pending, else the excess over 18 |
| Analytics.QueueTrend | apps/web/src/services/analyticsService.ts:92 | the trend is up exactly when more than 20 posts are pending, and never down |
| Analytics.UpTrendHasChange | apps/web/src/services/analyticsService.ts:91-92 | an upward trend always comes with a change of at least 3 |
| Analytics.CalculateMetrics | apps/web/src/services/analyticsService.ts:40-95 | users and posts are counted, the like and comment totals are those of the feed, the pending count and the "+n" change follow the queue rules, and the trend is "up" above 20 pending and "neutral" otherwise |
| Analytics.TotalLikes | apps/web/src/services/analyticsService.ts:42 | with non-negative like counts the total is non-negative, and zero exactly when no post has a like |
| Analytics.TotalComments | apps/web/src/services/analyticsService.ts:43 | zero exactly when no post has a comment, and at least the comment count of every post |
| Analytics.MetricsPendingIsFeedPending | apps/web/src/services/analyticsService.ts:50 | the dashboard's queue is the feed's computed pending count |
| Analytics.ShortCaption | apps/web/src/services/analyticsService.ts:107 | captions of up to 50 characters are kept; longer ones become their first 50 characters and "..." |
| Analytics.ToTopPost | apps/web/src/services/analyticsService.ts:105-112 | the card carries the post's id, author, like and comment counts, and shortened caption |
| Analytics.GetTopPosts | apps/web/src/services/analyticsService.ts:99-113 | the feed store's items are left sorted by engagement, as a permutation of the old items, with the filter kept; the cards are those of its first three posts |
| Analytics.TopCards | apps/web/src/services/analyticsService.ts:105-112 | one card per post, in order |
| Analytics.Min3 | apps/web/src/services/analyticsService.ts:104 | `slice(0, 3)` keeps `min(3, n)` posts |
| Analytics.SortByEngagement | apps/web/src/services/analyticsService.ts:103 | the array becomes a permutation of itself with non-increasing engagement |
| Analytics.InsertAt | apps/web/src/services/analyticsService.ts:103 | one insertion step extends the sorted prefix by one, permutes the array and leaves the suffix alone |
| Analytics.PickedName | apps/web/src/services/analyticsService.ts:154 | the picked user's display name, or "Unknown User" when there is no such user or the name is empty |
| Analytics.GetRecentActivity | apps/web/src/services/analyticsService.ts:134-164 | one event per post among the first three, then the comment and follow events: at most five in all |
| Analytics.PostActivityTimes | apps/web/src/services/analyticsService.ts:143 | the post events are dated 5m, 10m and 15m ago |
| Analytics.RealtimePending | apps/web/src/services/analyticsService.ts:174 | the live pending figure equals the feed's computed pending count |
| Environment.ExplicitEnv | apps/web/src/utils/environment.ts:36-39 | an explicit variable is taken exactly when it spells one of the four environments |
| Environment.DetectEnvironment | apps/web/src/utils/environment.ts:34-80 | an explicit variable wins; with no window it is sandbox; otherwise production, staging and development hints are tried in that order, then sandbox |
| Environment.DetectsLocalhostAsDevelopment | apps/web/src/utils/__tests__/environment.test.ts:32-35 | the local dev server is detected as development |
| Environment.DetectsAppHostAsProduction | apps/web/src/utils/__tests__/environment.test.ts:37-48 | the test's host app.example.com, whose name contains "app.", is detected as production |
| Environment.DetectsStagingHost | apps/web/src/utils/__tests__/environment.test.ts:50-61 | a staging host is detected as staging |
| Environment.ExplicitEnvWins | apps/web/src/utils/__tests__/environment.test.ts:63-74 | an explicit "production" wins over a localhost location |
| Environment.GetEnvironmentConfig | apps/web/src/utils/environment.ts:85-156 | exactly one environment flag is set, matching the detected environment; debug and features follow the per-environment table; the region defaults to "eu-west-2" |
| Environment.MissingErrors | apps/web/src/utils/environment.ts:173-177 | at most one message per required variable |
| Environment.MissingErrorsExact | apps/web/src/utils/environment.ts:173-177 | there is a missing-variable message exactly for each required variable that is empty |
| Environment.MissingErrorsPrefixes | apps/web/src/utils/environment.ts:166-177 | the loop's messages come in the order of the four required variables |
| Environment.MissingIsNotOther | apps/web/src/utils/environment.ts:175-187 | no missing-variable message is a URL or region message |
| Environment.RegionErrorIff | apps/web/src/utils/environment.ts:185-188 | a region error is reported exactly when a region is set and is not one of the five supported ones |
| Environment.CompleteConfigIsValid | apps/web/src/utils/__tests__/environment.test.ts:102-117 | all four variables set, a parseable URL and a supported or default region give no errors |
| Environment.NothingSetIsInvalid | apps/web/src/utils/__tests__/environment.test.ts:119-123 | with nothing set, validation reports the four missing variables |
| Environment.BadUrlIsReported | apps/web/src/utils/__tests__/environment.test.ts:125-139 | an unparseable API URL is reported |
| Environment.ValidateEnvironment | apps/web/src/utils/environment.ts:161-194 | the errors are the missing, URL and region messages in order, and the config is valid exactly when there are none |
| Environment.InitializeEnvironment | apps/web/src/utils/environment.ts:305-316 | throws, with the errors joined by ", ", exactly when validation fails in production; otherwise returns the configuration |
| Environment.GetFeatureFlags | apps/web/src/utils/environment.ts:228-241 | analytics only in production; image processing and real-time updates never in demo mode; error reporting never in development |
| Environment.GetApiEndpoints | apps/web/src/utils/environment.ts:199-207 | GraphQL is the URL itself, REST swaps its first "/graphql" for "/rest", and the websocket swaps its first "https://" for "wss://" |
| Environment.HttpsBecomesWss | apps/web/src/utils/environment.ts:205 | for an https URL the websocket endpoint is the same URL over wss |
| Environment.GetLoggingConfig | apps/web/src/utils/environment.ts:246-256 | production logs errors only, not to the console, keeping 100 entries; other environments log debug output and keep 1000 |
| Environment.GetImageProcessingConfig | apps/web/src/utils/environment.ts:285-299 | production allows 10 MiB files, quality 90 and 2560x1440; others allow 5 MiB, quality 85 and 1920x1080 |
| Text.Trim | apps/web/src/stores/feed.ts:55 | `String.prototype.trim`: the input with no leading or trailing white space, and only white space removed from either end |
| Text.Lower | apps/web/src/stores/users.ts:106 | ASCII lower-casing, one character for one |
| Text.ReplaceFirst | apps/web/src/utils/environment.ts:204-205 | `replace` with a string pattern: only the first occurrence is replaced |
| Text.Join | apps/web/src/utils/environment.ts:311 | `join(", ")` over the error messages |
| Text.JoinAppend | apps/web/src/utils/environment.ts:311 | joining one more part adds the separator and then that part to the join of the others |

## Left out

- The React and Astro components, the Amplify and AppSync client glue, auth, storage uploads, the backend functions and the seed scripts are not part of this model.
- `initializeData` in `services/dataService.ts` only chains `loadFeed` and `subscribeToFeed`, and is not modelled separately.
- The GraphQL query, mutation and subscription calls are opaque: each is the outcome of one awaited call, passed in.
- Console logging and `window.dispatchEvent` (the real-time `handleFeedEvent`) are left out as I/O.
- `simulateEvent` in `services/realtimeService.ts` and `utils/realtimeSimulation.ts` are left out because they are driven by timers and `Math.random`.
- The module-load code at the end of `services/realtimeService.ts` is left out with `simulateEvent`: in demo mode, or without an AppSync URL, it calls `simulateEvent`, which sets the connected flag and starts timers; it never calls `connectToFeed`.
- `getS3Config` and `handleEnvironmentError` are left out: the first copies configuration fields and the second only logs.
- `isValidUrl` is a parameter, because the model has no URL parser.
- Floating-point figures are left out: the average engagement, the engagement percentage of a top-post card and `getUserGrowthData`.
- The random figures of `getRealtimeMetrics` are left out; only its pending count is modelled.
- `toLocaleString` rendering is left out; the metrics are the integers behind the tiles.
- The mock change and trend strings of the first three dashboard tiles are constants and are left out.
- `listUsers`, `isUser`, `getFeedSnapshot`, `getFeedItem` and the notification snapshot getter are plain reads of a store and are not modelled separately.
- The seed data of the stores (feed items, chat messages, notifications, demo posts) is not modelled; the stores take their initial contents as parameters.
- Case-insensitive matching uses ASCII lower-casing; Unicode case mapping and UTF-16 code-unit lengths are not modelled.
- Event payloads of the real-time and data-service subscriptions are left out; only the post id, type, timestamp and, for a moderation event, its status are kept.
- `HandleFeedEvent` runs the reloads it triggers to completion before the next event, although the source does not await them; interleaving of concurrent reloads is not modelled.
- `DataService.DataStore.SubscribeToFeed` assumes the subscription call returns a handle; a subscription that fails to open is not modelled.
- Analytics.GetTopPosts: the model does not prove that `Array.prototype.sort` is stable; equal-engagement posts may come in any order.
- Analytics.GetTopPosts: the sort works on a fresh `array` copied from the feed store and written back, so a caller still holding the old array reference does not see it reordered; that aliasing is not modelled.
- Profiles are values, not shared object references; aliasing between the `users` array and profiles held elsewhere is not modelled.
