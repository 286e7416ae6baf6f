/**
 * The user directory and follow graph (`stores/users.ts`).
 *
 * The source keeps one module-level array of profile objects. Lookups are
 * `Array.find` by id (the FIRST profile with that id), and `followUser` /
 * `unfollowUser` update the two profiles they find in place: `push` /
 * `splice` on the id lists and `++` / `Math.max(0, n - 1)` on the counters.
 * Here the array is a `seq<UserProfile>` field of `UserDirectory`, an
 * in-place update of profile `i` is `users[i := ...]`, and each mutating
 * method is specified by a pure function (`Followed`, `Unfollowed`) about
 * which the graph properties are proved.
 */
module Users {
  import opened Calls
  import opened Seqs
  import opened Text

  datatype Role = Admin | User

  datatype UserProfile = UserProfile(
    id: string,
    username: string,
    displayName: string,
    avatarUrl: string,
    bio: string,
    followers: int,
    following: int,
    followingIds: seq<string>,  // ids of users this user follows
    followerIds: seq<string>,   // ids of users following this user
    posts: int,
    role: Role)

  function HasId(id: string): UserProfile -> bool {
    (u: UserProfile) => u.id == id
  }

  /** Index of the profile `users.find(u => u.id === id)` returns, or -1. */
  function IndexOfUser(users: seq<UserProfile>, id: string): (r: int)
    ensures -1 <= r < |users|
    ensures r == -1 <==> forall i :: 0 <= i < |users| ==> users[i].id != id
    ensures r >= 0 ==> users[r].id == id && forall i :: 0 <= i < r ==> users[i].id != id
  {
    FirstIndex(users, HasId(id))
  }

  function FindUser(users: seq<UserProfile>, id: string): (r: Option<UserProfile>)
    ensures r.None? <==> forall i :: 0 <= i < |users| ==> users[i].id != id
    ensures r.Some? ==> r.value in users && r.value.id == id
    ensures r.Some? ==> exists i :: 0 <= i < |users| && r.value == users[i]
                                    && forall j :: 0 <= j < i ==> users[j].id != id
  {
    var i := IndexOfUser(users, id);
    if i < 0 then None else Some(users[i])
  }

  /** Two directories with the same ids at the same positions find the same index for every id. */
  lemma SameIdsSameIndex(users: seq<UserProfile>, users': seq<UserProfile>, id: string)
    requires |users'| == |users|
    requires forall i :: 0 <= i < |users| ==> users'[i].id == users[i].id
    ensures IndexOfUser(users', id) == IndexOfUser(users, id)
  {
  }

  /** `findUserByUsername`: the first profile whose username equals `name` ignoring (ASCII) case. */
  function FindUserByUsername(users: seq<UserProfile>, name: string): (r: Option<UserProfile>)
    ensures r.Some? ==> r.value in users && Lower(r.value.username) == Lower(name)
    ensures r.None? <==> forall i :: 0 <= i < |users| ==> Lower(users[i].username) != Lower(name)
    ensures r.Some? ==> exists i :: 0 <= i < |users| && r.value == users[i]
                                    && forall j :: 0 <= j < i ==> Lower(users[j].username) != Lower(name)
  {
    var i := FirstIndex(users, (u: UserProfile) => Lower(u.username) == Lower(name));
    if i < 0 then None else Some(users[i])
  }

  /** `isAdmin`: the first profile with this id exists and has the admin role. */
  function IsAdmin(users: seq<UserProfile>, id: string): (b: bool)
    ensures b <==> exists i :: 0 <= i < |users| && users[i].id == id && users[i].role == Admin
                              && forall j :: 0 <= j < i ==> users[j].id != id
  {
    var i := IndexOfUser(users, id);
    i >= 0 && users[i].role == Admin
  }

  function IsAdminProfile(u: UserProfile): bool {
    u.role == Admin
  }

  /** `getAdmins`: the admin profiles, in directory order. */
  function GetAdmins(users: seq<UserProfile>): (r: seq<UserProfile>)
    ensures IsSubsequence(r, users)
    ensures forall u :: u in r ==> u.role == Admin
    ensures forall i :: 0 <= i < |users| && users[i].role == Admin ==> users[i] in r
    ensures |r| == Count(users, IsAdminProfile)
  {
    Filter(users, IsAdminProfile)
  }

  /** `isFollowing`: the follower's profile exists and lists the target id. */
  function IsFollowing(users: seq<UserProfile>, followerId: string, targetId: string): (b: bool)
    ensures b <==> exists i ::
                     0 <= i < |users| && users[i].id == followerId && targetId in users[i].followingIds &&
                     forall j :: 0 <= j < i ==> users[j].id != followerId
    ensures (forall i :: 0 <= i < |users| ==> users[i].id != followerId) ==> !b
  {
    var i := IndexOfUser(users, followerId);
    i >= 0 && targetId in users[i].followingIds
  }

  // ---------------------------------------------------------------------
  // Profile invariant

  /** Each counter equals the length of its list and neither list repeats an id. */
  predicate ProfileConsistent(p: UserProfile) {
    && NoDuplicates(p.followingIds) && NoDuplicates(p.followerIds)
    && p.following == |p.followingIds| && p.followers == |p.followerIds|
  }

  predicate DirectoryConsistent(users: seq<UserProfile>) {
    forall i :: 0 <= i < |users| ==> ProfileConsistent(users[i])
  }

  // ---------------------------------------------------------------------
  // followUser

  /**
   * The follower's side of `followUser`: push the target id unless already
   * present. Every earlier id keeps its place, the target is the only id
   * added, the counter moves with the list and no other field changes.
   */
  function AddFollowing(p: UserProfile, targetId: string): (r: UserProfile)
    ensures targetId in r.followingIds
    ensures |p.followingIds| <= |r.followingIds| <= |p.followingIds| + 1
    ensures r.followingIds[..|p.followingIds|] == p.followingIds
    ensures forall y :: y in r.followingIds <==> y in p.followingIds || y == targetId
    ensures r.following - p.following == |r.followingIds| - |p.followingIds|
    ensures r.(followingIds := p.followingIds, following := p.following) == p
  {
    if targetId in p.followingIds then p
    else p.(followingIds := p.followingIds + [targetId], following := p.following + 1)
  }

  /** The target's side of `followUser`, with the same guarantees on the follower list. */
  function AddFollower(p: UserProfile, followerId: string): (r: UserProfile)
    ensures followerId in r.followerIds
    ensures |p.followerIds| <= |r.followerIds| <= |p.followerIds| + 1
    ensures r.followerIds[..|p.followerIds|] == p.followerIds
    ensures forall y :: y in r.followerIds <==> y in p.followerIds || y == followerId
    ensures r.followers - p.followers == |r.followerIds| - |p.followerIds|
    ensures r.(followerIds := p.followerIds, followers := p.followers) == p
  {
    if followerId in p.followerIds then p
    else p.(followerIds := p.followerIds + [followerId], followers := p.followers + 1)
  }

  /** The guard of `followUser`: both profiles exist and they are different users. */
  predicate CanFollow(users: seq<UserProfile>, followerId: string, targetId: string) {
    IndexOfUser(users, followerId) >= 0 && IndexOfUser(users, targetId) >= 0 && followerId != targetId
  }

  /** The directory after `followUser(followerId, targetId)`. */
  function Followed(users: seq<UserProfile>, followerId: string, targetId: string): (r: seq<UserProfile>)
    ensures |r| == |users|
    ensures forall i :: 0 <= i < |users| ==> r[i].id == users[i].id
    ensures !CanFollow(users, followerId, targetId) ==> r == users
    ensures forall i ::
      0 <= i < |users| && i != IndexOfUser(users, followerId) && i != IndexOfUser(users, targetId)
      ==> r[i] == users[i]
    ensures CanFollow(users, followerId, targetId) ==>
      var fi, ti := IndexOfUser(users, followerId), IndexOfUser(users, targetId);
      r[fi] == AddFollowing(users[fi], targetId) && r[ti] == AddFollower(users[ti], followerId)
  {
    if !CanFollow(users, followerId, targetId) then users
    else
      var fi, ti := IndexOfUser(users, followerId), IndexOfUser(users, targetId);
      users[fi := AddFollowing(users[fi], targetId)][ti := AddFollower(users[ti], followerId)]
  }

  /** A successful follow makes the follower follow the target and lists the follower on the target. */
  lemma FollowEstablishes(users: seq<UserProfile>, followerId: string, targetId: string)
    requires CanFollow(users, followerId, targetId)
    ensures var r := Followed(users, followerId, targetId);
      IsFollowing(r, followerId, targetId)
      && followerId in r[IndexOfUser(r, targetId)].followerIds
  {
    var r := Followed(users, followerId, targetId);
    SameIdsSameIndex(users, r, followerId);
    SameIdsSameIndex(users, r, targetId);
  }

  /** Following twice leaves the directory as after one follow. */
  lemma FollowIdempotent(users: seq<UserProfile>, followerId: string, targetId: string)
    ensures var once := Followed(users, followerId, targetId);
      Followed(once, followerId, targetId) == once
  {
    var once := Followed(users, followerId, targetId);
    SameIdsSameIndex(users, once, followerId);
    SameIdsSameIndex(users, once, targetId);
    if CanFollow(users, followerId, targetId) {
      var fi, ti := IndexOfUser(users, followerId), IndexOfUser(users, targetId);
      assert targetId in once[fi].followingIds;
      assert followerId in once[ti].followerIds;
    }
  }

  lemma AppendKeepsNoDuplicates(ids: seq<string>, x: string)
    requires NoDuplicates(ids) && x !in ids
    ensures NoDuplicates(ids + [x])
  {
  }

  /** Following preserves: no duplicate ids, and each counter equals the length of its list. */
  lemma FollowPreservesConsistency(users: seq<UserProfile>, followerId: string, targetId: string)
    requires DirectoryConsistent(users)
    ensures DirectoryConsistent(Followed(users, followerId, targetId))
  {
    if CanFollow(users, followerId, targetId) {
      var fi, ti := IndexOfUser(users, followerId), IndexOfUser(users, targetId);
      if targetId !in users[fi].followingIds {
        AppendKeepsNoDuplicates(users[fi].followingIds, targetId);
      }
      if followerId !in users[ti].followerIds {
        AppendKeepsNoDuplicates(users[ti].followerIds, followerId);
      }
    }
  }

  /**
   * A follow only ever adds: every list keeps its earlier ids in place, the
   * follower's list gains only the target and the target's list gains only
   * the follower, and no other field of any profile changes.
   */
  lemma FollowOnlyAdds(users: seq<UserProfile>, followerId: string, targetId: string)
    ensures var r := Followed(users, followerId, targetId);
      var ok, fi, ti := CanFollow(users, followerId, targetId), IndexOfUser(users, followerId), IndexOfUser(users, targetId);
      forall i :: 0 <= i < |users| ==>
        && |users[i].followingIds| <= |r[i].followingIds|
        && r[i].followingIds[..|users[i].followingIds|] == users[i].followingIds
        && |users[i].followerIds| <= |r[i].followerIds|
        && r[i].followerIds[..|users[i].followerIds|] == users[i].followerIds
        && (forall y :: y in r[i].followingIds <==> y in users[i].followingIds || (ok && i == fi && y == targetId))
        && (forall y :: y in r[i].followerIds <==> y in users[i].followerIds || (ok && i == ti && y == followerId))
        && r[i].(followingIds := users[i].followingIds, followerIds := users[i].followerIds,
                 following := users[i].following, followers := users[i].followers) == users[i]
  {
  }

  // ---------------------------------------------------------------------
  // unfollowUser

  /** `Array.prototype.splice(indexOf(x), 1)` when `x` is present. */
  function RemoveFirst(ids: seq<string>, x: string): (r: seq<string>)
    ensures x !in ids ==> r == ids
    ensures x in ids ==> |r| == |ids| - 1
    ensures x in ids ==>
      exists k :: 0 <= k < |ids| && ids[k] == x && x !in ids[..k] && r == ids[..k] + ids[k + 1..]
    ensures IsSubsequence(r, ids)
    ensures forall y :: y in r ==> y in ids
    ensures NoDuplicates(ids) ==> x !in r && NoDuplicates(r)
    ensures forall y :: y in ids && y != x ==> y in r
  {
    var k := FirstIndex(ids, (y: string) => y == x);
    if k < 0 then
      SubsequenceReflexive(ids);
      ids
    else
      assert forall y :: y in ids && y != x ==> y in ids[..k] + ids[k + 1..] by {
        forall y | y in ids && y != x ensures y in ids[..k] + ids[k + 1..] {
          var j :| 0 <= j < |ids| && ids[j] == y;
          if j < k { assert ids[..k][j] == y; } else { assert ids[k + 1..][j - k - 1] == y; }
        }
      }
      assert x !in ids[..k];
      DeletionIsSubsequence(ids, k);
      ids[..k] + ids[k + 1..]
  }

  /**
   * The follower's side of `unfollowUser`: one occurrence of the target id is
   * removed if there is one, the rest keep their order, the counter drops by
   * one (floored at 0) and no other field changes.
   */
  function DropFollowing(p: UserProfile, targetId: string): (r: UserProfile)
    ensures targetId !in p.followingIds ==> r == p
    ensures targetId in p.followingIds ==>
      |r.followingIds| == |p.followingIds| - 1 && r.following == Max0(p.following - 1)
    ensures IsSubsequence(r.followingIds, p.followingIds)
    ensures forall y :: y != targetId ==> (y in r.followingIds <==> y in p.followingIds)
    ensures r.(followingIds := p.followingIds, following := p.following) == p
  {
    if targetId in p.followingIds then
      p.(followingIds := RemoveFirst(p.followingIds, targetId), following := Max0(p.following - 1))
    else
      SubsequenceReflexive(p.followingIds);
      p
  }

  /** The target's side of `unfollowUser`, with the same guarantees on the follower list. */
  function DropFollower(p: UserProfile, followerId: string): (r: UserProfile)
    ensures followerId !in p.followerIds ==> r == p
    ensures followerId in p.followerIds ==>
      |r.followerIds| == |p.followerIds| - 1 && r.followers == Max0(p.followers - 1)
    ensures IsSubsequence(r.followerIds, p.followerIds)
    ensures forall y :: y != followerId ==> (y in r.followerIds <==> y in p.followerIds)
    ensures r.(followerIds := p.followerIds, followers := p.followers) == p
  {
    if followerId in p.followerIds then
      p.(followerIds := RemoveFirst(p.followerIds, followerId), followers := Max0(p.followers - 1))
    else
      SubsequenceReflexive(p.followerIds);
      p
  }

  /** `Math.max(0, n)`. */
  function Max0(n: int): (r: int)
    ensures r >= 0 && r >= n && (r == 0 || r == n)
  {
    if n < 0 then 0 else n
  }

  /** The guard of `unfollowUser`: both profiles exist (there is no self check). */
  predicate CanUnfollow(users: seq<UserProfile>, followerId: string, targetId: string) {
    IndexOfUser(users, followerId) >= 0 && IndexOfUser(users, targetId) >= 0
  }

  /**
   * The directory after `unfollowUser(followerId, targetId)`. The follower is
   * updated first and the target is read afterwards, so when both ids are the
   * same the second update applies to the already updated profile.
   */
  function Unfollowed(users: seq<UserProfile>, followerId: string, targetId: string): (r: seq<UserProfile>)
    ensures |r| == |users|
    ensures forall i :: 0 <= i < |users| ==> r[i].id == users[i].id
    ensures !CanUnfollow(users, followerId, targetId) ==> r == users
    ensures forall i ::
      0 <= i < |users| && i != IndexOfUser(users, followerId) && i != IndexOfUser(users, targetId)
      ==> r[i] == users[i]
    ensures CanUnfollow(users, followerId, targetId) ==>
      var fi, ti := IndexOfUser(users, followerId), IndexOfUser(users, targetId);
      if fi == ti then r[fi] == DropFollower(DropFollowing(users[fi], targetId), followerId)
      else r[fi] == DropFollowing(users[fi], targetId) && r[ti] == DropFollower(users[ti], followerId)
  {
    if !CanUnfollow(users, followerId, targetId) then users
    else
      var fi, ti := IndexOfUser(users, followerId), IndexOfUser(users, targetId);
      var afterFollower := users[fi := DropFollowing(users[fi], targetId)];
      afterFollower[ti := DropFollower(afterFollower[ti], followerId)]
  }

  /** With no duplicate ids, an unfollow leaves the follower not following the target and off its follower list. */
  lemma UnfollowEstablishes(users: seq<UserProfile>, followerId: string, targetId: string)
    requires DirectoryConsistent(users)
    requires CanUnfollow(users, followerId, targetId)
    ensures var r := Unfollowed(users, followerId, targetId);
      !IsFollowing(r, followerId, targetId)
      && followerId !in r[IndexOfUser(r, targetId)].followerIds
  {
    var r := Unfollowed(users, followerId, targetId);
    SameIdsSameIndex(users, r, followerId);
    SameIdsSameIndex(users, r, targetId);
    var fi, ti := IndexOfUser(users, followerId), IndexOfUser(users, targetId);
    var afterFollower := users[fi := DropFollowing(users[fi], targetId)];
    assert targetId !in afterFollower[fi].followingIds;
    assert ProfileConsistent(afterFollower[ti]);
  }

  lemma DropKeepsConsistency(p: UserProfile, targetId: string, followerId: string)
    requires ProfileConsistent(p)
    ensures ProfileConsistent(DropFollowing(p, targetId))
    ensures ProfileConsistent(DropFollower(p, followerId))
  {
  }

  /** Unfollowing preserves the profile invariant; in particular every counter stays non-negative. */
  lemma UnfollowPreservesConsistency(users: seq<UserProfile>, followerId: string, targetId: string)
    requires DirectoryConsistent(users)
    ensures var r := Unfollowed(users, followerId, targetId);
      DirectoryConsistent(r) && forall i :: 0 <= i < |r| ==> r[i].following >= 0 && r[i].followers >= 0
  {
    if CanUnfollow(users, followerId, targetId) {
      var fi, ti := IndexOfUser(users, followerId), IndexOfUser(users, targetId);
      DropKeepsConsistency(users[fi], targetId, followerId);
      var afterFollower := users[fi := DropFollowing(users[fi], targetId)];
      DropKeepsConsistency(afterFollower[ti], targetId, followerId);
    }
  }

  /**
   * An unfollow only ever removes: every list keeps a subsequence of its ids,
   * the only id that can leave the follower's list is the target and the only
   * id that can leave the target's list is the follower, and no other field of
   * any profile changes.
   */
  lemma UnfollowOnlyRemoves(users: seq<UserProfile>, followerId: string, targetId: string)
    ensures var r := Unfollowed(users, followerId, targetId);
      var ok, fi, ti := CanUnfollow(users, followerId, targetId), IndexOfUser(users, followerId), IndexOfUser(users, targetId);
      forall i :: 0 <= i < |users| ==>
        && IsSubsequence(r[i].followingIds, users[i].followingIds)
        && IsSubsequence(r[i].followerIds, users[i].followerIds)
        && (forall y :: y in users[i].followingIds && !(ok && i == fi && y == targetId) ==> y in r[i].followingIds)
        && (forall y :: y in users[i].followerIds && !(ok && i == ti && y == followerId) ==> y in r[i].followerIds)
        && r[i].(followingIds := users[i].followingIds, followerIds := users[i].followerIds,
                 following := users[i].following, followers := users[i].followers) == users[i]
  {
    var r := Unfollowed(users, followerId, targetId);
    forall i | 0 <= i < |users|
      ensures IsSubsequence(r[i].followingIds, users[i].followingIds)
      ensures IsSubsequence(r[i].followerIds, users[i].followerIds)
    {
      SubsequenceReflexive(users[i].followingIds);
      SubsequenceReflexive(users[i].followerIds);
    }
  }

  // ---------------------------------------------------------------------
  // getFollowingUsers / getFollowerUsers

  function IdsOf(profiles: seq<UserProfile>): (r: seq<string>)
    ensures |r| == |profiles| && forall k :: 0 <= k < |r| ==> r[k] == profiles[k].id
  {
    seq(|profiles|, k requires 0 <= k < |profiles| => profiles[k].id)
  }

  function IsKnown(users: seq<UserProfile>): string -> bool {
    (id: string) => IndexOfUser(users, id) >= 0
  }

  /** `ids.map(id => users.find(...)).filter(u => u !== undefined)`. */
  function ResolveIds(users: seq<UserProfile>, ids: seq<string>): (r: seq<UserProfile>)
    ensures IdsOf(r) == Filter(ids, IsKnown(users))
    ensures forall k :: 0 <= k < |r| ==> FindUser(users, r[k].id) == Some(r[k])
  {
    if ids == [] then []
    else
      var rest := ResolveIds(users, ids[1..]);
      match FindUser(users, ids[0])
      case Some(u) =>
        assert IdsOf([u] + rest) == [u.id] + IdsOf(rest);
        [u] + rest
      case None => rest
  }

  /** `getFollowingUsers`: the profiles of the followed ids that exist, in `followingIds` order. */
  function GetFollowingUsers(users: seq<UserProfile>, id: string): (r: seq<UserProfile>)
    ensures FindUser(users, id).None? ==> r == []
    ensures FindUser(users, id).Some? ==>
      IdsOf(r) == Filter(FindUser(users, id).value.followingIds, IsKnown(users))
    ensures forall k :: 0 <= k < |r| ==> FindUser(users, r[k].id) == Some(r[k])
  {
    match FindUser(users, id)
    case None => []
    case Some(u) => ResolveIds(users, u.followingIds)
  }

  /** `getFollowerUsers`: the profiles of the follower ids that exist, in `followerIds` order. */
  function GetFollowerUsers(users: seq<UserProfile>, id: string): (r: seq<UserProfile>)
    ensures FindUser(users, id).None? ==> r == []
    ensures FindUser(users, id).Some? ==>
      IdsOf(r) == Filter(FindUser(users, id).value.followerIds, IsKnown(users))
    ensures forall k :: 0 <= k < |r| ==> FindUser(users, r[k].id) == Some(r[k])
  {
    match FindUser(users, id)
    case None => []
    case Some(u) => ResolveIds(users, u.followerIds)
  }

  // ---------------------------------------------------------------------
  // searchUsers

  /** The profile's display name, username or bio contains the lower-cased query, ignoring case. */
  predicate MatchesQuery(u: UserProfile, query: string) {
    var q := Lower(query);
    Contains(Lower(u.displayName), q) || Contains(Lower(u.username), q) || Contains(Lower(u.bio), q)
  }

  function QueryTest(query: string): UserProfile -> bool {
    (u: UserProfile) => MatchesQuery(u, query)
  }

  /** `searchUsers`: everyone for a blank query, else the matching profiles in order. */
  function SearchUsers(users: seq<UserProfile>, query: string): (r: seq<UserProfile>)
    ensures IsBlank(query) ==> r == users
    ensures !IsBlank(query) ==>
      && IsSubsequence(r, users)
      && (forall u :: u in r ==> MatchesQuery(u, query))
      && (forall i :: 0 <= i < |users| && MatchesQuery(users[i], query) ==> users[i] in r)
      && |r| == Count(users, QueryTest(query))
  {
    if IsBlank(query) then users else Filter(users, QueryTest(query))
  }

  // ---------------------------------------------------------------------
  // The store

  /** The module-level `users` array, whose profiles `followUser` and `unfollowUser` update in place. */
  class UserDirectory {
    var users: seq<UserProfile>

    constructor (initial: seq<UserProfile>)
      ensures users == initial
    {
      users := initial;
    }

    method FollowUser(followerId: string, targetId: string) returns (ok: bool)
      modifies this
      ensures ok == CanFollow(old(users), followerId, targetId)
      ensures users == Followed(old(users), followerId, targetId)
    {
      var fi := IndexOfUser(users, followerId);
      var ti := IndexOfUser(users, targetId);
      if fi < 0 || ti < 0 || followerId == targetId {
        return false;
      }
      var follower := users[fi];
      if targetId !in follower.followingIds {
        users := users[fi := follower.(followingIds := follower.followingIds + [targetId],
                                       following := follower.following + 1)];
      }
      assert users == old(users)[fi := AddFollowing(old(users)[fi], targetId)];
      var target := users[ti];
      assert target == old(users)[ti];
      if followerId !in target.followerIds {
        users := users[ti := target.(followerIds := target.followerIds + [followerId],
                                     followers := target.followers + 1)];
      }
      assert users == old(users)[fi := AddFollowing(old(users)[fi], targetId)][ti := AddFollower(target, followerId)];
      ok := true;
    }

    method UnfollowUser(followerId: string, targetId: string) returns (ok: bool)
      modifies this
      ensures ok == CanUnfollow(old(users), followerId, targetId)
      ensures users == Unfollowed(old(users), followerId, targetId)
    {
      var fi := IndexOfUser(users, followerId);
      var ti := IndexOfUser(users, targetId);
      if fi < 0 || ti < 0 {
        return false;
      }
      var follower := users[fi];
      if targetId in follower.followingIds {
        users := users[fi := follower.(followingIds := RemoveFirst(follower.followingIds, targetId),
                                       following := Max0(follower.following - 1))];
      }
      assert users == old(users)[fi := DropFollowing(old(users)[fi], targetId)];
      var target := users[ti];
      if followerId in target.followerIds {
        users := users[ti := target.(followerIds := RemoveFirst(target.followerIds, followerId),
                                     followers := Max0(target.followers - 1))];
      }
      assert users == old(users)[fi := DropFollowing(old(users)[fi], targetId)][ti := DropFollower(target, followerId)];
      ok := true;
    }
  }
}
