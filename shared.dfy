/**
 * The shared library: the moderation status type and the DynamoDB
 * partition-key (`pk`) and sort-key (`sk`) builders of the single-table design.
 */
module Shared {

  datatype ModerationStatus = Pending | Approved | Rejected

  const UserPrefix: string := "USER#"
  const PostPrefix: string := "POST#"
  const FeedPrefix: string := "FEED#"
  const CommentPrefix: string := "COMMENT#"
  const LikePrefix: string := "LIKE#"

  /** The key `prefix + arg`: the prefix, then the argument unchanged. */
  predicate Prefixed(key: string, prefix: string, arg: string) {
    |key| == |prefix| + |arg| && key[..|prefix|] == prefix && key[|prefix|..] == arg
  }

  function PkUser(id: string): (k: string)
    ensures Prefixed(k, UserPrefix, id)
  {
    UserPrefix + id
  }

  function PkPost(id: string): (k: string)
    ensures Prefixed(k, PostPrefix, id)
  {
    PostPrefix + id
  }

  /** Comments live in their post's partition. */
  function PkComment(postId: string): (k: string)
    ensures k == PkPost(postId)
  {
    PostPrefix + postId
  }

  function PkFeed(feedId: string): (k: string)
    ensures Prefixed(k, FeedPrefix, feedId)
  {
    FeedPrefix + feedId
  }

  function SkUser(): string {
    "PROFILE"
  }

  function SkPost(): string {
    "POST"
  }

  function SkComment(commentId: string): (k: string)
    ensures Prefixed(k, CommentPrefix, commentId)
  {
    CommentPrefix + commentId
  }

  function SkLike(userId: string): (k: string)
    ensures Prefixed(k, LikePrefix, userId)
  {
    LikePrefix + userId
  }

  /** The values the shared library's unit test expects. */
  lemma KeyExamples()
    ensures PkPost("123") == "POST#123"
    ensures SkPost() == "POST"
    ensures SkComment("c-1") == "COMMENT#c-1"
  {
  }

  /** Each parameterised builder is injective: the argument can be read back from the key. */
  lemma BuildersInjective(a: string, b: string)
    ensures PkUser(a) == PkUser(b) ==> a == b
    ensures PkPost(a) == PkPost(b) ==> a == b
    ensures PkComment(a) == PkComment(b) ==> a == b
    ensures PkFeed(a) == PkFeed(b) ==> a == b
    ensures SkComment(a) == SkComment(b) ==> a == b
    ensures SkLike(a) == SkLike(b) ==> a == b
  {
    assert PkUser(a)[5..] == a && PkUser(b)[5..] == b;
    assert PkPost(a)[5..] == a && PkPost(b)[5..] == b;
    assert PkFeed(a)[5..] == a && PkFeed(b)[5..] == b;
    assert SkComment(a)[8..] == a && SkComment(b)[8..] == b;
    assert SkLike(a)[5..] == a && SkLike(b)[5..] == b;
  }

  /** Partition keys built by different builders never collide, whatever the arguments. */
  lemma PartitionKeysDisjoint(a: string, b: string)
    ensures PkUser(a) != PkPost(b)
    ensures PkUser(a) != PkFeed(b)
    ensures PkPost(a) != PkFeed(b)
  {
    assert PkUser(a)[0] == 'U' && PkPost(b)[0] == 'P' && PkFeed(b)[0] == 'F';
    assert PkPost(a)[0] == 'P';
  }

  /** The constant sort keys differ from every comment and like sort key, and those two kinds differ. */
  lemma SortKeysDisjoint(a: string, b: string)
    ensures SkUser() != SkPost()
    ensures SkUser() != SkComment(a) && SkUser() != SkLike(a)
    ensures SkPost() != SkComment(a) && SkPost() != SkLike(a)
    ensures SkComment(a) != SkLike(b)
  {
    assert SkComment(a)[0] == 'C' && SkLike(a)[0] == 'L' && SkLike(b)[0] == 'L';
    assert SkUser()[0] == 'P' && SkPost()[0] == 'P';
    assert |SkUser()| == 7 && |SkPost()| == 4;
  }
}
