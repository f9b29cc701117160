/** Likes and the denormalised counters on posts and comments: `toggleLike`,
    `checkUserLike`, `getUserLikeStatus`, `incrementCommentCount`,
    `decrementCommentCount` and `updateItemLikeCount`. */
module Social {
  import opened Wrappers
  import opened Records

  type ItemId = string

  datatype ItemType = PostItem | CommentItem

  /** A like row of the likes collection. */
  datatype LikeRow = LikeRow(userId: UserId, itemId: ItemId, itemType: ItemType)

  /** The counters of a post document. */
  datatype Post = Post(commentCount: int, likes: int)

  datatype Error = MissingUserId | ItemNotFound

  /** What `toggleLike` returns. */
  datatype ToggleResult = ToggleResult(liked: bool, action: string)

  /** The like rows after one toggle of (`userId`, `itemId`): the row is
      deleted when present, created with `itemType` otherwise. */
  function Toggled(likes: map<(UserId, ItemId), ItemType>, userId: UserId, itemId: ItemId, itemType: ItemType)
    : (r: map<(UserId, ItemId), ItemType>)
    ensures (userId, itemId) in r <==> (userId, itemId) !in likes
    ensures (userId, itemId) in r ==> r[(userId, itemId)] == itemType
    ensures forall k :: k != (userId, itemId) ==> (k in r <==> k in likes)
    ensures forall k :: k != (userId, itemId) && k in r ==> r[k] == likes[k]
  {
    if (userId, itemId) in likes then likes - {(userId, itemId)}
    else likes[(userId, itemId) := itemType]
  }

  /** Toggling twice restores the set of liked items; the row itself comes back
      unchanged unless it was stored under another item type. */
  lemma ToggleTwice(likes: map<(UserId, ItemId), ItemType>, userId: UserId, itemId: ItemId, itemType: ItemType)
    ensures var again := Toggled(Toggled(likes, userId, itemId, itemType), userId, itemId, itemType);
      && again.Keys == likes.Keys
      && ((userId, itemId) !in likes || likes[(userId, itemId)] == itemType ==> again == likes)
  {
    var once := Toggled(likes, userId, itemId, itemType);
    var again := Toggled(once, userId, itemId, itemType);
    assert again.Keys == likes.Keys;
  }

  /** `Math.max(count - 1, 0)`, the decremented comment counter. */
  function DecrementedCount(count: int): (r: int)
    ensures r >= 0
    ensures count >= 1 ==> r == count - 1
    ensures count < 1 ==> r == 0
  {
    if count - 1 > 0 then count - 1 else 0
  }

  /** `Math.max(0, likes + increment)`, the updated like counter. */
  function AdjustedLikes(likes: int, increment: int): (r: int)
    ensures r >= 0
    ensures likes + increment >= 0 ==> r == likes + increment
    ensures likes + increment < 0 ==> r == 0
  {
    if likes + increment > 0 then likes + increment else 0
  }

  class Engagement {
    /** The likes collection: at most one row per (userId, itemId). */
    var likes: map<(UserId, ItemId), ItemType>
    /** The posts (reviews) collection's counters. */
    var posts: map<ItemId, Post>
    /** The comments collection's like counters. */
    var commentLikes: map<ItemId, int>

    constructor ()
      ensures likes == map[] && posts == map[] && commentLikes == map[]
    {
      likes := map[];
      posts := map[];
      commentLikes := map[];
    }

    /** `checkUserLike`: the user's like row for the item, if any. */
    function CheckUserLike(userId: UserId, itemId: ItemId): (r: Option<LikeRow>)
      reads this
      ensures r.Some? <==> (userId, itemId) in likes
      ensures r.Some? ==> r.value == LikeRow(userId, itemId, likes[(userId, itemId)])
    {
      if (userId, itemId) in likes then Some(LikeRow(userId, itemId, likes[(userId, itemId)]))
      else None
    }

    /** `getUserLikeStatus`: `true` for exactly those of `itemIds` the user
        likes, and no entry for the others. */
    function GetUserLikeStatus(userId: UserId, itemIds: seq<ItemId>): (r: map<ItemId, bool>)
      reads this
      ensures forall k :: k in r <==> k in itemIds && (userId, k) in likes
      ensures forall k :: k in r ==> r[k]
      ensures itemIds == [] ==> r == map[]
    {
      if itemIds == [] then map[]
      else map k | k in itemIds && (userId, k) in likes :: true
    }

    /** `toggleLike`: fails with no effect on an empty user id; otherwise flips
        the presence of the user's like row for the item and reports whether
        the item is liked afterwards. */
    method ToggleLike(userId: UserId, itemId: ItemId, itemType: ItemType) returns (r: Result<ToggleResult, Error>)
      modifies this
      ensures posts == old(posts) && commentLikes == old(commentLikes)
      ensures userId == "" ==> r == Err(MissingUserId) && likes == old(likes)
      ensures userId != "" ==>
        && likes == Toggled(old(likes), userId, itemId, itemType)
        && r.Ok?
        && r.value.liked == ((userId, itemId) in likes)
        && r.value.liked == ((userId, itemId) !in old(likes))
        && r.value.action == (if r.value.liked then "liked" else "unliked")
    {
      if userId == "" {
        return Err(MissingUserId);
      }
      var existingLike := CheckUserLike(userId, itemId);
      if existingLike.Some? {
        likes := likes - {(userId, itemId)};
        r := Ok(ToggleResult(false, "unliked"));
      } else {
        likes := likes[(userId, itemId) := itemType];
        r := Ok(ToggleResult(true, "liked"));
      }
    }

    /** `incrementCommentCount`: one more comment on an existing post; a
        missing post is left alone (the error is only logged). */
    method IncrementCommentCount(postId: ItemId)
      modifies this
      ensures likes == old(likes) && commentLikes == old(commentLikes)
      ensures postId !in old(posts) ==> posts == old(posts)
      ensures postId in old(posts) ==>
        posts == old(posts)[postId := old(posts)[postId].(commentCount := old(posts)[postId].commentCount + 1)]
    {
      if postId in posts {
        var post := posts[postId];
        posts := posts[postId := post.(commentCount := post.commentCount + 1)];
      }
    }

    /** `decrementCommentCount`: one comment fewer, never below zero. */
    method DecrementCommentCount(postId: ItemId)
      modifies this
      ensures likes == old(likes) && commentLikes == old(commentLikes)
      ensures postId !in old(posts) ==> posts == old(posts)
      ensures postId in old(posts) ==>
        && posts == old(posts)[postId := old(posts)[postId].(commentCount := DecrementedCount(old(posts)[postId].commentCount))]
        && posts[postId].commentCount >= 0
    {
      if postId in posts {
        var post := posts[postId];
        posts := posts[postId := post.(commentCount := DecrementedCount(post.commentCount))];
      }
    }

    /** `updateItemLikeCount`: moves a post's or a comment's like counter by
        `increment`, never below zero, and returns the new count; a post keeps
        its comment count. Fails, changing nothing, when the item is missing. */
    method UpdateItemLikeCount(itemId: ItemId, itemType: ItemType, increment: int) returns (r: Result<int, Error>)
      modifies this
      ensures likes == old(likes)
      ensures r.Ok? ==> r.value >= 0
      ensures itemType == PostItem ==> commentLikes == old(commentLikes)
      ensures itemType == PostItem && itemId !in old(posts) ==> r == Err(ItemNotFound) && posts == old(posts)
      ensures itemType == PostItem && itemId in old(posts) ==>
        var p := old(posts)[itemId];
        r == Ok(AdjustedLikes(p.likes, increment))
        && posts == old(posts)[itemId := Post(p.commentCount, AdjustedLikes(p.likes, increment))]
      ensures itemType == CommentItem ==> posts == old(posts)
      ensures itemType == CommentItem && itemId !in old(commentLikes) ==>
        r == Err(ItemNotFound) && commentLikes == old(commentLikes)
      ensures itemType == CommentItem && itemId in old(commentLikes) ==>
        r == Ok(AdjustedLikes(old(commentLikes)[itemId], increment))
        && commentLikes == old(commentLikes)[itemId := AdjustedLikes(old(commentLikes)[itemId], increment)]
    {
      if itemType == PostItem {
        if itemId !in posts {
          return Err(ItemNotFound);
        }
        var post := posts[itemId];
        var newCount := AdjustedLikes(post.likes, increment);
        posts := posts[itemId := Post(post.commentCount, newCount)];
        r := Ok(newCount);
      } else {
        if itemId !in commentLikes {
          return Err(ItemNotFound);
        }
        var newCount := AdjustedLikes(commentLikes[itemId], increment);
        commentLikes := commentLikes[itemId := newCount];
        r := Ok(newCount);
      }
    }
  }

  /** Like, unlike, like again on a fresh store: the answers alternate
      true, false, true. */
  method ToggleSequence(userId: UserId, itemId: ItemId, itemType: ItemType)
    returns (r1: Result<ToggleResult, Error>, r2: Result<ToggleResult, Error>, r3: Result<ToggleResult, Error>)
    requires userId != ""
    ensures r1 == Ok(ToggleResult(true, "liked"))
    ensures r2 == Ok(ToggleResult(false, "unliked"))
    ensures r3 == Ok(ToggleResult(true, "liked"))
  {
    var e := new Engagement();
    r1 := e.ToggleLike(userId, itemId, itemType);
    r2 := e.ToggleLike(userId, itemId, itemType);
    r3 := e.ToggleLike(userId, itemId, itemType);
  }
}
