/**
 * One post in the feed (components/PostCard.tsx): its relative time, liking
 * and unliking (directly or by a double tap on the image), commenting and
 * deleting. The card keeps the liked flag, the like count, the comments and
 * the time of the last tap; the handlers read, change and write back the
 * "posts" and "@comments:<post id>" lists of the device store.
 */
module PostCard {
  import opened Wrappers
  import opened Records
  import opened Text
  import opened Seqs
  import opened Storage
  import opened Notifications

  // ---------------------------------------------------------------------------
  // Relative time
  // ---------------------------------------------------------------------------

  /** The buckets of `formatInstagramTime`. */
  datatype PostAge =
    | JustNow
    | OneMinute
    | Minutes(minutes: nat)
    | OneHour
    | Hours(hours: nat)
    | OneDay
    | Days(days: nat)
    | OnDate(timestamp: int)

  const MinuteMs: int := 60000
  const HourMs: int := 3600000
  const DayMs: int := 86400000

  /**
   * `formatInstagramTime(timestamp)` with `Date.now()` passed in as `now`:
   * the elapsed time in whole minutes below an hour, whole hours below a day,
   * whole days below a week, and the calendar date after that.
   */
  function FormatInstagramTime(timestamp: int, now: int): (r: PostAge)
    ensures var diff := now - timestamp;
      (r == JustNow <==> diff < MinuteMs) &&
      (r == OneMinute <==> MinuteMs <= diff < 2 * MinuteMs) &&
      (r.Minutes? <==> 2 * MinuteMs <= diff < HourMs) &&
      (r.Minutes? ==> r.minutes * MinuteMs <= diff < (r.minutes + 1) * MinuteMs) &&
      (r == OneHour <==> HourMs <= diff < 2 * HourMs) &&
      (r.Hours? <==> 2 * HourMs <= diff < DayMs) &&
      (r.Hours? ==> r.hours * HourMs <= diff < (r.hours + 1) * HourMs) &&
      (r == OneDay <==> DayMs <= diff < 2 * DayMs) &&
      (r.Days? <==> 2 * DayMs <= diff < 7 * DayMs) &&
      (r.Days? ==> r.days * DayMs <= diff < (r.days + 1) * DayMs) &&
      (r.OnDate? <==> 7 * DayMs <= diff) &&
      (r.OnDate? ==> r.timestamp == timestamp)
  {
    var diff := now - timestamp;
    // Dafny's `/` rounds down for a positive divisor, as `Math.floor(x / d)` does.
    var minutes := diff / 60000;
    var hours := minutes / 60;
    var days := hours / 24;
    if minutes < 1 then JustNow
    else if minutes == 1 then OneMinute
    else if minutes < 60 then Minutes(minutes)
    else if hours == 1 then OneHour
    else if hours < 24 then Hours(hours)
    else if days == 1 then OneDay
    else if days < 7 then Days(days)
    else OnDate(timestamp)
  }

  /**
   * The text of a bucket; the calendar date is written by the locale's date
   * formatter, which is not part of this model.
   */
  function Caption(age: PostAge): Option<string> {
    match age
    case JustNow => Some("agora")
    case OneMinute => Some("há 1 min")
    case Minutes(n) => Some("há " + NatToString(n) + " min")
    case OneHour => Some("há 1 h")
    case Hours(n) => Some("há " + NatToString(n) + " h")
    case OneDay => Some("há 1 d")
    case Days(n) => Some("há " + NatToString(n) + " d")
    case OnDate(_) => None
  }

  /** The count a caption shows: one for the singular buckets. */
  function CaptionCount(age: PostAge): nat {
    match age
    case Minutes(n) => n
    case Hours(n) => n
    case Days(n) => n
    case _ => 1
  }

  /**
   * The last character of a caption names its unit, and between "há " and
   * the unit stands the count.
   */
  lemma CaptionShape(age: PostAge)
    ensures Caption(age).Some? <==> !age.OnDate?
    ensures Caption(age).Some? ==>
      var s := Caption(age).value;
      var width := if age == OneMinute || age.Minutes? then 4 else 2;
      |s| >= 5 &&
      (s[|s| - 1] == 'a' <==> age == JustNow) &&
      (s[|s| - 1] == 'n' <==> age == OneMinute || age.Minutes?) &&
      (s[|s| - 1] == 'h' <==> age == OneHour || age.Hours?) &&
      (s[|s| - 1] == 'd' <==> age == OneDay || age.Days?) &&
      (age != JustNow ==> s[3..|s| - width] == NatToString(CaptionCount(age)))
  {
    var one := NatToString(1);
    assert one == "1";
    match age
    case JustNow =>
    case OneMinute =>
      assert Caption(age).value == "há " + one + " min";
    case Minutes(n) =>
      assert Caption(age).value == "há " + NatToString(n) + " min";
    case OneHour =>
      assert Caption(age).value == "há " + one + " h";
    case Hours(n) =>
      assert Caption(age).value == "há " + NatToString(n) + " h";
    case OneDay =>
      assert Caption(age).value == "há " + one + " d";
    case Days(n) =>
      assert Caption(age).value == "há " + NatToString(n) + " d";
    case OnDate(_) =>
  }

  /** The minutes, hours or days of a plural bucket are at least two. */
  lemma PluralCountsTwo(t: int, now: int)
    ensures var age := FormatInstagramTime(t, now);
      (age.Minutes? ==> age.minutes >= 2) &&
      (age.Hours? ==> age.hours >= 2) &&
      (age.Days? ==> age.days >= 2)
  {
  }

  /**
   * Two posts whose ages have a caption show the same caption only when they
   * fall in the same bucket with the same count: a caption is never
   * ambiguous, because a plural bucket always counts at least two.
   */
  lemma {:induction false} CaptionDistinct(t1: int, t2: int, now: int)
    requires Caption(FormatInstagramTime(t1, now)).Some?
    requires Caption(FormatInstagramTime(t1, now)) == Caption(FormatInstagramTime(t2, now))
    ensures FormatInstagramTime(t1, now) == FormatInstagramTime(t2, now)
  {
    var a, b := FormatInstagramTime(t1, now), FormatInstagramTime(t2, now);
    CaptionShape(a);
    CaptionShape(b);
    PluralCountsTwo(t1, now);
    PluralCountsTwo(t2, now);
    if a != JustNow {
      NatToStringInjective(CaptionCount(a), CaptionCount(b));
    }
  }

  // ---------------------------------------------------------------------------
  // Likes
  // ---------------------------------------------------------------------------

  /**
   * The likes of one post after a toggle: the liker's entry appended when
   * liking, every entry with the liker's id removed when unliking.
   */
  function ToggledLikes(likes: seq<UserRef>, liker: CurrentUser, like: bool): (r: seq<UserRef>)
    ensures like ==> |r| == |likes| + 1 && r[..|likes|] == likes && r[|likes|] == ActorRef(liker)
    ensures !like ==> forall u :: u in r <==> u in likes && u.id != liker.id
    ensures !like ==> IsSubsequence(r, likes)
    ensures !like ==> forall u :: multiset(r)[u] == if u.id != liker.id then multiset(likes)[u] else 0
  {
    if like then likes + [ActorRef(liker)]
    else
      var keep := (u: UserRef) => u.id != liker.id;
      FilterCounts(likes, keep);
      Filter(likes, keep)
  }

  /**
   * Every post with the given id has a likes array; otherwise the spread or
   * the `filter` in the update throws.
   */
  predicate LikesPresent(posts: seq<Post>, postId: string) {
    forall i :: 0 <= i < |posts| && posts[i].id == postId ==> posts[i].likes.Some?
  }

  /**
   * The `map` of `handleLikePost` over the stored posts: `None` when it would
   * throw, otherwise the list in which the posts with the given id have their
   * likes toggled and every other post is as it was.
   */
  function ToggleLikeIn(posts: seq<Post>, postId: string, liker: CurrentUser, like: bool): (r: Option<seq<Post>>)
    ensures r.Some? <==> LikesPresent(posts, postId)
    ensures r.Some? ==> |r.value| == |posts|
    ensures r.Some? ==> forall i :: 0 <= i < |posts| && posts[i].id != postId ==> r.value[i] == posts[i]
    ensures r.Some? ==> forall i :: 0 <= i < |posts| && posts[i].id == postId ==>
      r.value[i].(likes := posts[i].likes) == posts[i] &&
      r.value[i].likes == Some(ToggledLikes(posts[i].likes.value, liker, like))
  {
    if !LikesPresent(posts, postId) then None
    else
      Some(seq(|posts|, i requires 0 <= i < |posts| =>
        if posts[i].id == postId then posts[i].(likes := Some(ToggledLikes(posts[i].likes.value, liker, like)))
        else posts[i]))
  }

  /** On one likes list: unliking after liking restores the list when the liker had no entry. */
  lemma UnlikeUndoesLikeOnList(likes: seq<UserRef>, liker: CurrentUser)
    requires forall u :: u in likes ==> u.id != liker.id
    ensures ToggledLikes(ToggledLikes(likes, liker, true), liker, false) == likes
  {
    var keep := (u: UserRef) => u.id != liker.id;
    assert ToggledLikes(likes, liker, true) == likes + [ActorRef(liker)];
    FilterAppend(likes, [ActorRef(liker)], keep);
    FilterAllKept(likes, keep);
    assert Filter([ActorRef(liker)], keep) == [];
  }

  /**
   * Unliking right after liking gives back the stored posts, provided the
   * liker had no entry in the post's likes before.
   */
  lemma UnlikeUndoesLike(posts: seq<Post>, postId: string, liker: CurrentUser)
    requires LikesPresent(posts, postId)
    requires forall i, u :: 0 <= i < |posts| && posts[i].id == postId && u in posts[i].likes.value ==> u.id != liker.id
    ensures var liked := ToggleLikeIn(posts, postId, liker, true);
            liked.Some? && ToggleLikeIn(liked.value, postId, liker, false) == Some(posts)
  {
    var liked := ToggleLikeIn(posts, postId, liker, true).value;
    assert LikesPresent(liked, postId);
    var back := ToggleLikeIn(liked, postId, liker, false).value;
    forall i | 0 <= i < |posts|
      ensures back[i] == posts[i]
    {
      if posts[i].id == postId {
        UnlikeUndoesLikeOnList(posts[i].likes.value, liker);
        assert back[i].likes == posts[i].likes;
      }
    }
    assert back == posts;
  }

  /** The store after a like or unlike: the updated posts list, or the old store when the update throws. */
  function StoreAfterLike(posts: map<string, seq<Post>>, postId: string, liker: CurrentUser, like: bool): map<string, seq<Post>> {
    var updated := ToggleLikeIn(ListOrEmpty(posts, PostsKey), postId, liker, like);
    if updated.Some? then posts[PostsKey := updated.value] else posts
  }

  /**
   * The notification call after a like: made only when the list was written,
   * the post was liked (not unliked) and its author is someone else; no
   * target is passed, so the call never shows anything.
   */
  function LikeNotice(post: Post, liker: CurrentUser, like: bool, written: bool): (r: Option<Outcome>)
    ensures r.Some? <==> written && like && post.user.Some? && post.user.value.id != liker.id
    ensures r.Some? ==> r.value == Skipped(NoTarget)
  {
    if written && like && post.user.Some? && post.user.value.id != liker.id then
      NoTargetNeverShown(CurrentActor(liker), Liked, Some(post.id), false);
      Some(AddNotification(CurrentActor(liker), Liked, Some(post.id), None, false))
    else None
  }

  // ---------------------------------------------------------------------------
  // Comments and deletion
  // ---------------------------------------------------------------------------

  /** The comment `handleAddComment` builds at time `now`: its id is the time's decimal numeral. */
  function NewComment(text: string, author: CurrentUser, now: nat): Comment {
    Comment(NatToString(now), text, Some(ActorRef(author)), None, now, None, None, None)
  }

  /**
   * The new comment's id is a numeral that reads back as its creation time;
   * it holds the text and its author, and no other author fields.
   */
  lemma NewCommentFields(text: string, author: CurrentUser, now: nat)
    ensures var c := NewComment(text, author, now);
      AllDigits(c.id) && DigitsValue(c.id) == now && c.createdAt == now &&
      c.text == text && c.user == Some(ActorRef(author)) &&
      c.userId.None? && c.username.None? && c.displayName.None? && c.avatar.None?
  {
    NatToStringRoundTrip(now);
  }

  /** `posts.filter(p => p.id !== postId)`. */
  function WithoutPost(posts: seq<Post>, postId: string): (r: seq<Post>)
    ensures forall p :: p in r <==> p in posts && p.id != postId
    ensures IsSubsequence(r, posts)
    ensures forall p :: multiset(r)[p] == if p.id != postId then multiset(posts)[p] else 0
  {
    var keep := (p: Post) => p.id != postId;
    FilterCounts(posts, keep);
    Filter(posts, keep)
  }

  /** `lastTapRef.current && now - lastTapRef.current < 300`: a zero time counts as no tap. */
  predicate IsDoubleTap(lastTap: Option<int>, now: int) {
    lastTap.Some? && lastTap.value != 0 && now - lastTap.value < 300
  }

  // ---------------------------------------------------------------------------
  // The card
  // ---------------------------------------------------------------------------

  class Card {
    const post: Post
    const currentUser: Option<CurrentUser>
    const store: Store
    var liked: bool
    var likeCount: int
    var likers: Option<seq<UserRef>>
    var comments: seq<Comment>
    var commentText: string
    var lastTap: Option<int>

    /**
     * The initial state: liked when the current user has an entry in the
     * post's likes, counting the likes, and showing the post's comments.
     * The post must carry a likes array, which the initial state reads.
     */
    constructor (post: Post, currentUser: Option<CurrentUser>, store: Store)
      requires post.likes.Some?
      ensures this.post == post && this.currentUser == currentUser && this.store == store
      ensures liked <==> currentUser.Some? && exists u :: u in post.likes.value && u.id == currentUser.value.id
      ensures likeCount == |post.likes.value|
      ensures likers == post.likes
      ensures comments == post.comments.GetOr([])
      ensures commentText == "" && lastTap == None
    {
      this.post := post;
      this.currentUser := currentUser;
      this.store := store;
      liked := currentUser.Some? && exists u :: u in post.likes.value && u.id == currentUser.value.id;
      likeCount := |post.likes.value|;
      likers := post.likes;
      comments := post.comments.GetOr([]);
      commentText := "";
      lastTap := None;
    }

    /** `loadComments`: the stored comments of the post, when there are any. */
    method LoadComments()
      modifies this`comments
      ensures CommentsKey(post.id) in store.comments ==> comments == store.comments[CommentsKey(post.id)]
      ensures CommentsKey(post.id) !in store.comments ==> comments == old(comments)
    {
      var key := CommentsKey(post.id);
      if key in store.comments {
        comments := store.comments[key];
      }
    }

    /** `loadLikers`: the likes of the stored post with this post's id, when there is one. */
    method LoadLikers()
      modifies this`likers
      ensures var found := Find(ListOrEmpty(store.posts, PostsKey), (p: Post) => p.id == post.id);
        (found.Some? ==> likers == found.value.likes) && (found.None? ==> likers == old(likers))
    {
      var found := Find(ListOrEmpty(store.posts, PostsKey), (p: Post) => p.id == post.id);
      if found.Some? {
        likers := found.value.likes;
      }
    }

    /**
     * `handleLikePost`: without a current user nothing happens; otherwise the
     * liked flag flips, the count moves by one in the same direction, the
     * stored post's likes are toggled and, for a new like of someone else's
     * post, the notification call is made.
     */
    method HandleLikePost() returns (notice: Option<Outcome>)
      modifies this`liked, this`likeCount, store`posts
      ensures currentUser.None? ==>
        liked == old(liked) && likeCount == old(likeCount) && store.posts == old(store.posts) && notice == None
      ensures currentUser.Some? ==>
        liked == !old(liked) &&
        likeCount == (if liked then old(likeCount) + 1 else old(likeCount) - 1) &&
        store.posts == StoreAfterLike(old(store.posts), post.id, currentUser.value, liked) &&
        notice == LikeNotice(post, currentUser.value, liked, LikesPresent(ListOrEmpty(old(store.posts), PostsKey), post.id))
    {
      if currentUser.None? {
        return None;
      }
      var user := currentUser.value;
      var newLiked := !liked;
      liked := newLiked;
      likeCount := if newLiked then likeCount + 1 else likeCount - 1;
      var updated := ToggleLikeIn(ListOrEmpty(store.posts, PostsKey), post.id, user, newLiked);
      if updated.Some? {
        store.posts := store.posts[PostsKey := updated.value];
      }
      notice := LikeNotice(post, user, newLiked, updated.Some?);
    }

    /**
     * `handleTap` at time `now`: a second tap within 300 ms of a recorded tap
     * likes the post unless it is already liked, and forgets the tap; any
     * other tap is recorded.
     */
    method HandleTap(now: int) returns (notice: Option<Outcome>)
      modifies this`liked, this`likeCount, this`lastTap, store`posts
      ensures !IsDoubleTap(old(lastTap), now) ==>
        lastTap == Some(now) && liked == old(liked) && likeCount == old(likeCount) &&
        store.posts == old(store.posts) && notice == None
      ensures IsDoubleTap(old(lastTap), now) ==> lastTap == None
      ensures IsDoubleTap(old(lastTap), now) && (old(liked) || currentUser.None?) ==>
        liked == old(liked) && likeCount == old(likeCount) && store.posts == old(store.posts) && notice == None
      ensures IsDoubleTap(old(lastTap), now) && !old(liked) && currentUser.Some? ==>
        liked && likeCount == old(likeCount) + 1 &&
        store.posts == StoreAfterLike(old(store.posts), post.id, currentUser.value, true) &&
        notice == LikeNotice(post, currentUser.value, true, LikesPresent(ListOrEmpty(old(store.posts), PostsKey), post.id))
    {
      if IsDoubleTap(lastTap, now) {
        notice := None;
        if !liked {
          notice := HandleLikePost();
        }
        lastTap := None;
        return;
      }
      lastTap := Some(now);
      notice := None;
    }

    /**
     * `handleAddComment` at time `now`: nothing happens when the trimmed text
     * is empty or there is no current user; otherwise one comment holding the
     * trimmed text is appended, stored under the post's comments key, and the
     * input is cleared.
     */
    method HandleAddComment(now: nat) returns (notice: Option<Outcome>)
      modifies this`comments, this`commentText, store`comments
      ensures var text := Trim(old(commentText));
        if text == [] || currentUser.None? then
          comments == old(comments) && commentText == old(commentText) &&
          store.comments == old(store.comments) && notice == None
        else
          comments == old(comments) + [NewComment(text, currentUser.value, now)] &&
          commentText == "" &&
          store.comments == old(store.comments)[CommentsKey(post.id) := comments] &&
          notice == (if post.user.Some? && post.user.value.id != currentUser.value.id then Some(Skipped(NoTarget)) else None)
    {
      var text := Trim(commentText);
      if text == [] || currentUser.None? {
        return None;
      }
      var user := currentUser.value;
      var updated := comments + [NewComment(text, user, now)];
      comments := updated;
      commentText := "";
      store.comments := store.comments[CommentsKey(post.id) := updated];
      notice := None;
      // `post.user.id` throws for a post without a user; the comment is already stored.
      if post.user.Some? && post.user.value.id != user.id {
        NoTargetNeverShown(CurrentActor(user), Commented, Some(post.id), false);
        notice := Some(AddNotification(CurrentActor(user), Commented, Some(post.id), None, false));
      }
    }

    /** `handleDeletePost` once confirmed: every stored post with this post's id is removed. */
    method HandleDeletePost()
      modifies store`posts
      ensures store.posts == old(store.posts)[PostsKey := WithoutPost(ListOrEmpty(old(store.posts), PostsKey), post.id)]
    {
      store.posts := store.posts[PostsKey := WithoutPost(ListOrEmpty(store.posts, PostsKey), post.id)];
    }
  }
}
