/**
 * The feed and profile grid (components/PostsList.tsx): the posts shown are
 * those of the active author, compared without regard to case, cut to the
 * limit.
 */
module PostsList {
  import opened Wrappers
  import opened Records
  import opened Text
  import opened Seqs

  /** `isGrid ? profileUsername : username`. */
  function ActiveUsername(isGrid: bool, username: Option<string>, profileUsername: Option<string>): Option<string> {
    if isGrid then profileUsername else username
  }

  /** `p.user?.username && p.user.username.toLowerCase() === active.toLowerCase()`. */
  predicate ByAuthor(p: Post, active: string) {
    p.user.Some? && Truthy(p.user.value.username) && ToLower(p.user.value.username.value) == ToLower(active)
  }

  /** The author filter: every post when there is no active author, else exactly that author's posts. */
  function ByActiveAuthor(posts: seq<Post>, active: Option<string>): (r: seq<Post>)
    ensures !Truthy(active) ==> r == posts
    ensures Truthy(active) ==> forall p :: p in r <==> p in posts && ByAuthor(p, active.value)
    ensures IsSubsequence(r, posts)
    ensures Truthy(active) ==>
      forall p :: multiset(r)[p] == if ByAuthor(p, active.value) then multiset(posts)[p] else 0
  {
    if !Truthy(active) then
      SubsequenceRefl(posts);
      posts
    else
      var keep := (p: Post) => ByAuthor(p, active.value);
      FilterCounts(posts, keep);
      Filter(posts, keep)
  }

  /** Where `slice(0, limit)` ends: a negative limit counts back from the end. */
  function SliceEnd(length: nat, limit: int): (k: nat)
    ensures k <= length
    ensures 0 <= limit <= length ==> k == limit
    ensures limit > length ==> k == length
    ensures limit < 0 && -limit <= length ==> length - k == -limit
    ensures limit < 0 && -limit > length ==> k == 0
  {
    if limit >= 0 then Min(limit, length)
    else if length + limit < 0 then 0 else length + limit
  }

  /**
   * The `filteredPosts` memo: nothing without posts; the active author's
   * posts, or all of them without one; then, for a non-zero limit, the first
   * entries up to where `slice(0, limit)` ends. A zero or absent limit keeps
   * everything.
   */
  function FilteredPosts(posts: Option<seq<Post>>, isGrid: bool, username: Option<string>,
                         profileUsername: Option<string>, limit: Option<int>): (r: seq<Post>)
    ensures posts.None? || posts.value == [] ==> r == []
    ensures posts.Some? ==> IsSubsequence(r, posts.value)
    ensures limit.Some? && limit.value > 0 ==> |r| <= limit.value
    ensures posts.Some? && (limit.None? || limit.value == 0) ==>
      r == ByActiveAuthor(posts.value, ActiveUsername(isGrid, username, profileUsername))
    ensures posts.Some? && limit.Some? && limit.value != 0 ==>
      var all := ByActiveAuthor(posts.value, ActiveUsername(isGrid, username, profileUsername));
      r == all[..SliceEnd(|all|, limit.value)]
  {
    if posts.None? || posts.value == [] then []
    else
      var all := ByActiveAuthor(posts.value, ActiveUsername(isGrid, username, profileUsername));
      if limit.Some? && limit.value != 0 then
        SubsequencePrefix(all, posts.value, SliceEnd(|all|, limit.value));
        all[..SliceEnd(|all|, limit.value)]
      else all
  }

  /**
   * Without a limit and with an active author, a post is shown exactly when it
   * is in the feed and its author's username matches, ignoring case.
   */
  lemma ShownIffByAuthor(posts: seq<Post>, isGrid: bool, username: Option<string>,
                         profileUsername: Option<string>, p: Post)
    requires Truthy(ActiveUsername(isGrid, username, profileUsername))
    ensures var active := ActiveUsername(isGrid, username, profileUsername).value;
            p in FilteredPosts(Some(posts), isGrid, username, profileUsername, None) <==>
            p in posts && ByAuthor(p, active)
  {
  }

  /** A post with no username is never shown under an active author. */
  lemma NoUsernameHidden(posts: seq<Post>, active: string, p: Post)
    requires Truthy(Some(active)) && p.user.Some? && p.user.value.username.None?
    ensures p !in ByActiveAuthor(posts, Some(active))
  {
  }
}
