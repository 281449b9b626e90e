/**
 * The single-post screen (app/posts-screen.tsx): the stored posts are
 * normalised (missing entries dropped, missing arrays and users filled in)
 * and the post asked for is looked up.
 */
module PostsScreen {
  import opened Wrappers
  import opened Records
  import opened Text
  import opened Seqs

  /** The author shown for a post stored without one. */
  const DefaultUser: UserRef :=
    UserRef("0", Some("usuario"), None, Some("https://cdn-icons-png.flaticon.com/512/149/149071.png"))

  /** One post after normalisation: arrays for likes and comments, and an author. */
  function Normalize(p: Post): (r: Post)
    ensures r.likes == Some(p.likes.GetOr([])) && r.comments == Some(p.comments.GetOr([]))
    ensures r.user == Some(p.user.GetOr(DefaultUser))
    ensures r.id == p.id && r.content == p.content && r.image == p.image && r.createdAt == p.createdAt
  {
    p.(likes := Some(p.likes.GetOr([])), comments := Some(p.comments.GetOr([])), user := Some(p.user.GetOr(DefaultUser)))
  }

  /** A post that has likes, comments and an author. */
  predicate IsNormal(p: Post) {
    p.likes.Some? && p.comments.Some? && p.user.Some?
  }

  /** Normalising a normal post changes nothing. */
  lemma NormalizeKeepsNormal(p: Post)
    requires IsNormal(p)
    ensures Normalize(p) == p
  {
  }

  /** A post as a stored entry. */
  function Entry(p: Post): Option<Post> {
    Some(p)
  }

  /** `Boolean(entry)` for a stored entry: a post is truthy, a missing entry is not. */
  predicate IsPresent(o: Option<Post>) {
    o.Some?
  }

  /**
   * `filter(Boolean)`: the entries that are present, in their order; as
   * entries again, the result is exactly what `filter` keeps.
   */
  function Present(entries: seq<Option<Post>>): (r: seq<Post>)
    ensures |r| <= |entries|
    ensures forall p :: p in r <==> Some(p) in entries
    ensures Map(r, Entry) == Filter(entries, IsPresent)
  {
    if entries == [] then []
    else
      assert entries == [entries[0]] + entries[1..];
      var rest := Present(entries[1..]);
      if entries[0].Some? then
        var r := [entries[0].value] + rest;
        assert Map(r, Entry) == [entries[0]] + Map(rest, Entry);
        r
      else rest
  }

  /**
   * `loadPosts`: no stored list gives no posts; otherwise the present entries,
   * in their order, each normalised.
   */
  function NormalizePosts(stored: Option<seq<Option<Post>>>): (r: seq<Post>)
    ensures stored.None? ==> r == []
    ensures stored.Some? ==> r == Map(Present(stored.value), Normalize)
    ensures forall i :: 0 <= i < |r| ==> IsNormal(r[i])
  {
    if stored.None? then [] else Map(Present(stored.value), Normalize)
  }

  /** Storing the normalised posts and loading them again gives the same posts. */
  lemma {:induction false} NormalizePostsIdempotent(stored: Option<seq<Option<Post>>>)
    ensures var once := NormalizePosts(stored);
            NormalizePosts(Some(Map(once, Entry))) == once
  {
    var once := NormalizePosts(stored);
    var entries := Map(once, Entry);
    PresentAll(once);
    forall i | 0 <= i < |once|
      ensures Normalize(once[i]) == once[i]
    {
      NormalizeKeepsNormal(once[i]);
    }
  }

  /** When every entry is present, none is dropped. */
  lemma {:induction false} PresentAll(posts: seq<Post>)
    ensures Present(Map(posts, Entry)) == posts
  {
    if posts != [] {
      var entries := Map(posts, Entry);
      assert entries[1..] == Map(posts[1..], Entry);
      PresentAll(posts[1..]);
      assert posts == [posts[0]] + posts[1..];
    }
  }

  /**
   * `activePost`: nothing without a (non-empty) id; otherwise the first post
   * with that id, or nothing when there is none.
   */
  function ActivePost(posts: seq<Post>, initialPostId: Option<string>): (r: Option<Post>)
    ensures !Truthy(initialPostId) ==> r.None?
    ensures r.Some? ==>
      exists i :: (0 <= i < |posts| && posts[i] == r.value && r.value.id == initialPostId.value &&
                   forall j :: 0 <= j < i ==> posts[j].id != initialPostId.value)
    ensures Truthy(initialPostId) && r.None? ==> forall i :: 0 <= i < |posts| ==> posts[i].id != initialPostId.value
  {
    if !Truthy(initialPostId) then None
    else Find(posts, (p: Post) => p.id == initialPostId.value)
  }
}
