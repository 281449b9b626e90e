/**
 * The profile editor (components/EditProfileModal.tsx): the username is
 * normalised and checked against the authors of the stored posts, the new
 * name and avatar go to the identity provider, and the author fields of the
 * user's posts, comments and notifications in the device store are rewritten
 * to match.
 */
module EditProfile {
  import opened Wrappers
  import opened Records
  import opened Text
  import opened Storage

  // ---------------------------------------------------------------------------
  // Validation
  // ---------------------------------------------------------------------------

  /** `value.trim().toLowerCase()`. */
  function NormalizeUsername(s: string): (r: string)
    ensures |r| <= |s|
    ensures forall i :: 0 <= i < |r| ==> !('A' <= r[i] <= 'Z')
    ensures r == [] <==> forall k :: 0 <= k < |s| ==> IsSpace(s[k])
  {
    var t := Trim(s);
    assert |ToLower(t)| == |t|;
    ToLower(t)
  }

  /** Lower-casing keeps a trimmed string trimmed: no letter is white space. */
  lemma ToLowerKeepsTrimmed(s: string)
    requires IsTrimmed(s)
    ensures IsTrimmed(ToLower(s))
  {
  }

  /** Normalising a normalised username changes nothing. */
  lemma NormalizeUsernameIdempotent(s: string)
    ensures NormalizeUsername(NormalizeUsername(s)) == NormalizeUsername(s)
  {
    var t := Trim(s);
    ToLowerKeepsTrimmed(t);
    TrimOfTrimmed(ToLower(t));
    ToLowerIdempotent(t);
  }

  /**
   * `p.user?.id !== editorId && p.user?.username?.toLowerCase() === name`:
   * a post whose author is someone else and has the name, ignoring case.
   */
  predicate TakenBy(p: Post, editorId: string, name: string) {
    p.user.Some? && p.user.value.id != editorId &&
    p.user.value.username.Some? && ToLower(p.user.value.username.value) == name
  }

  /** `posts.some(...)`: some stored post shows another author with the name. */
  function UsernameTaken(posts: seq<Post>, editorId: string, name: string): (r: bool)
    ensures r <==> exists i :: 0 <= i < |posts| && TakenBy(posts[i], editorId, name)
  {
    if posts == [] then false
    else
      TakenBy(posts[0], editorId, name) || UsernameTaken(posts[1..], editorId, name)
  }

  /** A name nobody else uses stays free when the editor's own posts carry it. */
  lemma OwnPostsNeverCollide(posts: seq<Post>, editorId: string, name: string)
    requires forall i :: 0 <= i < |posts| && posts[i].user.Some? ==> posts[i].user.value.id == editorId
    ensures !UsernameTaken(posts, editorId, name)
  {
  }

  // ---------------------------------------------------------------------------
  // Avatar upload
  // ---------------------------------------------------------------------------

  /** The file handed to the identity provider: `{uri, name: "profile.<ext>", type}`. */
  datatype AvatarFile = AvatarFile(uri: string, name: string, mimeType: string)

  /** `avatar.split(".").pop() || "jpg"`. */
  function AvatarExtension(avatar: string): (ext: string)
    ensures '.' !in ext && ext != []
    ensures ext == LastSegment(avatar, '.') || (LastSegment(avatar, '.') == [] && ext == "jpg")
  {
    var last := LastSegment(avatar, '.');
    if last == [] then "jpg" else last
  }

  /** The MIME type of an extension: PNG, JPEG for "jpg" and "jpeg", any image otherwise. */
  function MimeType(ext: string): (t: string)
    ensures t == "image/png" <==> ext == "png"
    ensures t == "image/jpeg" <==> ext == "jpg" || ext == "jpeg"
    ensures t != "image/png" && t != "image/jpeg" ==> t == "image/*"
  {
    if ext == "png" then "image/png"
    else if ext == "jpg" || ext == "jpeg" then "image/jpeg"
    else "image/*"
  }

  function AvatarUpload(avatar: string): (f: AvatarFile)
    ensures f.uri == avatar && f.name == "profile." + AvatarExtension(avatar)
    ensures f.mimeType == MimeType(AvatarExtension(avatar))
  {
    var ext := AvatarExtension(avatar);
    AvatarFile(avatar, "profile." + ext, MimeType(ext))
  }

  /** A picture whose name ends in a dot, or is empty, is sent as a JPEG named "profile.jpg". */
  lemma NoExtensionIsJpeg(avatar: string)
    requires avatar == [] || avatar[|avatar| - 1] == '.'
    ensures AvatarUpload(avatar).name == "profile.jpg" && AvatarUpload(avatar).mimeType == "image/jpeg"
  {
    assert AvatarExtension(avatar) == "jpg" by {
      assert LastSegment(avatar, '.') == [];
    }
    JpegFile();
  }

  /** The file name and type for the "jpg" extension. */
  lemma JpegFile()
    ensures "profile." + "jpg" == "profile.jpg" && MimeType("jpg") == "image/jpeg"
  {
  }

  /** `avatar && avatar !== user.imageUrl`: a new, non-empty picture is uploaded. */
  predicate ShouldUpload(avatar: Option<string>, imageUrl: Option<string>) {
    Truthy(avatar) && (imageUrl.None? || avatar.value != imageUrl.value)
  }

  // ---------------------------------------------------------------------------
  // Rewriting the author fields
  // ---------------------------------------------------------------------------

  /** The author fields written everywhere: username, display name and avatar (`null` as `None`). */
  datatype Author = Author(username: string, displayName: string, avatar: Option<string>)

  /** The embedded user record of an author with the given id. */
  function AuthorRef(id: string, a: Author): UserRef {
    UserRef(id, Some(a.username), Some(a.displayName), a.avatar)
  }

  /** The posts `map`: `p.user.id` throws for a post without a user. */
  function RewritePost(p: Post, editorId: string, a: Author): Post
    requires p.user.Some?
  {
    if p.user.value.id == editorId then p.(user := Some(AuthorRef(editorId, a))) else p
  }

  /**
   * The posts rewrite: `None` when some post has no user (the `map` throws
   * and nothing is written); otherwise the editor's posts carry the new author
   * fields, with nothing else changed, and every other post is as it was.
   */
  function RewritePosts(posts: seq<Post>, editorId: string, a: Author): (r: Option<seq<Post>>)
    ensures r.Some? <==> forall i :: 0 <= i < |posts| ==> posts[i].user.Some?
    ensures r.Some? ==> |r.value| == |posts|
    ensures r.Some? ==> forall i :: 0 <= i < |posts| ==>
      r.value[i].(user := posts[i].user) == posts[i] &&
      r.value[i].user.Some? && r.value[i].user.value.id == posts[i].user.value.id
    ensures r.Some? ==> forall i :: 0 <= i < |posts| && posts[i].user.value.id == editorId ==>
      r.value[i].user == Some(AuthorRef(editorId, a))
    ensures r.Some? ==> forall i :: 0 <= i < |posts| && posts[i].user.value.id != editorId ==>
      r.value[i] == posts[i]
  {
    if exists i :: 0 <= i < |posts| && posts[i].user.None? then None
    else Some(seq(|posts|, i requires 0 <= i < |posts| => RewritePost(posts[i], editorId, a)))
  }

  /** Rewriting the posts a second time with the same fields changes nothing. */
  lemma RewritePostsIdempotent(posts: seq<Post>, editorId: string, a: Author)
    requires RewritePosts(posts, editorId, a).Some?
    ensures var once := RewritePosts(posts, editorId, a).value;
            RewritePosts(once, editorId, a) == Some(once)
  {
    var once := RewritePosts(posts, editorId, a).value;
    var twice := RewritePosts(once, editorId, a).value;
    assert twice == once;
  }

  /** `c.user?.id === editorId || c.userId === editorId`. */
  predicate ByEditor(c: Comment, editorId: string) {
    (c.user.Some? && c.user.value.id == editorId) || c.userId == Some(editorId)
  }

  /** One comment of the comments rewrite. */
  function RewriteComment(c: Comment, editorId: string, a: Author): Comment {
    if ByEditor(c, editorId) then
      c.(user := Some(AuthorRef(editorId, a)),
         username := Some(a.username), displayName := Some(a.displayName), avatar := a.avatar)
    else c
  }

  /**
   * The comments rewrite of one list: a comment is changed exactly when the
   * editor wrote it, and then only in its author fields.
   */
  function RewriteComments(comments: seq<Comment>, editorId: string, a: Author): (r: seq<Comment>)
    ensures |r| == |comments|
    ensures forall i :: 0 <= i < |r| ==> (r[i] != comments[i] ==> ByEditor(comments[i], editorId))
    ensures forall i :: 0 <= i < |r| ==>
      r[i].id == comments[i].id && r[i].text == comments[i].text &&
      r[i].userId == comments[i].userId && r[i].createdAt == comments[i].createdAt
    ensures forall i :: 0 <= i < |r| && ByEditor(comments[i], editorId) ==>
      r[i].user == Some(AuthorRef(editorId, a)) &&
      r[i].username == Some(a.username) && r[i].displayName == Some(a.displayName) && r[i].avatar == a.avatar
  {
    seq(|comments|, i requires 0 <= i < |comments| => RewriteComment(comments[i], editorId, a))
  }

  /** Rewriting the comments a second time with the same fields changes nothing. */
  lemma RewriteCommentsIdempotent(comments: seq<Comment>, editorId: string, a: Author)
    ensures RewriteComments(RewriteComments(comments, editorId, a), editorId, a) == RewriteComments(comments, editorId, a)
  {
    var once := RewriteComments(comments, editorId, a);
    var twice := RewriteComments(once, editorId, a);
    forall i | 0 <= i < |once|
      ensures twice[i] == once[i]
    {
      if ByEditor(comments[i], editorId) {
        assert ByEditor(once[i], editorId);
      }
    }
  }

  /** The comment store after the rewrite: every list under a "@comments:" key rewritten. */
  function RewriteCommentStore(m: map<string, seq<Comment>>, editorId: string, a: Author): map<string, seq<Comment>> {
    map k | k in m :: if StartsWith(k, CommentsPrefix) then RewriteComments(m[k], editorId, a) else m[k]
  }

  /** One notification of the notifications rewrite. */
  function RewriteNotification(n: Notification, editorId: string, a: Author): Notification {
    if n.userId == Some(editorId) then
      n.(username := Some(a.username), displayName := Some(a.displayName), avatar := a.avatar)
    else n
  }

  /**
   * The notifications rewrite: those about the editor get the new author
   * fields and nothing else changes; the others are as they were.
   */
  function RewriteNotifications(ns: seq<Notification>, editorId: string, a: Author): (r: seq<Notification>)
    ensures |r| == |ns|
    ensures forall i :: 0 <= i < |r| && ns[i].userId != Some(editorId) ==> r[i] == ns[i]
    ensures forall i :: 0 <= i < |r| && ns[i].userId == Some(editorId) ==>
      r[i].(username := ns[i].username, displayName := ns[i].displayName, avatar := ns[i].avatar) == ns[i] &&
      r[i].username == Some(a.username) && r[i].displayName == Some(a.displayName) && r[i].avatar == a.avatar
  {
    seq(|ns|, i requires 0 <= i < |ns| => RewriteNotification(ns[i], editorId, a))
  }

  /** Rewriting the notifications a second time with the same fields changes nothing. */
  lemma RewriteNotificationsIdempotent(ns: seq<Notification>, editorId: string, a: Author)
    ensures RewriteNotifications(RewriteNotifications(ns, editorId, a), editorId, a) == RewriteNotifications(ns, editorId, a)
  {
  }

  // ---------------------------------------------------------------------------
  // The editor
  // ---------------------------------------------------------------------------

  /** How a save ends. */
  /**
   * The author fields a save writes from the form and the picture: the
   * reloaded metadata username, else the normalised one; the trimmed names
   * joined; the reloaded picture, else the chosen one.
   */
  function SavedAuthor(form: map<string, string>, avatar: Option<string>,
                       reloadedUsername: Option<string>, reloadedImageUrl: Option<string>): Author
    requires "username" in form && "firstName" in form && "lastName" in form
  {
    Author(Or(reloadedUsername, NormalizeUsername(form["username"])),
           Trim(Trim(form["firstName"]) + " " + Trim(form["lastName"])),
           if Truthy(reloadedImageUrl) then reloadedImageUrl else avatar)
  }

  datatype SaveOutcome = NoUser | EmptyUsername | UsernameInUse | Failed | Saved

  /**
   * How a save by a signed-in user ends, given the normalised username, the
   * stored posts and whether the provider accepted the update: an empty name
   * and a name another author's post shows are rejected first; past those
   * checks the save succeeds iff the provider does and every post has a user.
   */
  function SaveDecision(name: string, posts: seq<Post>, editorId: string, providerOk: bool): (r: SaveOutcome)
    ensures r != NoUser
    ensures r == EmptyUsername <==> name == []
    ensures r == UsernameInUse <==> name != [] && UsernameTaken(posts, editorId, name)
    ensures r == Saved <==>
      name != [] && !UsernameTaken(posts, editorId, name) && providerOk &&
      forall i :: 0 <= i < |posts| ==> posts[i].user.Some?
    ensures r == Failed <==>
      name != [] && !UsernameTaken(posts, editorId, name) &&
      (!providerOk || exists i :: 0 <= i < |posts| && posts[i].user.None?)
  {
    if name == [] then EmptyUsername
    else if UsernameTaken(posts, editorId, name) then UsernameInUse
    else if providerOk && forall i :: 0 <= i < |posts| ==> posts[i].user.Some? then Saved
    else Failed
  }

  /**
   * The editor's state: the form (`username`, `firstName`, `lastName` and
   * any other field typed into), the chosen avatar and the busy flag.
   */
  class ProfileEditor {
    const user: Option<ProviderUser>
    const store: Store
    var formData: map<string, string>
    var avatar: Option<string>
    var isUpdating: bool

    /** The form always has its three fields. */
    predicate Valid()
      reads this`formData
    {
      "username" in formData && "firstName" in formData && "lastName" in formData
    }

    /**
     * The form starts from the provider's user: the metadata username, else
     * the account username, else empty; the names, else empty; the picture,
     * else none.
     */
    constructor (user: Option<ProviderUser>, store: Store)
      ensures Valid()
      ensures this.user == user && this.store == store
      ensures user.None? ==> formData == map["username" := "", "firstName" := "", "lastName" := ""] && avatar == None
      ensures user.Some? ==>
        formData == map["username" := Or(user.value.metadataUsername, Or(user.value.username, "")),
                        "firstName" := Or(user.value.firstName, ""),
                        "lastName" := Or(user.value.lastName, "")] &&
        avatar == (if Truthy(user.value.imageUrl) then user.value.imageUrl else None)
      ensures !isUpdating
    {
      this.user := user;
      this.store := store;
      if user.None? {
        formData := map["username" := "", "firstName" := "", "lastName" := ""];
        avatar := None;
      } else {
        var u := user.value;
        formData := map["username" := Or(u.metadataUsername, Or(u.username, "")),
                        "firstName" := Or(u.firstName, ""),
                        "lastName" := Or(u.lastName, "")];
        avatar := if Truthy(u.imageUrl) then u.imageUrl else None;
      }
      isUpdating := false;
    }

    /** `updateFormField`: only the named field changes. */
    method UpdateFormField(field: string, value: string)
      requires Valid()
      modifies this`formData
      ensures Valid()
      ensures formData == old(formData)[field := value]
    {
      formData := formData[field := value];
    }

    /** `pickImage` once a picture is chosen. */
    method PickImage(uri: string)
      modifies this`avatar
      ensures avatar == Some(uri)
    {
      avatar := Some(uri);
    }

    /** The loop over the "@comments:" keys: each stored list under such a key is rewritten. */
    method RewriteAllComments(editorId: string, a: Author)
      modifies store`comments
      ensures store.comments == RewriteCommentStore(old(store.comments), editorId, a)
    {
      ghost var start := store.comments;
      var keys := set k | k in store.comments && StartsWith(k, CommentsPrefix);
      while keys != {}
        invariant store.comments.Keys == start.Keys
        invariant forall k :: k in keys ==> k in start && StartsWith(k, CommentsPrefix)
        invariant forall k :: k in start ==>
          store.comments[k] == if StartsWith(k, CommentsPrefix) && k !in keys then RewriteComments(start[k], editorId, a) else start[k]
        decreases |keys|
      {
        var k :| k in keys;
        store.comments := store.comments[k := RewriteComments(store.comments[k], editorId, a)];
        keys := keys - {k};
      }
      assert store.comments == RewriteCommentStore(start, editorId, a);
    }

    /** The three writes of a save whose posts rewrite succeeds: posts, comments, notifications. */
    method WriteAuthorFields(editorId: string, a: Author)
      requires RewritePosts(ListOrEmpty(store.posts, PostsKey), editorId, a).Some?
      modifies store`posts, store`comments, store`notifications
      ensures store.posts == old(store.posts)[PostsKey := RewritePosts(ListOrEmpty(old(store.posts), PostsKey), editorId, a).value]
      ensures store.comments == RewriteCommentStore(old(store.comments), editorId, a)
      ensures store.notifications == old(store.notifications)[NotificationsKey :=
        RewriteNotifications(ListOrEmpty(old(store.notifications), NotificationsKey), editorId, a)]
    {
      store.posts := store.posts[PostsKey := RewritePosts(ListOrEmpty(store.posts, PostsKey), editorId, a).value];
      RewriteAllComments(editorId, a);
      var notifications := ListOrEmpty(store.notifications, NotificationsKey);
      store.notifications := store.notifications[NotificationsKey := RewriteNotifications(notifications, editorId, a)];
    }

    /**
     * The writes of `saveProfile` after the provider update, with the author
     * fields `a` of user `id`: they happen iff the provider succeeded and
     * every stored post has a user (the posts `map` throws otherwise, before
     * any write).
     */
    method Commit(providerOk: bool, id: string, a: Author) returns (outcome: SaveOutcome)
      modifies store`posts, store`comments, store`notifications
      ensures var posts := ListOrEmpty(old(store.posts), PostsKey);
        outcome == if providerOk && forall i :: 0 <= i < |posts| ==> posts[i].user.Some? then Saved else Failed
      ensures outcome == Failed ==>
        store.posts == old(store.posts) && store.comments == old(store.comments) &&
        store.notifications == old(store.notifications)
      ensures outcome == Saved ==>
        var posts := RewritePosts(ListOrEmpty(old(store.posts), PostsKey), id, a);
        posts.Some? &&
        store.posts == old(store.posts)[PostsKey := posts.value] &&
        store.comments == RewriteCommentStore(old(store.comments), id, a) &&
        store.notifications == old(store.notifications)[NotificationsKey :=
          RewriteNotifications(ListOrEmpty(old(store.notifications), NotificationsKey), id, a)]
    {
      if !providerOk {
        return Failed;
      }
      var updatedPosts := RewritePosts(ListOrEmpty(store.posts, PostsKey), id, a);
      if updatedPosts.None? {
        return Failed;
      }
      WriteAuthorFields(id, a);
      outcome := Saved;
    }

    /**
     * `saveProfile` once the username passed its checks: the picture is
     * uploaded when the provider accepted the update and the picture changed,
     * and the author fields are written as `Commit` says.
     */
    method SaveChecked(providerOk: bool, reloadedUsername: Option<string>, reloadedImageUrl: Option<string>)
      returns (outcome: SaveOutcome, upload: Option<AvatarFile>)
      requires Valid() && user.Some?
      modifies store`posts, store`comments, store`notifications
      ensures var posts := ListOrEmpty(old(store.posts), PostsKey);
        outcome == if providerOk && forall i :: 0 <= i < |posts| ==> posts[i].user.Some? then Saved else Failed
      ensures upload == if providerOk && ShouldUpload(avatar, user.value.imageUrl) then Some(AvatarUpload(avatar.value)) else None
      ensures outcome == Failed ==>
        store.posts == old(store.posts) && store.comments == old(store.comments) &&
        store.notifications == old(store.notifications)
      ensures outcome == Saved ==>
        var a := SavedAuthor(formData, avatar, reloadedUsername, reloadedImageUrl);
        var posts := RewritePosts(ListOrEmpty(old(store.posts), PostsKey), user.value.id, a);
        posts.Some? &&
        store.posts == old(store.posts)[PostsKey := posts.value] &&
        store.comments == RewriteCommentStore(old(store.comments), user.value.id, a) &&
        store.notifications == old(store.notifications)[NotificationsKey :=
          RewriteNotifications(ListOrEmpty(old(store.notifications), NotificationsKey), user.value.id, a)]
    {
      upload := None;
      if providerOk && ShouldUpload(avatar, user.value.imageUrl) {
        upload := Some(AvatarUpload(avatar.value));
      }
      outcome := Commit(providerOk, user.value.id, SavedAuthor(formData, avatar, reloadedUsername, reloadedImageUrl));
    }

    /**
     * `saveProfile`. `providerOk` says whether the provider accepted the
     * update (and the picture, and the reload); `reloadedUsername` and
     * `reloadedImageUrl` are what the reloaded user then holds. The returned
     * file is the picture handed to the provider, if any.
     *
     * Without a user nothing happens. An empty normalised username, or one
     * another author's post shows, is rejected with nothing written. Past
     * those checks the save ends `Saved` iff the provider succeeds and every
     * stored post has a user, and only then are the posts, every comment list
     * and the notifications rewritten with the new author fields; the picture
     * is uploaded iff the provider succeeds and the picture changed.
     */
    method SaveProfile(providerOk: bool, reloadedUsername: Option<string>, reloadedImageUrl: Option<string>)
      returns (outcome: SaveOutcome, upload: Option<AvatarFile>)
      requires Valid()
      modifies this`isUpdating, store`posts, store`comments, store`notifications
      ensures user.None? ==> outcome == NoUser && upload == None && isUpdating == old(isUpdating)
      ensures user.Some? ==>
        !isUpdating &&
        outcome == SaveDecision(NormalizeUsername(formData["username"]), ListOrEmpty(old(store.posts), PostsKey), user.value.id, providerOk)
      ensures upload ==
        if (outcome == Saved || outcome == Failed) && providerOk && ShouldUpload(avatar, user.value.imageUrl)
        then Some(AvatarUpload(avatar.value)) else None
      ensures outcome != Saved ==>
        store.posts == old(store.posts) && store.comments == old(store.comments) &&
        store.notifications == old(store.notifications)
      ensures outcome == Saved ==>
        var a := SavedAuthor(formData, avatar, reloadedUsername, reloadedImageUrl);
        var posts := RewritePosts(ListOrEmpty(old(store.posts), PostsKey), user.value.id, a);
        posts.Some? &&
        store.posts == old(store.posts)[PostsKey := posts.value] &&
        store.comments == RewriteCommentStore(old(store.comments), user.value.id, a) &&
        store.notifications == old(store.notifications)[NotificationsKey :=
          RewriteNotifications(ListOrEmpty(old(store.notifications), NotificationsKey), user.value.id, a)]
    {
      if user.None? {
        return NoUser, None;
      }
      isUpdating := true;
      var newUsername := NormalizeUsername(formData["username"]);
      if newUsername == [] {
        isUpdating := false;
        return EmptyUsername, None;
      }
      if UsernameTaken(ListOrEmpty(store.posts, PostsKey), user.value.id, newUsername) {
        isUpdating := false;
        return UsernameInUse, None;
      }
      assert store.posts == old(store.posts) && store.comments == old(store.comments) &&
        store.notifications == old(store.notifications);
      outcome, upload := SaveChecked(providerOk, reloadedUsername, reloadedImageUrl);
      isUpdating := false;
    }
  }

  /**
   * The display name written by a save: the two trimmed names joined by one
   * space, or the one that is present.
   */
  lemma DisplayNameJoin(first: string, last: string)
    ensures var f, l := Trim(first), Trim(last);
            Trim(f + " " + l) == if f == [] then l else if l == [] then f else f + " " + l
  {
    TrimJoin(Trim(first), Trim(last));
  }
}
