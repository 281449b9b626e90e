/**
 * Writing a new post (hooks/useCreatePost.ts): the caption is limited to 2200
 * UTF-16 code units, its line breaks become spaces, and the post is put at the
 * front of the stored feed with a "new post" entry added to the stored
 * notifications.
 */
module CreatePost {
  import opened Wrappers
  import opened Records
  import opened Text
  import opened Storage
  import opened Notifications

  /** The longest caption accepted, in UTF-16 code units. */
  const MaxChars: int := 2200

  /** `remainingChars`: negative once the caption is too long. */
  function RemainingChars(content: string): (n: int)
    ensures n >= 0 <==> Utf16Length(content) <= MaxChars
  {
    MaxChars - Utf16Length(content)
  }

  /** `content.replace(/\r?\n|\r/g, " ")`: each CR LF, LF or lone CR becomes one space. */
  function Sanitize(s: string): (r: string)
    ensures '\n' !in r && '\r' !in r
    ensures |r| <= |s|
    decreases |s|
  {
    if s == [] then []
    else if |s| >= 2 && s[0] == '\r' && s[1] == '\n' then " " + Sanitize(s[2..])
    else if s[0] == '\n' || s[0] == '\r' then " " + Sanitize(s[1..])
    else [s[0]] + Sanitize(s[1..])
  }

  /** Text without line breaks is left as it is. */
  lemma {:induction false} SanitizeNoBreaks(s: string)
    requires '\n' !in s && '\r' !in s
    ensures Sanitize(s) == s
  {
    if s != [] {
      SanitizeNoBreaks(s[1..]);
    }
  }

  /** Sanitising twice is sanitising once. */
  lemma SanitizeIdempotent(s: string)
    ensures Sanitize(Sanitize(s)) == Sanitize(s)
  {
    SanitizeNoBreaks(Sanitize(s));
  }

  /**
   * A line of text, a line break and the rest: the line is kept, the break
   * becomes exactly one space. A CR is a break of its own only when no LF
   * follows it.
   */
  lemma {:induction false} SanitizeBreak(line: string, brk: string, rest: string)
    requires '\n' !in line && '\r' !in line
    requires brk == "\r\n" || brk == "\n" || (brk == "\r" && (rest == [] || rest[0] != '\n'))
    ensures Sanitize(line + brk + rest) == line + " " + Sanitize(rest)
  {
    var s := line + brk + rest;
    if line == [] {
      assert s == brk + rest;
      SanitizeLeadingBreak(brk, rest);
    } else {
      var c := line[0];
      assert c in line;
      assert s == [c] + (line[1..] + brk + rest);
      SanitizeKeepsOther(c, line[1..] + brk + rest);
      SanitizeBreak(line[1..], brk, rest);
      assert line == [c] + line[1..];
    }
  }

  /** A character that is not a line break is kept as it is. */
  lemma SanitizeKeepsOther(c: char, t: string)
    requires c != '\n' && c != '\r'
    ensures Sanitize([c] + t) == [c] + Sanitize(t)
  {
    assert ([c] + t)[1..] == t;
  }

  /** A text that starts with a line break: the break becomes one space. */
  lemma SanitizeLeadingBreak(brk: string, rest: string)
    requires brk == "\r\n" || brk == "\n" || (brk == "\r" && (rest == [] || rest[0] != '\n'))
    ensures Sanitize(brk + rest) == " " + Sanitize(rest)
  {
    var s := brk + rest;
    if brk == "\r\n" {
      assert s[0] == '\r' && s[1] == '\n' && s[2..] == rest;
    } else {
      assert s[0] == brk[0] && s[1..] == rest;
    }
  }

  /** The author stored with a post written while signed out. */
  const AnonymousAuthor: UserRef := UserRef("anon", Some("desconhecido"), Some("Usuário"), None)

  /** `currentUser || {anonymous}`: the signed-in user as a post author. */
  function PostAuthor(currentUser: Option<CurrentUser>): UserRef {
    if currentUser.Some? then
      var u := currentUser.value;
      UserRef(u.id, Some(u.username), Some(u.displayName), u.avatar)
    else AnonymousAuthor
  }

  /** The post written at time `now`: its id is the time's decimal numeral; no likes, no comments. */
  function NewPost(content: string, image: Option<string>, currentUser: Option<CurrentUser>, now: nat): Post {
    Post(NatToString(now), Some(PostAuthor(currentUser)), Some(Trim(Sanitize(content))), image, Some([]), Some([]), now)
  }

  /** The one account whose posts raise a local alert on the device. */
  const FeaturedAccount: string := "conectdesigner"

  /** The signed-in user is the featured account. */
  predicate IsFeatured(currentUser: Option<CurrentUser>) {
    currentUser.Some? && currentUser.value.username == FeaturedAccount
  }

  /**
   * The text of the "new post" notification, which always names the featured
   * account: "@conectdesigner criou uma nova publicação 🚀".
   */
  const NewPostMessage: string := "@" + FeaturedAccount + " criou uma nova publicação 🚀"

  /** The stored text is the post message of `addNotification` for that account. */
  lemma NewPostMessageIsPostTemplate()
    ensures NewPostMessage == MessageFor(Posted, FeaturedAccount)
  {
  }

  /** The unread "new post" notification for a post. */
  function NewPostNotification(postId: string, now: nat): Notification {
    Notification(NatToString(now), Posted, NewPostMessage, now, false, Some(postId), None, None, None, None)
  }

  /** The stored caption has no line breaks and no white space at either end. */
  lemma StoredContentClean(content: string, image: Option<string>, currentUser: Option<CurrentUser>, now: nat)
    ensures var c := NewPost(content, image, currentUser, now).content.value;
            '\n' !in c && '\r' !in c && IsTrimmed(c)
  {
  }

  /**
   * The new post's id is the numeral of its creation time, which reads back
   * as that time; it has the signed-in author or the anonymous one, the
   * chosen picture, and no likes or comments.
   */
  lemma NewPostFields(content: string, image: Option<string>, currentUser: Option<CurrentUser>, now: nat)
    ensures var p := NewPost(content, image, currentUser, now);
      AllDigits(p.id) && DigitsValue(p.id) == now && p.createdAt == now &&
      p.user == Some(PostAuthor(currentUser)) && p.image == image &&
      p.likes == Some([]) && p.comments == Some([])
  {
    NatToStringRoundTrip(now);
  }

  /**
   * The notification of a new post is an unread "post" notification, created
   * at the time its id reads back as, pointing at the post, whose text is the
   * "post" message of `addNotification` for the featured account.
   */
  lemma NewPostNotificationFields(postId: string, now: nat)
    ensures var n := NewPostNotification(postId, now);
      AllDigits(n.id) && DigitsValue(n.id) == now && n.createdAt == now &&
      n.kind == Posted && n.message == MessageFor(Posted, FeaturedAccount) &&
      !n.read && n.postId == Some(postId)
  {
    NatToStringRoundTrip(now);
    NewPostMessageIsPostTemplate();
  }

  /** How `createPost` ends; `deviceAlert` is the local alert shown for the one featured account. */
  datatype CreateOutcome = NothingToPost | TooLong | Created(post: Post, deviceAlert: bool)

  /** The composer: the caption, the chosen image and the busy flag. */
  class Composer {
    const currentUser: Option<CurrentUser>
    const store: Store
    var content: string
    var selectedImage: Option<string>
    var isCreating: bool

    constructor (currentUser: Option<CurrentUser>, store: Store)
      ensures this.currentUser == currentUser && this.store == store
      ensures content == "" && selectedImage == None && !isCreating
    {
      this.currentUser := currentUser;
      this.store := store;
      content, selectedImage, isCreating := "", None, false;
    }

    /** `setContent`. */
    method SetContent(text: string)
      modifies this`content
      ensures content == text
    {
      content := text;
    }

    /** `pickImageFromGallery` or `takePhoto` once a picture is chosen. */
    method SelectImage(uri: string)
      modifies this`selectedImage
      ensures selectedImage == Some(uri)
    {
      selectedImage := Some(uri);
    }

    /** `removeImage`. */
    method RemoveImage()
      modifies this`selectedImage
      ensures selectedImage == None
    {
      selectedImage := None;
    }

    /** The two writes of `createPost`: the post first in the feed, its notification last in the list. */
    method StorePost(post: Post, now: nat)
      modifies store`posts, store`notifications
      ensures store.posts == old(store.posts)[PostsKey := [post] + ListOrEmpty(old(store.posts), PostsKey)]
      ensures store.notifications == old(store.notifications)[NotificationsKey :=
        ListOrEmpty(old(store.notifications), NotificationsKey) + [NewPostNotification(post.id, now)]]
    {
      store.posts := store.posts[PostsKey := [post] + ListOrEmpty(store.posts, PostsKey)];
      var notifications := ListOrEmpty(store.notifications, NotificationsKey);
      store.notifications := store.notifications[NotificationsKey := notifications + [NewPostNotification(post.id, now)]];
    }

    /** The part of `createPost` after the checks. */
    method Publish(now: nat) returns (outcome: CreateOutcome)
      modifies this`content, this`selectedImage, this`isCreating, store`posts, store`notifications
      ensures outcome == Created(NewPost(old(content), old(selectedImage), currentUser, now), IsFeatured(currentUser))
      ensures store.posts == old(store.posts)[PostsKey := [outcome.post] + ListOrEmpty(old(store.posts), PostsKey)]
      ensures store.notifications == old(store.notifications)[NotificationsKey :=
        ListOrEmpty(old(store.notifications), NotificationsKey) + [NewPostNotification(outcome.post.id, now)]]
      ensures content == "" && selectedImage == None && !isCreating
    {
      isCreating := true;
      var post := NewPost(content, selectedImage, currentUser, now);
      StorePost(post, now);
      var deviceAlert := IsFeatured(currentUser);
      content := "";
      selectedImage := None;
      isCreating := false;
      outcome := Created(post, deviceAlert);
    }

    /**
     * `createPost` at time `now`: nothing happens without text or image, or
     * with a caption over the limit; otherwise the new post goes to the front
     * of the stored feed, an unread "new post" notification for it goes to the
     * end of the stored notifications, and the composer is cleared.
     */
    method CreatePost(now: nat) returns (outcome: CreateOutcome)
      modifies this`content, this`selectedImage, this`isCreating, store`posts, store`notifications
      ensures (Trim(old(content)) == [] && !Truthy(old(selectedImage))) || Utf16Length(old(content)) > MaxChars ==>
        content == old(content) && selectedImage == old(selectedImage) && isCreating == old(isCreating) &&
        store.posts == old(store.posts) && store.notifications == old(store.notifications)
      ensures outcome == NothingToPost <==> Trim(old(content)) == [] && !Truthy(old(selectedImage))
      ensures outcome == TooLong <==>
        !(Trim(old(content)) == [] && !Truthy(old(selectedImage))) && Utf16Length(old(content)) > MaxChars
      ensures outcome.Created? ==>
        var post := NewPost(old(content), old(selectedImage), currentUser, now);
        outcome.post == post &&
        (outcome.deviceAlert <==> IsFeatured(currentUser)) &&
        store.posts == old(store.posts)[PostsKey := [post] + ListOrEmpty(old(store.posts), PostsKey)] &&
        store.notifications == old(store.notifications)[NotificationsKey :=
          ListOrEmpty(old(store.notifications), NotificationsKey) + [NewPostNotification(post.id, now)]] &&
        content == "" && selectedImage == None && !isCreating
    {
      if Trim(content) == [] && !Truthy(selectedImage) {
        return NothingToPost;
      }
      if Utf16Length(content) > MaxChars {
        return TooLong;
      }
      outcome := Publish(now);
    }
  }
}
