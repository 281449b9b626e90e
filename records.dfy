/**
 * The records the app keeps in device storage and passes between screens.
 * Optional members (`field?: T`, `T | null`) are `Option`s; a list member that
 * may be missing altogether (a stored post's `likes` and `comments`) is an
 * `Option<seq<...>>`, `None` standing for a value that is not an array.
 * Times are milliseconds since the epoch.
 */
module Records {
  import opened Wrappers

  /** A user as embedded in messages, posts, likes, comments and follower lists. */
  datatype UserRef = UserRef(
    id: string,
    username: Option<string>,
    displayName: Option<string>,
    avatar: Option<string>)

  /** One chat message; `timestamp` is the instant its ISO-8601 string denotes. */
  datatype Message = Message(
    id: string,
    senderId: string,
    receiverId: string,
    content: Option<string>,
    imageUri: Option<string>,
    timestamp: int,
    read: bool)

  /**
   * A comment under a post. Comments written by the app carry `user`; the
   * profile editor also recognises an older flat shape with `userId` and
   * copies the display fields to the top level.
   */
  datatype Comment = Comment(
    id: string,
    text: string,
    user: Option<UserRef>,
    userId: Option<string>,
    createdAt: int,
    username: Option<string>,
    displayName: Option<string>,
    avatar: Option<string>)

  datatype Post = Post(
    id: string,
    user: Option<UserRef>,
    content: Option<string>,
    image: Option<string>,
    likes: Option<seq<UserRef>>,
    comments: Option<seq<Comment>>,
    createdAt: int)

  /** The five kinds of notification: "like", "comment", "follow", "message", "post". */
  datatype NotificationType = Liked | Commented | Followed | Messaged | Posted

  /** A notification in the device's "@notifications" list. */
  datatype Notification = Notification(
    id: string,
    kind: NotificationType,
    message: string,
    createdAt: int,
    read: bool,
    postId: Option<string>,
    userId: Option<string>,
    username: Option<string>,
    displayName: Option<string>,
    avatar: Option<string>)

  /** A story; `user` is the label shown for its author. */
  datatype Story = Story(
    id: string,
    image: string,
    userId: string,
    user: string,
    createdAt: int,
    viewed: bool)

  /** An entry of a user's chat list. */
  datatype ChatItem = ChatItem(
    id: string,
    users: seq<UserRef>,
    lastMessage: Option<string>,
    updatedAt: int)

  /** The signed-in user as the app's screens see it. */
  datatype CurrentUser = CurrentUser(
    id: string,
    username: string,
    displayName: string,
    avatar: Option<string>)

  /**
   * The identity provider's user object, as far as the app reads it;
   * `metadataUsername` is `unsafeMetadata.username`.
   */
  datatype ProviderUser = ProviderUser(
    id: string,
    username: Option<string>,
    metadataUsername: Option<string>,
    firstName: Option<string>,
    lastName: Option<string>,
    imageUrl: Option<string>)

  /** The fields of a like entry or a comment author: `{id, username, avatar}`. */
  function ActorRef(u: CurrentUser): UserRef {
    UserRef(u.id, Some(u.username), None, u.avatar)
  }
}
