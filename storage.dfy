/**
 * The device's key-value store. Each stored value is a JSON array of one kind
 * of record, so the store is kept as one map per kind of record; the key
 * prefixes the app uses ("conversation_", "muted_", "posts", "@comments:",
 * "@notifications", "followers_", "following_", "@stories:",
 * "conversations_", "@user_profile_data") never overlap between kinds.
 * A key missing from its map is a key with no stored value.
 */
module Storage {
  import opened Records

  class Store {
    var conversations: map<string, seq<Message>>
    var idLists: map<string, seq<string>>
    var posts: map<string, seq<Post>>
    var comments: map<string, seq<Comment>>
    var notifications: map<string, seq<Notification>>
    var userLists: map<string, seq<UserRef>>
    var stories: map<string, seq<Story>>
    var chats: map<string, seq<ChatItem>>
    var profileData: map<string, map<string, string>>

    /** An empty store. */
    constructor ()
      ensures conversations == map[] && idLists == map[] && posts == map[]
      ensures comments == map[] && notifications == map[] && userLists == map[]
      ensures stories == map[] && chats == map[] && profileData == map[]
    {
      conversations, idLists, posts := map[], map[], map[];
      comments, notifications, userLists := map[], map[], map[];
      stories, chats, profileData := map[], map[], map[];
    }
  }

  /** `stored ? JSON.parse(stored) : []`: the stored list, or the empty list for a missing key. */
  function ListOrEmpty<T>(m: map<string, seq<T>>, key: string): (r: seq<T>)
    ensures key in m ==> r == m[key]
    ensures key !in m ==> r == []
  {
    if key in m then m[key] else []
  }

  /** The key of the feed's post list. */
  const PostsKey: string := "posts"

  /** The key of the device's notification list. */
  const NotificationsKey: string := "@notifications"

  /** The prefix of the keys of comment lists. */
  const CommentsPrefix: string := "@comments:"

  /** The key of the comments of one post. */
  function CommentsKey(postId: string): string {
    CommentsPrefix + postId
  }
}
