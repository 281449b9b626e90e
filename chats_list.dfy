/**
 * The list of a user's chats (app/ChatsList.tsx): loading the stored list,
 * showing it newest first, and finding the other participant of a chat.
 */
module ChatsList {
  import opened Wrappers
  import opened Records
  import opened Text
  import opened Seqs

  /** The key of a user's chat list. */
  function ChatsKey(userId: string): string {
    "conversations_" + userId
  }

  /**
   * `loadChats`: without a current user the list is not touched (`None`);
   * otherwise it becomes the stored list, or empty when none is stored.
   */
  function LoadChats(currentUser: Option<CurrentUser>, stored: map<string, seq<ChatItem>>): (r: Option<seq<ChatItem>>)
    ensures r.None? <==> currentUser.None?
    ensures r.Some? && ChatsKey(currentUser.value.id) in stored ==> r.value == stored[ChatsKey(currentUser.value.id)]
    ensures r.Some? && ChatsKey(currentUser.value.id) !in stored ==> r.value == []
  {
    if currentUser.None? then None
    else
      var key := ChatsKey(currentUser.value.id);
      Some(if key in stored then stored[key] else [])
  }

  /** The sort key that puts the latest update first. */
  function NegatedUpdate(c: ChatItem): int {
    -c.updatedAt
  }

  /** `chats.sort((a, b) => b.updatedAt - a.updatedAt)`: the same chats, latest update first. */
  function DisplayOrder(chats: seq<ChatItem>): (r: seq<ChatItem>)
    ensures multiset(r) == multiset(chats)
    ensures forall i, j :: 0 <= i < j < |r| ==> r[i].updatedAt >= r[j].updatedAt
  {
    var r := SortBy(chats, NegatedUpdate);
    assert forall i, j :: 0 <= i < j < |r| ==> NegatedUpdate(r[i]) <= NegatedUpdate(r[j]);
    r
  }

  /** `u.id !== currentUser?.id`: with no current user every participant qualifies. */
  predicate IsOther(u: UserRef, currentUserId: Option<string>) {
    currentUserId.None? || u.id != currentUserId.value
  }

  /** `chat.users.find(u => u.id !== currentUser?.id)`: the first participant who is someone else. */
  function OtherParticipant(chat: ChatItem, currentUserId: Option<string>): (r: Option<UserRef>)
    ensures r.Some? ==> r.value in chat.users && IsOther(r.value, currentUserId)
    ensures r.Some? ==> exists i :: (0 <= i < |chat.users| && chat.users[i] == r.value &&
                                     forall j :: 0 <= j < i ==> !IsOther(chat.users[j], currentUserId))
    ensures r.None? <==> forall i :: 0 <= i < |chat.users| ==> !IsOther(chat.users[i], currentUserId)
  {
    Find(chat.users, (u: UserRef) => IsOther(u, currentUserId))
  }

  /** A chat with oneself only, or with nobody, has no other participant. */
  lemma SelfChatHasNoOther(chat: ChatItem, me: string)
    requires forall i :: 0 <= i < |chat.users| ==> chat.users[i].id == me
    ensures OtherParticipant(chat, Some(me)).None?
  {
  }

  /** The parameters `openChat` passes to the chat screen. */
  datatype ChatRoute = ChatRoute(chatId: string, userId: string, username: Option<string>, avatar: string)

  /** `openChat`: nothing happens when the chat has no other participant. */
  function OpenChat(chat: ChatItem, currentUserId: Option<string>): (r: Option<ChatRoute>)
    ensures r.None? <==> OtherParticipant(chat, currentUserId).None?
    ensures r.Some? ==>
      var other := OtherParticipant(chat, currentUserId).value;
      r.value == ChatRoute(chat.id, other.id, other.username, other.avatar.GetOr(""))
  {
    var other := OtherParticipant(chat, currentUserId);
    if other.None? then None
    else Some(ChatRoute(chat.id, other.value.id, other.value.username, other.value.avatar.GetOr("")))
  }

  /** The picture shown for a participant without one. */
  const DefaultAvatar: string := "https://cdn-icons-png.flaticon.com/512/149/149071.png"

  /** One row of the list: picture, name and last message. */
  datatype ChatRow = ChatRow(avatar: string, username: Option<string>, lastMessage: string)

  /** `item.lastMessage || "Nova conversa"`. */
  function LastMessageText(lastMessage: Option<string>): (t: string)
    ensures t != []
    ensures Truthy(lastMessage) ==> t == lastMessage.value
    ensures !Truthy(lastMessage) ==> t == "Nova conversa"
  {
    Or(lastMessage, "Nova conversa")
  }

  /** `renderItem`: no row for a chat without another participant. */
  function RenderRow(item: ChatItem, currentUserId: string): (r: Option<ChatRow>)
    ensures r.None? <==> OtherParticipant(item, Some(currentUserId)).None?
    ensures r.Some? ==>
      var other := OtherParticipant(item, Some(currentUserId)).value;
      r.value == ChatRow(other.avatar.GetOr(DefaultAvatar), other.username, LastMessageText(item.lastMessage))
  {
    var other := OtherParticipant(item, Some(currentUserId));
    if other.None? then None
    else Some(ChatRow(other.value.avatar.GetOr(DefaultAvatar), other.value.username, LastMessageText(item.lastMessage)))
  }
}
