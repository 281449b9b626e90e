/**
 * The one-to-one chat screen (app/ChatScreen.tsx): the conversation key of a
 * pair of users, loading a conversation (ordering it by time and marking the
 * received messages as read), sending a text or an image, muting the peer,
 * the "last seen" line and the grouping of messages by day.
 */
module Chat {
  import opened Wrappers
  import opened Records
  import opened Text
  import opened Seqs
  import opened Storage
  import opened Notifications

  // ---------------------------------------------------------------------------
  // Conversation key
  // ---------------------------------------------------------------------------

  const ConversationPrefix: string := "conversation_"

  /** `[a, b].sort()`: the two ids in string order, the first kept first when they are equal. */
  function SortPair(a: string, b: string): (r: (string, string))
    ensures LexLe(r.0, r.1)
    ensures (r.0 == a && r.1 == b) || (r.0 == b && r.1 == a)
  {
    LexLeTotal(a, b);
    if LexLe(a, b) then (a, b) else (b, a)
  }

  /** `conversation_${[a, b].sort().join("_")}`. */
  function ConversationKey(a: string, b: string): (r: string)
    ensures StartsWith(r, ConversationPrefix)
    ensures exists x, y :: LexLe(x, y) && multiset{x, y} == multiset{a, b} && r == ConversationPrefix + x + "_" + y
  {
    var p := SortPair(a, b);
    ConversationPrefix + p.0 + "_" + p.1
  }

  /**
   * Both participants compute the same key: the order in which the two ids are
   * given does not matter.
   */
  lemma ConversationKeySymmetric(a: string, b: string)
    ensures ConversationKey(a, b) == ConversationKey(b, a)
  {
    var p, q := SortPair(a, b), SortPair(b, a);
    if p != q {
      // Both pairs are the same two ids in order, so they can only differ if
      // each id is ordered before the other.
      LexLeAntisymmetric(a, b);
    }
  }

  // ---------------------------------------------------------------------------
  // Loading a conversation
  // ---------------------------------------------------------------------------

  /** The sort key of a message: its time. */
  function MessageTime(m: Message): int {
    m.timestamp
  }

  /** `m.receiverId === viewer ? { ...m, read: true } : m`. */
  function MarkedRead(m: Message, viewer: string): Message {
    if m.receiverId == viewer then m.(read := true) else m
  }

  /** The `markMessagesAsRead` map over a conversation. */
  function MarkRead(msgs: seq<Message>, viewer: string): (r: seq<Message>)
    ensures |r| == |msgs|
    ensures forall i :: 0 <= i < |r| ==> r[i].(read := msgs[i].read) == msgs[i]
    ensures forall i :: 0 <= i < |r| ==> (r[i].read <==> msgs[i].read || msgs[i].receiverId == viewer)
    ensures forall i :: 0 <= i < |r| && msgs[i].receiverId != viewer ==> r[i] == msgs[i]
  {
    Map(msgs, (m: Message) => MarkedRead(m, viewer))
  }

  /** Marking a conversation as read a second time changes nothing. */
  lemma MarkReadIdempotent(msgs: seq<Message>, viewer: string)
    ensures MarkRead(MarkRead(msgs, viewer), viewer) == MarkRead(msgs, viewer)
  {
    var once := MarkRead(msgs, viewer);
    var twice := MarkRead(once, viewer);
    forall i | 0 <= i < |once|
      ensures twice[i] == once[i]
    {
      assert twice[i].(read := once[i].read) == once[i];
    }
  }

  /**
   * What a stored conversation looks like once loaded: ordered by time, then
   * with the messages the viewer received marked as read.
   */
  function LoadedConversation(stored: seq<Message>, viewer: string): seq<Message> {
    MarkRead(SortBy(stored, MessageTime), viewer)
  }

  /**
   * A loaded conversation holds as many messages as were stored, in ascending
   * time order, and every message the viewer received is read.
   */
  lemma LoadedConversationShape(stored: seq<Message>, viewer: string)
    ensures var r := LoadedConversation(stored, viewer);
            |r| == |stored| &&
            multiset(r) == multiset(MarkRead(stored, viewer)) &&
            SortedBy(r, MessageTime) &&
            (forall i :: 0 <= i < |r| && r[i].receiverId == viewer ==> r[i].read)
  {
    var sorted := SortBy(stored, MessageTime);
    var r := MarkRead(sorted, viewer);
    forall i, j | 0 <= i < j < |r|
      ensures MessageTime(r[i]) <= MessageTime(r[j])
    {
      assert r[i].(read := sorted[i].read) == sorted[i];
      assert r[j].(read := sorted[j].read) == sorted[j];
    }
    // Marking is one function applied to each message, and sorting only rearranges them.
    var mark := (m: Message) => MarkedRead(m, viewer);
    assert r == Map(sorted, mark);
    assert MarkRead(stored, viewer) == Map(stored, mark);
    MapPermutation(sorted, stored, mark);
  }

  // ---------------------------------------------------------------------------
  // Muting
  // ---------------------------------------------------------------------------

  /** The key of a user's list of muted peers. */
  function MutedKey(userId: string): string {
    "muted_" + userId
  }

  /** `list.filter(u => u !== id)`. */
  function Without(list: seq<string>, id: string): (r: seq<string>)
    ensures id !in r
  {
    Filter(list, (u: string) => u != id)
  }

  /** The muted list after one toggle: every `id` removed when present, else `id` pushed. */
  function ToggledMute(list: seq<string>, id: string): seq<string> {
    if id in list then Without(list, id) else list + [id]
  }

  /**
   * Toggling flips whether the peer is muted, and every other id keeps its
   * number of occurrences.
   */
  lemma ToggledMuteFlips(list: seq<string>, id: string)
    ensures id in ToggledMute(list, id) <==> id !in list
    ensures forall x :: x != id ==> multiset(ToggledMute(list, id))[x] == multiset(list)[x]
  {
    FilterCounts(list, (u: string) => u != id);
  }

  /** Unmuting keeps the other ids in their order. */
  lemma UnmuteKeepsOrder(list: seq<string>, id: string)
    requires id in list
    ensures IsSubsequence(ToggledMute(list, id), list)
  {
  }

  /** Two toggles restore the membership of every id; starting unmuted they restore the list itself. */
  lemma ToggleMuteTwice(list: seq<string>, id: string)
    ensures forall x :: x in ToggledMute(ToggledMute(list, id), id) <==> x in list
    ensures id !in list ==> ToggledMute(ToggledMute(list, id), id) == list
  {
    if id !in list {
      var keep := (u: string) => u != id;
      assert ToggledMute(list, id) == list + [id];
      FilterAppend(list, [id], keep);
      FilterAllKept(list, keep);
      assert Filter([id], keep) == [];
    }
  }

  // ---------------------------------------------------------------------------
  // "Last seen"
  // ---------------------------------------------------------------------------

  /** The buckets of `getLastSeenText`. */
  datatype LastSeen = FewSeconds | OneMinute | Minutes(minutes: nat) | OneHour | Hours(hours: nat)

  /**
   * `getLastSeenText` with `Date.now()` passed in as `now`: nothing while the
   * peer is online or without a (non-zero) last-online time; otherwise the
   * bucket of the elapsed time, in whole minutes below an hour and whole hours
   * above.
   */
  function GetLastSeen(isOnline: bool, lastOnline: Option<int>, now: int): (r: Option<LastSeen>)
    ensures r.None? <==> isOnline || lastOnline.None? || lastOnline.value == 0
    ensures r.Some? ==>
      var diff := now - lastOnline.value;
      (r.value == FewSeconds <==> diff < 60000) &&
      (r.value == OneMinute <==> 60000 <= diff < 120000) &&
      (r.value.Minutes? <==> 120000 <= diff < 3600000) &&
      (r.value.Minutes? ==> r.value.minutes * 60000 <= diff < (r.value.minutes + 1) * 60000) &&
      (r.value == OneHour <==> 3600000 <= diff < 7200000) &&
      (r.value.Hours? <==> 7200000 <= diff) &&
      (r.value.Hours? ==> r.value.hours * 3600000 <= diff < (r.value.hours + 1) * 3600000)
  {
    if isOnline || lastOnline.None? || lastOnline.value == 0 then None
    else
      var diff := now - lastOnline.value;
      // Dafny's `/` rounds down for a positive divisor, as `Math.floor(x / d)` does.
      var minutes := diff / 60000;
      if minutes < 1 then Some(FewSeconds)
      else if minutes == 1 then Some(OneMinute)
      else if minutes < 60 then Some(Minutes(minutes))
      else
        var hours := minutes / 60;
        if hours == 1 then Some(OneHour) else Some(Hours(hours))
  }

  /** The text shown under the peer's name. */
  function LastSeenText(b: LastSeen): string {
    match b
    case FewSeconds => "Visto há poucos segundos"
    case OneMinute => "Visto há 1 minuto"
    case Minutes(n) => "Visto há " + NatToString(n) + " minutos"
    case OneHour => "Visto há 1 hora"
    case Hours(n) => "Visto há " + NatToString(n) + " horas"
  }

  /**
   * After the fixed "Visto há ", a digit starts every text but the one for a
   * few seconds; the last two characters tell minutes from hours and one from
   * several; and the count reads back from the digits.
   */
  lemma LastSeenTextShape(b: LastSeen)
    ensures var s := LastSeenText(b);
      |s| >= 11 &&
      (IsDigit(s[9]) <==> b != FewSeconds) &&
      (s[|s| - 1] == 's' <==> b == FewSeconds || b.Minutes? || b.Hours?) &&
      (s[|s| - 1] == 'o' <==> b == OneMinute) &&
      (s[|s| - 2] == 'o' <==> b == FewSeconds || b.Minutes?) &&
      (b.Minutes? ==> s[9..|s| - 8] == NatToString(b.minutes)) &&
      (b.Hours? ==> s[9..|s| - 6] == NatToString(b.hours))
  {
    var s := LastSeenText(b);
    match b
    case FewSeconds =>
      assert s[9] == 'p';
    case OneMinute =>
      assert s[9] == '1';
    case Minutes(n) =>
      assert s == "Visto há " + NatToString(n) + " minutos";
      assert s[9] == NatToString(n)[0];
    case OneHour =>
      assert s[9] == '1';
    case Hours(n) =>
      assert s == "Visto há " + NatToString(n) + " horas";
      assert s[9] == NatToString(n)[0];
  }

  /** The "last seen" text determines its bucket and count: different buckets read differently. */
  lemma {:induction false} LastSeenTextDistinct(a: LastSeen, b: LastSeen)
    requires LastSeenText(a) == LastSeenText(b)
    ensures a == b
  {
    LastSeenTextShape(a);
    LastSeenTextShape(b);
    if a.Minutes? && b.Minutes? {
      NatToStringInjective(a.minutes, b.minutes);
    }
    if a.Hours? && b.Hours? {
      NatToStringInjective(a.hours, b.hours);
    }
  }

  // ---------------------------------------------------------------------------
  // Grouping by day
  // ---------------------------------------------------------------------------

  const MillisPerDay: int := 86400000

  /** The UTC day of an instant, the date part of its ISO-8601 form. */
  function DayOf(timestamp: int): int {
    timestamp / MillisPerDay
  }

  /** The messages of `msgs` sent on `day`, in their order, collected as the `reduce` does. */
  function MessagesOn(msgs: seq<Message>, day: int): (r: seq<Message>)
    ensures forall m :: m in r <==> m in msgs && DayOf(m.timestamp) == day
  {
    if msgs == [] then []
    else
      var last := msgs[|msgs| - 1];
      assert msgs == msgs[..|msgs| - 1] + [last];
      MessagesOn(msgs[..|msgs| - 1], day) + (if DayOf(last.timestamp) == day then [last] else [])
  }

  /** The test `filter` would use for one day. */
  function OnDay(day: int): Message -> bool {
    (m: Message) => DayOf(m.timestamp) == day
  }

  /**
   * A day's group is the conversation filtered by that day, so it keeps the
   * relative order of its messages.
   */
  lemma {:induction false} MessagesOnIsFilter(msgs: seq<Message>, day: int)
    ensures MessagesOn(msgs, day) == Filter(msgs, OnDay(day))
    ensures IsSubsequence(MessagesOn(msgs, day), msgs)
  {
    if msgs != [] {
      var init, last := msgs[..|msgs| - 1], msgs[|msgs| - 1];
      assert msgs == init + [last];
      MessagesOnIsFilter(init, day);
      FilterAppend(init, [last], OnDay(day));
      assert [last][1..] == [];
    }
  }

  /** The days on which some message of `msgs` was sent. */
  function DaysIn(msgs: seq<Message>): (r: set<int>)
    ensures forall d :: d in r <==> MessagesOn(msgs, d) != []
  {
    if msgs == [] then {}
    else DaysIn(msgs[..|msgs| - 1]) + {DayOf(msgs[|msgs| - 1].timestamp)}
  }

  /** The groups of a list of messages: each day with a message, mapped to its messages. */
  predicate IsGrouping(groups: map<int, seq<Message>>, msgs: seq<Message>) {
    groups.Keys == DaysIn(msgs) &&
    forall d :: d in groups ==> groups[d] == MessagesOn(msgs, d)
  }

  /** In a grouping, every message is in the group of its own day and in no other group. */
  lemma EachMessageInOneGroup(groups: map<int, seq<Message>>, msgs: seq<Message>, i: nat)
    requires IsGrouping(groups, msgs) && i < |msgs|
    ensures DayOf(msgs[i].timestamp) in groups && msgs[i] in groups[DayOf(msgs[i].timestamp)]
    ensures forall d :: d in groups && d != DayOf(msgs[i].timestamp) ==> msgs[i] !in groups[d]
  {
    assert msgs[i] in MessagesOn(msgs, DayOf(msgs[i].timestamp));
  }

  /** One step of the `reduce`: pushing `m` into the group of its day, created empty if missing. */
  function PushToGroup(groups: map<int, seq<Message>>, m: Message): (r: map<int, seq<Message>>)
    ensures r.Keys == groups.Keys + {DayOf(m.timestamp)}
    ensures r[DayOf(m.timestamp)] == (if DayOf(m.timestamp) in groups then groups[DayOf(m.timestamp)] else []) + [m]
    ensures forall d :: d in groups && d != DayOf(m.timestamp) ==> r[d] == groups[d]
  {
    var key := DayOf(m.timestamp);
    var g := if key in groups then groups else groups[key := []];
    g[key := g[key] + [m]]
  }

  /** Pushing the next message into the groups of a prefix gives the groups of the longer prefix. */
  lemma PushToGroupStep(groups: map<int, seq<Message>>, msgs: seq<Message>, m: Message, next: seq<Message>)
    requires IsGrouping(groups, msgs) && next == msgs + [m]
    ensures IsGrouping(PushToGroup(groups, m), next)
  {
    assert next[..|next| - 1] == msgs;
  }

  /** `days` lists the days of `keys`, each once. */
  ghost predicate ListsOnce(days: seq<int>, keys: set<int>) {
    (forall d :: d in days <==> d in keys) &&
    (forall i, j :: 0 <= i < j < |days| ==> days[i] != days[j])
  }

  /** Appending a day that is not yet listed keeps every day listed once. */
  lemma ListNewDay(days: seq<int>, keys: set<int>, key: int)
    requires ListsOnce(days, keys) && key !in keys
    ensures ListsOnce(days + [key], keys + {key})
  {
  }

  /** The groups the `reduce` builds: each message in turn pushed into the group of its day. */
  function GroupsOf(msgs: seq<Message>): map<int, seq<Message>> {
    if msgs == [] then map[]
    else PushToGroup(GroupsOf(msgs[..|msgs| - 1]), msgs[|msgs| - 1])
  }

  /** The groups the `reduce` builds are the per-day lists of the messages. */
  lemma {:induction false} GroupsOfIsGrouping(msgs: seq<Message>)
    ensures IsGrouping(GroupsOf(msgs), msgs)
  {
    if msgs != [] {
      var init := msgs[..|msgs| - 1];
      GroupsOfIsGrouping(init);
      assert msgs == init + [msgs[|msgs| - 1]];
      PushToGroupStep(GroupsOf(init), init, msgs[|msgs| - 1], msgs);
    }
  }

  /**
   * `groupMessagesByDate`: `groups` maps each day on which some message was
   * sent to that day's messages in their order, and `days` lists those days
   * once each (the screen shows the groups in the order of `days`).
   */
  method GroupMessagesByDate(msgs: seq<Message>) returns (groups: map<int, seq<Message>>, days: seq<int>)
    ensures IsGrouping(groups, msgs)
    ensures ListsOnce(days, groups.Keys)
  {
    groups, days := map[], [];
    var n := 0;
    while n < |msgs|
      invariant n <= |msgs|
      invariant groups == GroupsOf(msgs[..n])
      invariant ListsOnce(days, groups.Keys)
    {
      var m := msgs[n];
      var key := DayOf(m.timestamp);
      assert msgs[..n + 1][..n] == msgs[..n];
      if key !in groups {
        ListNewDay(days, groups.Keys, key);
        days := days + [key];
      }
      groups := PushToGroup(groups, m);
      n := n + 1;
    }
    assert msgs[..n] == msgs;
    GroupsOfIsGrouping(msgs);
  }

  // ---------------------------------------------------------------------------
  // The screen
  // ---------------------------------------------------------------------------

  /** The actor object `{id, username, avatar}` the screen passes to `addNotification`. */
  function SenderActor(u: UserRef): Actor {
    // `username` is a required field of the screen's user type; a missing one
    // would print as "undefined" in the notification text.
    Actor(u.id, u.username.GetOr("undefined"), u.avatar)
  }

  /**
   * The state of one chat screen between `loggedUser` and `chatUser`: the
   * messages shown, the text being typed, the loading and sending flags and
   * whether the peer is muted.
   */
  class ChatScreen {
    const loggedUser: UserRef
    const chatUser: UserRef
    const store: Store
    var messages: seq<Message>
    var messageText: string
    var loading: bool
    var sending: bool
    var muted: bool

    constructor (loggedUser: UserRef, chatUser: UserRef, store: Store)
      ensures this.loggedUser == loggedUser && this.chatUser == chatUser && this.store == store
      ensures messages == [] && messageText == "" && loading && !sending && !muted
    {
      this.loggedUser := loggedUser;
      this.chatUser := chatUser;
      this.store := store;
      messages, messageText := [], "";
      loading, sending, muted := true, false, false;
    }

    /** The key under which this conversation is stored. */
    function Key(): string {
      ConversationKey(loggedUser.id, chatUser.id)
    }

    /**
     * `loadMessages`: a stored conversation is ordered by time, marked as read
     * for the logged user, shown and written back; without one nothing changes.
     */
    method LoadMessages()
      modifies this`messages, this`loading, store`conversations
      ensures !loading
      ensures Key() !in old(store.conversations) ==>
        messages == old(messages) && store.conversations == old(store.conversations)
      ensures Key() in old(store.conversations) ==>
        messages == LoadedConversation(old(store.conversations)[Key()], loggedUser.id) &&
        store.conversations == old(store.conversations)[Key() := messages]
    {
      var key := Key();
      if key in store.conversations {
        var sorted := SortBy(store.conversations[key], MessageTime);
        messages := sorted;
        MarkMessagesAsRead(sorted);
      }
      loading := false;
    }

    /** `markMessagesAsRead`: stores and shows `msgs` with the received messages read. */
    method MarkMessagesAsRead(msgs: seq<Message>)
      modifies this`messages, store`conversations
      ensures messages == MarkRead(msgs, loggedUser.id)
      ensures store.conversations == old(store.conversations)[Key() := messages]
    {
      var updated := MarkRead(msgs, loggedUser.id);
      store.conversations := store.conversations[Key() := updated];
      messages := updated;
    }

    /** `saveMessage`: the shown list followed by `msg`, stored and shown. */
    method SaveMessage(msg: Message)
      modifies this`messages, store`conversations
      ensures messages == old(messages) + [msg]
      ensures store.conversations == old(store.conversations)[Key() := messages]
    {
      var updated := messages + [msg];
      store.conversations := store.conversations[Key() := updated];
      messages := updated;
    }

    /**
     * `notifyReceiver`: what the call to `addNotification` does, or `None`
     * when the peer is muted and no call is made.
     */
    method NotifyReceiver() returns (notice: Option<Outcome>)
      ensures !muted ==> notice == Some(Skipped(NoTarget))
      ensures muted ==> notice == None
    {
      if !muted {
        var outcome := AddNotification(SenderActor(loggedUser), Messaged, None, None, false);
        NoTargetNeverShown(SenderActor(loggedUser), Messaged, None, false);
        notice := Some(outcome);
      } else {
        notice := None;
      }
    }

    /** The part of `sendMessage` after the checks: `text` is appended and stored, and the input cleared. */
    method Deliver(text: string, newId: string, now: int) returns (notice: Option<Outcome>)
      modifies this`messages, this`messageText, this`sending, store`conversations
      ensures messages == old(messages) + [Message(newId, loggedUser.id, chatUser.id, Some(text), None, now, false)]
      ensures store.conversations == old(store.conversations)[Key() := messages]
      ensures messageText == "" && !sending
      ensures notice == if muted then None else Some(Skipped(NoTarget))
    {
      sending := true;
      SaveMessage(Message(newId, loggedUser.id, chatUser.id, Some(text), None, now, false));
      notice := NotifyReceiver();
      messageText := "";
      sending := false;
    }

    /**
     * `sendMessage`, with the generated id and the current time passed in:
     * nothing happens when the trimmed text is empty or a send is in flight;
     * otherwise the trimmed text is appended and stored as an unread message
     * from the logged user to the peer, and the input is cleared.
     */
    method SendMessage(newId: string, now: int) returns (notice: Option<Outcome>)
      modifies this`messages, this`messageText, this`sending, store`conversations
      ensures Trim(old(messageText)) == [] || old(sending) ==>
        messages == old(messages) && messageText == old(messageText) && sending == old(sending) &&
        store.conversations == old(store.conversations) && notice == None
      ensures Trim(old(messageText)) != [] && !old(sending) ==>
        messages == old(messages) + [Message(newId, loggedUser.id, chatUser.id, Some(Trim(old(messageText))), None, now, false)] &&
        store.conversations == old(store.conversations)[Key() := messages] &&
        messageText == "" && !sending &&
        notice == (if muted then None else Some(Skipped(NoTarget)))
    {
      var text := Trim(messageText);
      if text == [] || sending {
        return None;
      }
      notice := Deliver(text, newId, now);
    }

    /** `sendImageMessage`: an unread image message to the peer is appended and stored. */
    method SendImageMessage(uri: string, newId: string, now: int) returns (notice: Option<Outcome>)
      modifies this`messages, store`conversations
      ensures messages == old(messages) + [Message(newId, loggedUser.id, chatUser.id, None, Some(uri), now, false)]
      ensures store.conversations == old(store.conversations)[Key() := messages]
      ensures notice == if muted then None else Some(Skipped(NoTarget))
    {
      SaveMessage(Message(newId, loggedUser.id, chatUser.id, None, Some(uri), now, false));
      notice := NotifyReceiver();
    }

    /** `loadMuted`: whether the peer is in the logged user's muted list. */
    method LoadMuted()
      modifies this`muted
      ensures muted <==> chatUser.id in ListOrEmpty(store.idLists, MutedKey(loggedUser.id))
    {
      muted := chatUser.id in ListOrEmpty(store.idLists, MutedKey(loggedUser.id));
    }

    /** `toggleMute`: the muted list toggled for the peer, stored, and the flag set to match. */
    method ToggleMute()
      modifies this`muted, store`idLists
      ensures var key := MutedKey(loggedUser.id);
        var list := ListOrEmpty(old(store.idLists), key);
        store.idLists == old(store.idLists)[key := ToggledMute(list, chatUser.id)] &&
        (muted <==> chatUser.id !in list)
    {
      var key := MutedKey(loggedUser.id);
      var list := ListOrEmpty(store.idLists, key);
      if chatUser.id in list {
        list := Without(list, chatUser.id);
        muted := false;
      } else {
        list := list + [chatUser.id];
        muted := true;
      }
      store.idLists := store.idLists[key := list];
    }

    /**
     * The "delete conversation" handler: the stored conversation, under the
     * same key the screen loads from, is removed and the screen emptied.
     */
    method DeleteConversation()
      modifies this`messages, store`conversations
      ensures Key() !in store.conversations
      ensures store.conversations == old(store.conversations) - {Key()}
      ensures messages == []
    {
      var key := ConversationKey(loggedUser.id, chatUser.id);
      store.conversations := store.conversations - {key};
      messages := [];
    }
  }
}
