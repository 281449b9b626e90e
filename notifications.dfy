/**
 * `addNotification` (utils/addNotification.ts): the guards that decide whether
 * a notification is shown at all, and the fixed table of message texts.
 * What happens after the decision (haptics, sound, the system notification)
 * is a device effect and is only recorded in the outcome.
 */
module Notifications {
  import opened Wrappers
  import opened Records
  import opened Text

  /** The acting user: `{id, username, avatar}`. */
  datatype Actor = Actor(id: string, username: string, avatar: Option<string>)

  /** The actor object `{id, username, avatar}` built from the signed-in user. */
  function CurrentActor(u: CurrentUser): Actor {
    Actor(u.id, u.username, u.avatar)
  }

  datatype SkipReason = NoTarget | SelfNotification

  /**
   * What one call does: nothing, or a system notification with this title and
   * body, preceded by haptic feedback and a sound when `alert` is set.
   */
  datatype Outcome = Skipped(reason: SkipReason) | Shown(title: string, body: string, alert: bool)

  const Title: string := "Nova notificação"

  /** The fixed message of each notification type. */
  function MessageFor(kind: NotificationType, username: string): string {
    match kind
    case Liked => "@" + username + " curtiu seu post"
    case Commented => "@" + username + " comentou em seu post"
    case Followed => "@" + username + " começou a seguir você"
    case Messaged => "Nova mensagem de @" + username
    case Posted => "@" + username + " criou uma nova publicação 🚀"
  }

  /**
   * One call of `addNotification(actor, type, postId, targetUserId, forceNotify)`.
   * `postId` takes no part in the decision.
   */
  function AddNotification(
    actor: Actor, kind: NotificationType, postId: Option<string>,
    targetUserId: Option<string>, forceNotify: bool): (r: Outcome)
    ensures r == Skipped(NoTarget) <==> !Truthy(targetUserId)
    ensures r == Skipped(SelfNotification) <==>
      Truthy(targetUserId) && !forceNotify && actor.id == targetUserId.value
    ensures r.Shown? ==> r.title == Title && r.body == MessageFor(kind, actor.username)
    ensures r.Shown? ==> (r.alert <==> kind == Messaged)
  {
    if !Truthy(targetUserId) then Skipped(NoTarget)
    else if !forceNotify && actor.id == targetUserId.value then Skipped(SelfNotification)
    else Shown(Title, MessageFor(kind, actor.username), kind == Messaged)
  }

  /**
   * A caller that passes no target never gets as far as building a message,
   * whatever the type: this is the case of every call the chat screen and the
   * post card make.
   */
  lemma NoTargetNeverShown(actor: Actor, kind: NotificationType, postId: Option<string>, forceNotify: bool)
    ensures AddNotification(actor, kind, postId, None, forceNotify) == Skipped(NoTarget)
  {
  }

  /** The suffix that follows the username in every message but the chat one. */
  function Suffix(kind: NotificationType): string
    requires kind != Messaged
  {
    match kind
    case Liked => " curtiu seu post"
    case Commented => " comentou em seu post"
    case Followed => " começou a seguir você"
    case Posted => " criou uma nova publicação 🚀"
  }

  /** The message text determines both the notification type and the actor's username. */
  lemma MessageDeterminesTypeAndActor(k1: NotificationType, u1: string, k2: NotificationType, u2: string)
    requires MessageFor(k1, u1) == MessageFor(k2, u2)
    ensures k1 == k2 && u1 == u2
  {
    var m := MessageFor(k1, u1);
    var p := "Nova mensagem de @";
    FirstChar(k1, u1);
    FirstChar(k2, u2);
    if k1 == Messaged && k2 == Messaged {
      assert u1 == m[|p|..] == u2;
    } else if k1 != Messaged && k2 != Messaged {
      var s1, s2 := Suffix(k1), Suffix(k2);
      assert m == "@" + u1 + s1 && m == "@" + u2 + s2;
      // The last character and the sixteenth from the end tell the four suffixes apart.
      assert m[|m| - 1] == s1[|s1| - 1] == s2[|s2| - 1];
      assert m[|m| - 16] == s1[|s1| - 16] == s2[|s2| - 16];
      SuffixSignature(k1);
      SuffixSignature(k2);
      assert k1 == k2;
      assert |u1| == |u2|;
      assert u1 == m[1..1 + |u1|] == u2;
    }
  }

  /** A chat message starts with 'N', every other message with '@'. */
  lemma FirstChar(kind: NotificationType, username: string)
    ensures |MessageFor(kind, username)| > 0
    ensures MessageFor(kind, username)[0] == if kind == Messaged then 'N' else '@'
  {
  }

  /** Two characters of each suffix that, together, differ between any two suffixes. */
  lemma SuffixSignature(kind: NotificationType)
    requires kind != Messaged
    ensures var s := Suffix(kind);
            |s| >= 16 &&
            (s[|s| - 1], s[|s| - 16]) ==
              match kind
              case Liked => ('t', ' ')
              case Commented => ('t', 'n')
              case Followed => ('ê', 'o')
              case Posted => ('🚀', 'o')
  {
  }
}
