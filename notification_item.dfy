/**
 * One notification card: the notification record, the per-type display
 * table and what a click on the card reports to the page.
 */
module NotificationItem {
  import opened Wrappers

  datatype NotificationType = Like | Comment | Retweet | Follow | Mention

  datatype Actor = Actor(name: string, username: string, avatarUrl: Option<string>)

  /** `type` is a Dafny keyword, so the notification's type is the field `kind`. */
  datatype Notification = Notification(
    id: string,
    kind: NotificationType,
    user: Actor,
    content: Option<string>,
    timestamp: string,
    isRead: bool,
    postPreview: Option<string>)

  /** One entry of the display table: icon name, colour classes and the action text. */
  datatype Config = Config(icon: string, color: string, bgColor: string, ringColor: string, text: string)

  /** The display table, indexed by every notification type. */
  function ConfigFor(t: NotificationType): Config {
    match t
    case Like => Config("Heart", "text-red-500", "bg-red-500/10", "ring-red-500/20", "liked your post")
    case Comment => Config("MessageCircle", "text-blue-500", "bg-blue-500/10", "ring-blue-500/20", "commented on your post")
    case Retweet => Config("Repeat2", "text-green-500", "bg-green-500/10", "ring-green-500/20", "retweeted your post")
    case Follow => Config("UserPlus", "text-primary", "bg-primary/10", "ring-primary/20", "started following you")
    case Mention => Config("AtSign", "text-purple-500", "bg-purple-500/10", "ring-purple-500/20", "mentioned you in a post")
  }

  /** Every type has its own entry: two types never share an icon or an action text. */
  lemma ConfigDistinguishesTypes(t: NotificationType, u: NotificationType)
    requires t != u
    ensures ConfigFor(t).icon != ConfigFor(u).icon
    ensures ConfigFor(t).text != ConfigFor(u).text
  {
  }

  /** What one click on the card reports: a read request (`onRead`) and the click itself (`onClick`). */
  datatype ClickEvents = ClickEvents(readRequest: Option<string>, clicked: Notification)

  /** A click asks for a read, with the card's own id, exactly when the card is unread, and always reports the notification. */
  function HandleClick(n: Notification): (e: ClickEvents)
    ensures e.readRequest.Some? <==> !n.isRead
    ensures e.readRequest.Some? ==> e.readRequest.value == n.id
    ensures e.clicked == n
  {
    ClickEvents(if !n.isRead then Some(n.id) else None, n)
  }

  /** The unread marker (the coloured bar on the left of the card). */
  predicate ShowsUnreadMarker(n: Notification) {
    !n.isRead
  }

  /** The marker is shown on exactly the cards whose click asks for a read. */
  lemma MarkerMatchesReadRequest(n: Notification)
    ensures ShowsUnreadMarker(n) <==> HandleClick(n).readRequest.Some?
    ensures ShowsUnreadMarker(n) <==> !n.isRead
  {
  }
}
