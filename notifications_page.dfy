/**
 * The notifications page: the list of notifications and the active filter,
 * the three views derived from them (filtered list, per-filter counts,
 * unread count) and the three handlers that replace the list.
 */
module NotificationsPage {
  import opened Wrappers
  import opened NotificationItem
  import opened NotificationFilter

  function Note(id: string, kind: NotificationType, name: string, username: string,
                content: Option<string>, timestamp: string, isRead: bool, postPreview: Option<string>): Notification
  {
    Notification(id, kind, Actor(name, username, None), content, timestamp, isRead, postPreview)
  }

  /** The list the page starts from. */
  const InitialNotifications: seq<Notification> := [
    Note("1", Like, "Sarah Johnson", "sarahj", None, "2m ago", false,
         Some("Just shipped a new feature! \U{1F680} The new dark mode toggle is now live.")),
    Note("2", Comment, "Mike Chen", "mikechen",
         Some("This is amazing! Can't wait to try it out. How did you implement the smooth transitions?"),
         "5m ago", false, Some("Working on a new project with Next.js 14 and it's amazing!")),
    Note("3", Follow, "Emily Davis", "emilyd", None, "15m ago", false, None),
    Note("4", Retweet, "Alex Rodriguez", "alexr", None, "1h ago", true,
         Some("Hot take: TypeScript makes you a better JavaScript developer.")),
    Note("5", Mention, "Jessica Lee", "jessical",
         Some("@johndoe What do you think about this new design pattern? Would love to hear your thoughts!"),
         "2h ago", true, None),
    Note("6", Like, "David Kim", "davidk", None, "3h ago", true, Some("Coffee + Code = Productivity \U{2615}\U{1F4BB}")),
    Note("7", Comment, "Lisa Wang", "lisaw", Some("Great advice! I've been doing this for years and it really works."),
         "5h ago", true, Some("Reminder: Take breaks, stretch, and stay hydrated!")),
    Note("8", Follow, "Tom Anderson", "toma", None, "1d ago", true, None),
    Note("9", Retweet, "Nina Patel", "ninap", None, "1d ago", true,
         Some("Just finished reading 'Clean Code' by Robert C. Martin.")),
    Note("10", Mention, "Chris Brown", "chrisb",
         Some("Hey @johndoe, check out this cool library I found! It might be useful for your project."),
         "2d ago", true, None)
  ]

  // ---------------------------------------------------------------------
  // Derived views
  // ---------------------------------------------------------------------

  /** Number of notifications of type t. */
  function CountOf(ns: seq<Notification>, t: NotificationType): (c: nat)
    ensures c <= |ns|
  {
    if ns == [] then 0
    else CountOf(ns[..|ns| - 1], t) + (if ns[|ns| - 1].kind == t then 1 else 0)
  }

  /** Number of unread notifications (the length of the list filtered on `!isRead`). */
  function UnreadCount(ns: seq<Notification>): (c: nat)
    ensures c <= |ns|
    ensures c == 0 <==> forall i :: 0 <= i < |ns| ==> ns[i].isRead
  {
    if ns == [] then 0
    else UnreadCount(ns[..|ns| - 1]) + (if ns[|ns| - 1].isRead then 0 else 1)
  }

  /** The notifications of type t, in list order. */
  function FilterByType(ns: seq<Notification>, t: NotificationType): (r: seq<Notification>)
    ensures |r| == CountOf(ns, t)
    ensures forall i :: 0 <= i < |r| ==> r[i].kind == t
    ensures forall x :: x in ns && x.kind == t ==> x in r
    ensures forall x :: x in r ==> x in ns
  {
    if ns == [] then []
    else
      var init := FilterByType(ns[..|ns| - 1], t);
      assert forall x :: x in ns ==> x in ns[..|ns| - 1] || x == ns[|ns| - 1];
      if ns[|ns| - 1].kind == t then init + [ns[|ns| - 1]] else init
  }

  /** `r` is obtained from `s` by deleting elements: order is kept. */
  predicate IsSubsequence<T(==)>(r: seq<T>, s: seq<T>) {
    if r == [] then true
    else if s == [] then false
    else if r[|r| - 1] == s[|s| - 1] then IsSubsequence(r[..|r| - 1], s[..|s| - 1])
    else IsSubsequence(r, s[..|s| - 1])
  }

  /** Filtering by type keeps the original order. */
  lemma {:induction false} FilterByTypeKeepsOrder(ns: seq<Notification>, t: NotificationType)
    ensures IsSubsequence(FilterByType(ns, t), ns)
  {
    if ns != [] {
      FilterByTypeKeepsOrder(ns[..|ns| - 1], t);
      var r := FilterByType(ns, t);
      if ns[|ns| - 1].kind == t {
        assert r[..|r| - 1] == FilterByType(ns[..|ns| - 1], t);
      } else if r != [] {
        assert r[|r| - 1] != ns[|ns| - 1];
      }
    }
  }

  /** The list as displayed under filter f. */
  function FilteredNotifications(ns: seq<Notification>, f: FilterType): (r: seq<Notification>)
    ensures f == All ==> r == ns
    ensures f.Only? ==> forall i :: 0 <= i < |r| ==> r[i].kind == f.kind
    ensures f.Only? ==> forall x :: x in ns ==> (x in r <==> x.kind == f.kind)
  {
    match f
    case All => ns
    case Only(t) => FilterByType(ns, t)
  }

  /** The per-filter counts: "all" is the length, each type its number of notifications. */
  function CountsOf(ns: seq<Notification>): (c: Counts)
    ensures forall f :: f in c
    ensures c[All] == |ns|
  {
    Tally(|ns|, ns)
  }

  /** The count record after scanning `scanned`, with "all" preset to `total`. */
  function Tally(total: int, scanned: seq<Notification>): (c: Counts)
    ensures forall f :: f in c
  {
    var c := map[All := total,
                 Only(Like) := CountOf(scanned, Like),
                 Only(Comment) := CountOf(scanned, Comment),
                 Only(Retweet) := CountOf(scanned, Retweet),
                 Only(Follow) := CountOf(scanned, Follow),
                 Only(Mention) := CountOf(scanned, Mention)];
    SixKeysCoverEveryFilter(c);
    c
  }

  lemma SixKeysCoverEveryFilter(c: Counts)
    requires All in c && Only(Like) in c && Only(Comment) in c
    requires Only(Retweet) in c && Only(Follow) in c && Only(Mention) in c
    ensures forall f :: f in c
  {
    forall f: FilterType
      ensures f in c
    {
      match f
      case All =>
      case Only(t) =>
        match t
        case Like =>
        case Comment =>
        case Retweet =>
        case Follow =>
        case Mention =>
    }
  }

  /** Scanning one more notification bumps its own type's entry by one and nothing else. */
  lemma TallyStep(total: int, scanned: seq<Notification>, x: Notification)
    ensures Tally(total, scanned + [x]) == Tally(total, scanned)[Only(x.kind) := Tally(total, scanned)[Only(x.kind)] + 1]
  {
  }

  /** The five per-type counts add up to the "all" count. */
  lemma {:induction false} CountsSumToLength(ns: seq<Notification>)
    ensures CountOf(ns, Like) + CountOf(ns, Comment) + CountOf(ns, Retweet)
          + CountOf(ns, Follow) + CountOf(ns, Mention) == |ns|
    ensures CountsOf(ns)[Only(Like)] + CountsOf(ns)[Only(Comment)] + CountsOf(ns)[Only(Retweet)]
          + CountsOf(ns)[Only(Follow)] + CountsOf(ns)[Only(Mention)] == CountsOf(ns)[All]
  {
    if ns != [] {
      CountsSumToLength(ns[..|ns| - 1]);
    }
  }

  /** The list under filter f is exactly as long as the count shown on f's pill. */
  lemma FilteredLengthIsCount(ns: seq<Notification>, f: FilterType)
    ensures |FilteredNotifications(ns, f)| == CountsOf(ns)[f]
    ensures |FilteredNotifications(ns, f)| == CountFor(Some(CountsOf(ns)), f)
  {
  }

  // ---------------------------------------------------------------------
  // List transitions
  // ---------------------------------------------------------------------

  /** Every notification marked read. */
  function AllRead(ns: seq<Notification>): (r: seq<Notification>)
    ensures |r| == |ns|
    ensures forall i :: 0 <= i < |ns| ==> r[i] == ns[i].(isRead := true)
  {
    if ns == [] then [] else AllRead(ns[..|ns| - 1]) + [ns[|ns| - 1].(isRead := true)]
  }

  /** The notifications with this id marked read; all others as they were. */
  function MarkedRead(ns: seq<Notification>, id: string): (r: seq<Notification>)
    ensures |r| == |ns|
    ensures forall i :: 0 <= i < |ns| ==> r[i] == if ns[i].id == id then ns[i].(isRead := true) else ns[i]
  {
    if ns == [] then []
    else
      var x := ns[|ns| - 1];
      MarkedRead(ns[..|ns| - 1], id) + [if x.id == id then x.(isRead := true) else x]
  }

  /** Two lists that agree on every type (and so on every count). */
  predicate SameKinds(a: seq<Notification>, b: seq<Notification>) {
    |a| == |b| && forall i :: 0 <= i < |a| ==> a[i].kind == b[i].kind
  }

  lemma {:induction false} SameKindsSameCounts(a: seq<Notification>, b: seq<Notification>, t: NotificationType)
    requires SameKinds(a, b)
    ensures CountOf(a, t) == CountOf(b, t)
  {
    if a != [] {
      SameKindsSameCounts(a[..|a| - 1], b[..|b| - 1], t);
    }
  }

  /** After mark-all-read nothing is unread; ids, types, order and every count are as before. */
  lemma AllReadProperties(ns: seq<Notification>)
    ensures UnreadCount(AllRead(ns)) == 0
    ensures forall i :: 0 <= i < |ns| ==> AllRead(ns)[i].id == ns[i].id && AllRead(ns)[i].kind == ns[i].kind
    ensures CountsOf(AllRead(ns)) == CountsOf(ns)
  {
    var r := AllRead(ns);
    SameKindsSameCounts(r, ns, Like);
    SameKindsSameCounts(r, ns, Comment);
    SameKindsSameCounts(r, ns, Retweet);
    SameKindsSameCounts(r, ns, Follow);
    SameKindsSameCounts(r, ns, Mention);
  }

  /** Marking the same id read twice is the same as once. */
  lemma MarkedReadIdempotent(ns: seq<Notification>, id: string)
    ensures MarkedRead(MarkedRead(ns, id), id) == MarkedRead(ns, id)
  {
  }

  /** Marks for two ids can be applied in either order. */
  lemma MarkedReadCommutes(ns: seq<Notification>, a: string, b: string)
    ensures MarkedRead(MarkedRead(ns, a), b) == MarkedRead(MarkedRead(ns, b), a)
  {
  }

  /** Marking read never raises the unread count, and lowers it when an unread entry has the id. */
  lemma {:induction false} MarkedReadLowersUnread(ns: seq<Notification>, id: string)
    ensures UnreadCount(MarkedRead(ns, id)) <= UnreadCount(ns)
    ensures forall i :: 0 <= i < |ns| && ns[i].id == id && !ns[i].isRead ==> UnreadCount(MarkedRead(ns, id)) < UnreadCount(ns)
  {
    if ns != [] {
      var init := ns[..|ns| - 1];
      MarkedReadLowersUnread(init, id);
      var r := MarkedRead(ns, id);
      assert r[..|r| - 1] == MarkedRead(init, id);
      forall i | 0 <= i < |ns| && ns[i].id == id && !ns[i].isRead
        ensures UnreadCount(r) < UnreadCount(ns)
      {
        if i < |ns| - 1 {
          assert init[i] == ns[i];
        }
      }
    }
  }

  /** Marking read keeps every type and so every count. */
  lemma MarkedReadKeepsCounts(ns: seq<Notification>, id: string)
    ensures CountsOf(MarkedRead(ns, id)) == CountsOf(ns)
  {
    var r := MarkedRead(ns, id);
    SameKindsSameCounts(r, ns, Like);
    SameKindsSameCounts(r, ns, Comment);
    SameKindsSameCounts(r, ns, Retweet);
    SameKindsSameCounts(r, ns, Follow);
    SameKindsSameCounts(r, ns, Mention);
  }

  /** Marking an id with no unread entry leaves the list as it was. */
  lemma MarkedReadNoUnreadIsIdentity(ns: seq<Notification>, id: string)
    requires forall i :: 0 <= i < |ns| && ns[i].id == id ==> ns[i].isRead
    ensures MarkedRead(ns, id) == ns
  {
  }

  /** The list after a card's click has been routed to the page's read handler. */
  function AfterItemClick(ns: seq<Notification>, n: Notification): (r: seq<Notification>)
    ensures n.isRead ==> r == ns
    ensures !n.isRead ==> r == MarkedRead(ns, n.id)
    ensures !n.isRead ==> forall i :: 0 <= i < |r| && r[i].id == n.id ==> r[i].isRead
    ensures n in ns && !n.isRead ==> UnreadCount(r) < UnreadCount(ns)
  {
    match HandleClick(n).readRequest
    case None => ns
    case Some(id) =>
      MarkedReadLowersUnread(ns, id);
      MarkedRead(ns, id)
  }

  // ---------------------------------------------------------------------
  // Page state
  // ---------------------------------------------------------------------

  class PageState {
    var notifications: seq<Notification>
    var activeFilter: FilterType

    constructor ()
      ensures notifications == InitialNotifications && activeFilter == All
    {
      notifications := InitialNotifications;
      activeFilter := All;
    }

    /** The per-filter counts, accumulated one notification at a time. */
    method Counts() returns (result: Counts)
      ensures result == CountsOf(notifications)
    {
      result := map[All := |notifications|, Only(Like) := 0, Only(Comment) := 0,
                    Only(Retweet) := 0, Only(Follow) := 0, Only(Mention) := 0];
      var i := 0;
      while i < |notifications|
        invariant 0 <= i <= |notifications|
        invariant result == Tally(|notifications|, notifications[..i])
      {
        var n := notifications[i];
        TallyStep(|notifications|, notifications[..i], n);
        assert notifications[..i + 1] == notifications[..i] + [n];
        result := result[Only(n.kind) := result[Only(n.kind)] + 1];
        i := i + 1;
      }
      assert notifications[..i] == notifications;
    }

    /** A pill click: the reported filter becomes the active one. */
    method SelectFilter(f: FilterType)
      modifies this
      ensures activeFilter == f && notifications == old(notifications)
    {
      activeFilter := f;
    }

    method HandleMarkAllRead()
      modifies this
      ensures notifications == AllRead(old(notifications)) && activeFilter == old(activeFilter)
      ensures UnreadCount(notifications) == 0
    {
      notifications := AllRead(notifications);
      AllReadProperties(old(notifications));
    }

    /** Clear all, behind a confirmation whose answer is `confirmed`. */
    method HandleClearAll(confirmed: bool)
      modifies this
      ensures notifications == if confirmed then [] else old(notifications)
      ensures activeFilter == old(activeFilter)
      ensures confirmed ==> UnreadCount(notifications) == 0 && forall f :: CountsOf(notifications)[f] == 0
    {
      if confirmed {
        notifications := [];
      }
    }

    method HandleNotificationRead(id: string)
      modifies this
      ensures notifications == MarkedRead(old(notifications), id) && activeFilter == old(activeFilter)
      ensures UnreadCount(notifications) <= UnreadCount(old(notifications))
    {
      notifications := MarkedRead(notifications, id);
      MarkedReadLowersUnread(old(notifications), id);
    }

    /** A click on a displayed card: the card's read request, if any, goes to the read handler. */
    method HandleItemClick(n: Notification) returns (clicked: Notification)
      modifies this
      ensures notifications == AfterItemClick(old(notifications), n) && activeFilter == old(activeFilter)
      ensures clicked == n
    {
      var events := HandleClick(n);
      if events.readRequest.Some? {
        HandleNotificationRead(events.readRequest.value);
      }
      clicked := events.clicked;
    }
  }
}
