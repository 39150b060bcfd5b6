/**
 * The filter pills above the notification list: the six filters, the count
 * shown on each, which one is active and how a count becomes a badge.
 */
module NotificationFilter {
  import opened Wrappers
  import opened Decimal
  import opened NotificationItem

  /** "all" or one of the five notification types. */
  datatype FilterType = All | Only(kind: NotificationType)

  /** Per-filter counts, as the page passes them (a record keyed by filter). */
  type Counts = map<FilterType, int>

  /** A pill: its filter, its label (`label` is a Dafny keyword) and its icon name. */
  datatype FilterButton = FilterButton(id: FilterType, labelText: string, icon: string)

  /** The pills, in display order. */
  const Filters: seq<FilterButton> := [
    FilterButton(All, "All", "Bell"),
    FilterButton(Only(Like), "Likes", "Heart"),
    FilterButton(Only(Comment), "Comments", "MessageCircle"),
    FilterButton(Only(Retweet), "Retweets", "Repeat2"),
    FilterButton(Only(Follow), "Follows", "UserPlus"),
    FilterButton(Only(Mention), "Mentions", "AtSign")
  ]

  /** Where a filter sits among the pills. */
  function IndexOf(f: FilterType): (i: nat)
    ensures i < |Filters| && Filters[i].id == f
  {
    match f
    case All => 0
    case Only(Like) => 1
    case Only(Comment) => 2
    case Only(Retweet) => 3
    case Only(Follow) => 4
    case Only(Mention) => 5
  }

  /** The pills list every filter exactly once: six of them, no two with the same id. */
  lemma FiltersAreTheFilterTypes()
    ensures |Filters| == 6
    ensures forall i, j :: 0 <= i < j < |Filters| ==> Filters[i].id != Filters[j].id
    ensures forall i :: 0 <= i < |Filters| ==> IndexOf(Filters[i].id) == i
  {
  }

  /** The count shown for a filter: the supplied count, or 0 when there are no counts or none for this filter. */
  function CountFor(counts: Option<Counts>, f: FilterType): (c: int)
    ensures counts.None? ==> c == 0
    ensures counts.Some? && f !in counts.value ==> c == 0
    ensures counts.Some? && f in counts.value ==> c == counts.value[f]
  {
    if counts.Some? && f in counts.value then counts.value[f] else 0
  }

  /** The filter in force: the prop, or "all" when it is not given. */
  function ActiveOf(activeFilter: Option<FilterType>): FilterType {
    if activeFilter.Some? then activeFilter.value else All
  }

  predicate IsActive(activeFilter: Option<FilterType>, f: FilterType) {
    ActiveOf(activeFilter) == f
  }

  /** Exactly one pill is active: the one at the position of the filter in force ("all" by default). */
  lemma ExactlyOneActive(activeFilter: Option<FilterType>)
    ensures activeFilter.None? ==> IsActive(activeFilter, All)
    ensures forall i :: 0 <= i < |Filters| ==> (IsActive(activeFilter, Filters[i].id) <==> i == IndexOf(ActiveOf(activeFilter)))
  {
  }

  /** Clicking pill i reports that pill's id unchanged; once the page adopts it, pill i and no other is active. */
  function ClickFilter(i: nat): (reported: FilterType)
    requires i < |Filters|
    ensures IndexOf(reported) == i
    ensures forall j :: 0 <= j < |Filters| ==> (IsActive(Some(reported), Filters[j].id) <==> j == i)
  {
    FiltersAreTheFilterTypes();
    ExactlyOneActive(Some(Filters[i].id));
    Filters[i].id
  }

  /**
   * The count badge: absent unless the count is positive; "99+" above 99;
   * otherwise the decimal numeral of the count, which reads back as the count.
   */
  function Badge(count: int): (b: Option<string>)
    ensures b.Some? <==> count > 0
    ensures count > 99 ==> b == Some("99+")
    ensures 0 < count <= 99 ==> b.Some? && IsNumeral(b.value) && |b.value| <= 2 && ParseDigits(b.value) == count
  {
    if count > 0 then
      if count > 99 then Some("99+")
      else ParseNatToString(count); Some(NatToString(count))
    else None
  }

  /** A badge never takes more than three characters. */
  lemma BadgeIsShort(count: int)
    ensures Badge(count).Some? ==> |Badge(count).value| <= 3
  {
  }
}
