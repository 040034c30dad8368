/**
 * The notification centre: the list filter, the two counters in its
 * header, and the updaters that mark, delete and bulk-process
 * notifications. Each updater maps the old list to a new one.
 */
module NotificationCenter {
  import opened Common

  datatype Notification = Notification(
    id: string,
    title: string,
    message: string,
    kind: string,
    priority: string,
    timestamp: string,
    read: bool,
    actionRequired: bool)

  // ---------------------------------------------------------------------
  // Filtering and counting
  // ---------------------------------------------------------------------

  /** The tab filter: "all", "unread", "action-required", or a notification type. */
  predicate MatchesFilter(n: Notification, filter: string) {
    filter == "all"
    || (filter == "unread" && !n.read)
    || (filter == "action-required" && n.actionRequired)
    || n.kind == filter
  }

  /** The search box: empty, or found (ignoring case) in the title or the message. */
  predicate MatchesSearch(n: Notification, query: string) {
    query == "" || ContainsIgnoreCase(n.title, query) || ContainsIgnoreCase(n.message, query)
  }

  function Shown(filter: string, query: string): Notification -> bool {
    (n: Notification) => MatchesFilter(n, filter) && MatchesSearch(n, query)
  }

  function FilteredNotifications(ns: seq<Notification>, filter: string, query: string): (r: seq<Notification>)
    ensures forall n :: n in r <==> n in ns && MatchesFilter(n, filter) && MatchesSearch(n, query)
    ensures IsSubsequence(r, ns)
  {
    FilterIsSubsequence(ns, Shown(filter, query));
    Filter(ns, Shown(filter, query))
  }

  /** The "all" tab with an empty search shows the whole list. */
  lemma AllTabShowsEverything(ns: seq<Notification>)
    ensures FilteredNotifications(ns, "all", "") == ns
  {
    FilterAll(ns, Shown("all", ""));
  }

  /** The "unread" tab with an empty search shows exactly the unread notifications. */
  lemma UnreadTab(ns: seq<Notification>, n: Notification)
    ensures n in FilteredNotifications(ns, "unread", "") <==> n in ns && (!n.read || n.kind == "unread")
  {
  }

  function Unread(): Notification -> bool {
    (n: Notification) => !n.read
  }

  function UnreadAction(): Notification -> bool {
    (n: Notification) => n.actionRequired && !n.read
  }

  function UnreadCount(ns: seq<Notification>): nat {
    |Filter(ns, Unread())|
  }

  function ActionRequiredCount(ns: seq<Notification>): nat {
    |Filter(ns, UnreadAction())|
  }

  /** Only unread notifications count as requiring action, so that counter never exceeds the unread one. */
  lemma ActionRequiredAtMostUnread(ns: seq<Notification>)
    ensures ActionRequiredCount(ns) <= UnreadCount(ns)
  {
    FilterMonotone(ns, UnreadAction(), Unread());
  }

  // ---------------------------------------------------------------------
  // Updaters
  // ---------------------------------------------------------------------

  function ReadIf(id: string): Notification -> Notification {
    (n: Notification) => if n.id == id then n.(read := true) else n
  }

  /** Marks the notifications with this id read and leaves every other one as it was. */
  function MarkAsRead(ns: seq<Notification>, id: string): (r: seq<Notification>)
    ensures |r| == |ns|
    ensures forall i :: 0 <= i < |ns| ==> r[i] == (if ns[i].id == id then ns[i].(read := true) else ns[i])
  {
    Map(ns, ReadIf(id))
  }

  /** Marking read a second time changes nothing. */
  lemma MarkAsReadIdempotent(ns: seq<Notification>, id: string)
    ensures MarkAsRead(MarkAsRead(ns, id), id) == MarkAsRead(ns, id)
  {
  }

  /** After marking one notification read, none with its id counts as unread. */
  lemma MarkAsReadClears(ns: seq<Notification>, id: string)
    ensures forall n :: n in Filter(MarkAsRead(ns, id), Unread()) ==> n.id != id
  {
  }

  function ReadAll(): Notification -> Notification {
    (n: Notification) => n.(read := true)
  }

  function MarkAllAsRead(ns: seq<Notification>): (r: seq<Notification>)
    ensures |r| == |ns|
    ensures forall i :: 0 <= i < |ns| ==> r[i] == ns[i].(read := true)
  {
    Map(ns, ReadAll())
  }

  /** "Mark all read" leaves nothing unread and nothing requiring action. */
  lemma MarkAllAsReadCounts(ns: seq<Notification>)
    ensures UnreadCount(MarkAllAsRead(ns)) == 0
    ensures ActionRequiredCount(MarkAllAsRead(ns)) == 0
  {
    var r := MarkAllAsRead(ns);
    FilterNone(r, Unread());
    FilterNone(r, UnreadAction());
  }

  function HasOtherId(id: string): Notification -> bool {
    (n: Notification) => n.id != id
  }

  /** Removes exactly the notifications with this id and keeps the rest in order. */
  function DeleteNotification(ns: seq<Notification>, id: string): (r: seq<Notification>)
    ensures forall n :: n in r <==> n in ns && n.id != id
    ensures IsSubsequence(r, ns)
  {
    FilterIsSubsequence(ns, HasOtherId(id));
    Filter(ns, HasOtherId(id))
  }

  /** Deleting an id that is not in the list changes nothing. */
  lemma DeleteAbsent(ns: seq<Notification>, id: string)
    requires forall i :: 0 <= i < |ns| ==> ns[i].id != id
    ensures DeleteNotification(ns, id) == ns
  {
    FilterAll(ns, HasOtherId(id));
  }

  datatype BulkAction = MarkRead | Delete | Archive

  function ReadIfSelected(sel: seq<string>): Notification -> Notification {
    (n: Notification) => if n.id in sel then n.(read := true) else n
  }

  function NotSelected(sel: seq<string>): Notification -> bool {
    (n: Notification) => n.id !in sel
  }

  /** A bulk action over the selected ids; the result pairs the new list with the new selection. */
  function HandleBulkAction(ns: seq<Notification>, sel: seq<string>, action: BulkAction): (r: (seq<Notification>, seq<string>))
    ensures r.1 == []
    ensures action == MarkRead ==> |r.0| == |ns|
    ensures action == MarkRead ==>
      forall i :: 0 <= i < |ns| ==> r.0[i] == (if ns[i].id in sel then ns[i].(read := true) else ns[i])
    ensures action == Delete ==> IsSubsequence(r.0, ns) && forall n :: n in r.0 <==> n in ns && n.id !in sel
    ensures action == Archive ==> r.0 == ns
  {
    match action
    case MarkRead => (Map(ns, ReadIfSelected(sel)), [])
    case Delete =>
      FilterIsSubsequence(ns, NotSelected(sel));
      (Filter(ns, NotSelected(sel)), [])
    case Archive => (ns, [])
  }

  /** Bulk read with a single selected id is the same as marking that one read. */
  lemma BulkReadOfOne(ns: seq<Notification>, id: string)
    ensures HandleBulkAction(ns, [id], MarkRead).0 == MarkAsRead(ns, id)
  {
  }

  /** Bulk delete with a single selected id is the same as deleting that one. */
  lemma {:induction false} BulkDeleteOfOne(ns: seq<Notification>, id: string)
    ensures HandleBulkAction(ns, [id], Delete).0 == DeleteNotification(ns, id)
  {
    if ns != [] {
      BulkDeleteOfOne(ns[1..], id);
    }
  }

  /** Running any action of a notification marks it read (the action itself only logs). */
  function HandleNotificationAction(ns: seq<Notification>, id: string, action: string): (r: seq<Notification>)
    ensures |r| == |ns|
    ensures forall i :: 0 <= i < |ns| && ns[i].id == id ==> r[i].read
  {
    MarkAsRead(ns, id)
  }

  // ---------------------------------------------------------------------
  // Time stamps
  // ---------------------------------------------------------------------

  const MillisPerHour: int := 1000 * 60 * 60

  /**
   * The age label of a notification. `elapsed` is now minus the time stamp
   * in milliseconds, None when the time stamp does not parse; `localeDate`
   * is the locale's rendering of the date.
   */
  function FormatTimestamp(elapsed: Option<int>, localeDate: string): (r: string)
    ensures elapsed.Some? && elapsed.value / MillisPerHour < 1 ==> r == "Just now"
    ensures elapsed.Some? && 1 <= elapsed.value / MillisPerHour < 24 ==>
      r == NatToString(elapsed.value / MillisPerHour) + "h ago"
    ensures elapsed.Some? && 24 <= elapsed.value / MillisPerHour < 48 ==> r == "Yesterday"
    ensures elapsed.None? || elapsed.value / MillisPerHour >= 48 ==> r == localeDate
  {
    match elapsed
    case None => localeDate
    case Some(ms) =>
      // Math.floor: with a positive divisor Dafny's division rounds down too.
      var hours := ms / MillisPerHour;
      if hours < 1 then "Just now"
      else if hours < 24 then NatToString(hours) + "h ago"
      else if hours < 48 then "Yesterday"
      else localeDate
  }

  /** A time stamp in the future, or less than an hour old, reads "Just now". */
  lemma FutureIsJustNow(ms: int, localeDate: string)
    requires ms < MillisPerHour
    ensures FormatTimestamp(Some(ms), localeDate) == "Just now"
  {
  }

  /** An "h ago" label shows one or two digits, the whole hours elapsed. */
  lemma HoursAgoLabel(ms: int, localeDate: string)
    requires MillisPerHour <= ms < 24 * MillisPerHour
    ensures var h := ms / MillisPerHour;
      && 1 <= h < 24
      && FormatTimestamp(Some(ms), localeDate) == NatToString(h) + "h ago"
      && 1 <= |NatToString(h)| <= 2
  {
    var h := ms / MillisPerHour;
    assert 1 <= h < 24;
    if h >= 10 {
      assert NatToString(h) == NatToString(h / 10) + [DigitChar(h % 10)];
    }
  }
}
