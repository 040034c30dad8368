/**
 * The notification bell in the header: its unread badge and its two
 * updaters, which only ever set the read flag.
 */
module NotificationBell {
  import opened Common

  datatype SimpleNotification = SimpleNotification(
    id: string,
    title: string,
    message: string,
    timestamp: string,
    read: bool)

  function Unread(): SimpleNotification -> bool {
    (n: SimpleNotification) => !n.read
  }

  function UnreadWithId(id: string): SimpleNotification -> bool {
    (n: SimpleNotification) => n.id == id && !n.read
  }

  /** The badge number. */
  function UnreadCount(ns: seq<SimpleNotification>): (c: nat)
    ensures c <= |ns|
  {
    |Filter(ns, Unread())|
  }

  /** The badge is hidden exactly when every notification is read. */
  lemma BadgeZeroIff(ns: seq<SimpleNotification>)
    ensures UnreadCount(ns) == 0 <==> forall i :: 0 <= i < |ns| ==> ns[i].read
  {
    var r := Filter(ns, Unread());
    if r != [] {
      assert r[0] in r;
    } else {
      assert forall i :: 0 <= i < |ns| ==> ns[i] in ns;
    }
  }

  /** The notification with only its read flag changed. */
  predicate SameButRead(a: SimpleNotification, b: SimpleNotification) {
    a.id == b.id && a.title == b.title && a.message == b.message && a.timestamp == b.timestamp
  }

  function ReadAll(): SimpleNotification -> SimpleNotification {
    (n: SimpleNotification) => n.(read := true)
  }

  function MarkAllAsRead(ns: seq<SimpleNotification>): (r: seq<SimpleNotification>)
    ensures |r| == |ns|
    ensures forall i :: 0 <= i < |ns| ==> SameButRead(r[i], ns[i]) && r[i].read
  {
    Map(ns, ReadAll())
  }

  function ReadIf(id: string): SimpleNotification -> SimpleNotification {
    (n: SimpleNotification) => if n.id == id then n.(read := true) else n
  }

  function MarkAsRead(ns: seq<SimpleNotification>, id: string): (r: seq<SimpleNotification>)
    ensures |r| == |ns|
    ensures forall i :: 0 <= i < |ns| ==> SameButRead(r[i], ns[i])
    ensures forall i :: 0 <= i < |ns| ==> r[i].read == (ns[i].read || ns[i].id == id)
  {
    Map(ns, ReadIf(id))
  }

  /** "Mark all as read" clears the badge. */
  lemma MarkAllAsReadClearsBadge(ns: seq<SimpleNotification>)
    ensures UnreadCount(MarkAllAsRead(ns)) == 0
  {
    BadgeZeroIff(MarkAllAsRead(ns));
  }

  /** Marking one id read lowers the badge by the number of unread notifications with that id. */
  lemma {:induction false} MarkAsReadCount(ns: seq<SimpleNotification>, id: string)
    ensures UnreadCount(MarkAsRead(ns, id)) + |Filter(ns, UnreadWithId(id))| == UnreadCount(ns)
  {
    if ns != [] {
      MapCons(ns, ReadIf(id));
      MarkAsReadCount(ns[1..], id);
      assert MarkAsRead(ns, id)[1..] == MarkAsRead(ns[1..], id);
    }
  }

  /** With unique ids, marking an unread notification read lowers the badge by exactly one. */
  lemma MarkOneUnread(ns: seq<SimpleNotification>, i: nat)
    requires i < |ns| && !ns[i].read
    requires forall j :: 0 <= j < |ns| && ns[j].id == ns[i].id ==> j == i
    ensures UnreadCount(MarkAsRead(ns, ns[i].id)) == UnreadCount(ns) - 1
  {
    MarkAsReadCount(ns, ns[i].id);
    OnlyOneMatch(ns, i);
  }

  lemma {:induction false} OnlyOneMatch(ns: seq<SimpleNotification>, i: nat)
    requires i < |ns| && !ns[i].read
    requires forall j :: 0 <= j < |ns| && ns[j].id == ns[i].id ==> j == i
    ensures Filter(ns, UnreadWithId(ns[i].id)) == [ns[i]]
  {
    var p := UnreadWithId(ns[i].id);
    if i == 0 {
      forall x | x in ns[1..] ensures !p(x) {
        var j :| 0 <= j < |ns[1..]| && ns[1..][j] == x;
        assert ns[j + 1] == x;
      }
      FilterNone(ns[1..], p);
    } else {
      assert ns[0].id != ns[i].id;
      OnlyOneMatch(ns[1..], i - 1);
    }
  }
}
