/**
 * The offline status card: its label for the time of the last sync and
 * its manual-sync button. The card's state is a class; the clock, the
 * browser's online flag and the sync manager's queue length come in as
 * parameters.
 */
module OfflineStatus {
  import opened Common

  const MillisPerMinute: int := 60000

  /** Math.floor(diff / 60000), and so on up: floor division, as Dafny's `/` is for a positive divisor. */
  function Minutes(diff: int): int {
    diff / MillisPerMinute
  }

  function Hours(diff: int): int {
    Minutes(diff) / 60
  }

  function Days(diff: int): int {
    Hours(diff) / 24
  }

  /** The unit with an "s" when the count is more than one. */
  function Unit(count: int, unit: string): string {
    if count > 1 then unit + "s" else unit
  }

  function Ago(count: nat, unit: string): string {
    NatToString(count) + " " + Unit(count, unit) + " ago"
  }

  /**
   * formatLastSync; a time stamp of 0 means no sync has happened. The
   * largest whole unit of the elapsed time wins: days, then hours, then
   * minutes.
   */
  function FormatLastSync(timestamp: int, now: int): (r: string)
    ensures timestamp == 0 ==> r == "Never"
    ensures timestamp != 0 && now - timestamp >= 86400000 ==> r == Ago((now - timestamp) / 86400000, "day")
    ensures timestamp != 0 && 3600000 <= now - timestamp < 86400000 ==>
      r == Ago((now - timestamp) / 3600000, "hour")
    ensures timestamp != 0 && 60000 <= now - timestamp < 3600000 ==>
      r == Ago((now - timestamp) / 60000, "minute")
    ensures timestamp != 0 && now - timestamp < 60000 ==> r == "Just now"
  {
    if timestamp == 0 then "Never"
    else
      var diff := now - timestamp;
      FloorsCompose(diff);
      var minutes := Minutes(diff);
      var hours := Hours(diff);
      var days := Days(diff);
      if days > 0 then Ago(days, "day")
      else if hours > 0 then Ago(hours, "hour")
      else if minutes > 0 then Ago(minutes, "minute")
      else "Just now"
  }

  /** One minute reads in the singular, two minutes in the plural. */
  lemma PluralMinutes(timestamp: int, now: int)
    requires timestamp != 0
    ensures 60000 <= now - timestamp < 120000 ==> FormatLastSync(timestamp, now) == "1 minute ago"
    ensures 120000 <= now - timestamp < 180000 ==> FormatLastSync(timestamp, now) == "2 minutes ago"
  {
    var diff := now - timestamp;
    var q := diff / 60000;
    assert 60000 * q <= diff < 60000 * q + 60000;
    if 60000 <= diff < 120000 {
      assert q == 1;
      assert Ago(1, "minute") == "1 minute ago";
    } else if 120000 <= diff < 180000 {
      assert q == 2;
      assert Ago(2, "minute") == "2 minutes ago";
    }
  }

  /** One hour reads in the singular, two hours in the plural. */
  lemma PluralHours(timestamp: int, now: int)
    requires timestamp != 0
    ensures 3600000 <= now - timestamp < 7200000 ==> FormatLastSync(timestamp, now) == "1 hour ago"
    ensures 7200000 <= now - timestamp < 10800000 ==> FormatLastSync(timestamp, now) == "2 hours ago"
  {
    var diff := now - timestamp;
    var q := diff / 3600000;
    assert 3600000 * q <= diff < 3600000 * q + 3600000;
    if 3600000 <= diff < 7200000 {
      assert q == 1;
      assert Ago(1, "hour") == "1 hour ago";
    } else if 7200000 <= diff < 10800000 {
      assert q == 2;
      assert Ago(2, "hour") == "2 hours ago";
    }
  }

  /** One day reads in the singular, two days in the plural. */
  lemma PluralDays(timestamp: int, now: int)
    requires timestamp != 0
    ensures 86400000 <= now - timestamp < 172800000 ==> FormatLastSync(timestamp, now) == "1 day ago"
    ensures 172800000 <= now - timestamp < 259200000 ==> FormatLastSync(timestamp, now) == "2 days ago"
  {
    var diff := now - timestamp;
    var q := diff / 86400000;
    assert 86400000 * q <= diff < 86400000 * q + 86400000;
    if 86400000 <= diff < 172800000 {
      assert q == 1;
      assert Ago(1, "day") == "1 day ago";
    } else if 172800000 <= diff < 259200000 {
      assert q == 2;
      assert Ago(2, "day") == "2 days ago";
    }
  }

  /** The floors compose: whole hours and days of the elapsed milliseconds. */
  lemma FloorsCompose(diff: int)
    ensures Hours(diff) == diff / 3600000
    ensures Days(diff) == diff / 86400000
  {
    var m := diff / 60000;
    var h := m / 60;
    var d := h / 24;
    assert 60000 * m <= diff < 60000 * m + 60000;
    assert 60 * h <= m < 60 * h + 60;
    assert 3600000 * h <= diff < 3600000 * h + 3600000;
    assert 24 * d <= h < 24 * d + 24;
    assert 86400000 * d <= diff < 86400000 * d + 86400000;
  }

  /** A sync less than a minute ago, or a clock behind the time stamp, reads "Just now". */
  lemma UnderAMinuteIsJustNow(timestamp: int, now: int)
    requires timestamp != 0 && now - timestamp < MillisPerMinute
    ensures FormatLastSync(timestamp, now) == "Just now"
  {
  }

  /** Exactly one day-old text: 24 to 48 hours ago reads "1 day ago". */
  lemma OneDayAgo(timestamp: int, now: int)
    requires timestamp != 0 && 86400000 <= now - timestamp < 2 * 86400000
    ensures FormatLastSync(timestamp, now) == "1 day ago"
  {
    FloorsCompose(now - timestamp);
    assert NatToString(1) == "1";
  }

  /** The card. */
  class OfflineStatusPanel {
    var isOnline: bool
    var syncQueueLength: nat
    var lastSyncTime: int
    var isSyncing: bool

    constructor (online: bool)
      ensures isOnline == online && syncQueueLength == 0 && lastSyncTime == 0 && !isSyncing
    {
      isOnline := online;
      syncQueueLength := 0;
      lastSyncTime := 0;
      isSyncing := false;
    }

    /** The online/offline listener: the browser's flag and the manager's queue length. */
    method UpdateOnlineStatus(online: bool, managerQueueLength: nat)
      modifies this
      ensures isOnline == online && syncQueueLength == managerQueueLength
      ensures lastSyncTime == old(lastSyncTime) && isSyncing == old(isSyncing)
    {
      isOnline := online;
      syncQueueLength := managerQueueLength;
    }

    /** handleManualSync: nothing while offline; otherwise the spinner starts and a completion is scheduled. */
    method HandleManualSync() returns (scheduled: bool)
      modifies this
      ensures scheduled == old(isOnline)
      ensures isSyncing == (old(isSyncing) || scheduled)
      ensures isOnline == old(isOnline) && syncQueueLength == old(syncQueueLength)
      ensures lastSyncTime == old(lastSyncTime)
    {
      if !isOnline {
        return false;
      }
      isSyncing := true;
      scheduled := true;
    }

    /**
     * The scheduled completion: the spinner stops, the shown queue length
     * becomes 0 and the last sync time is now. The sync manager is not
     * called, so its queue is not the one shown until the next refresh.
     */
    method ManualSyncDone(now: int)
      modifies this
      ensures !isSyncing && syncQueueLength == 0 && lastSyncTime == now
      ensures isOnline == old(isOnline)
    {
      isSyncing := false;
      syncQueueLength := 0;
      lastSyncTime := now;
    }
  }
}
