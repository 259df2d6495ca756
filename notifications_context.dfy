/** The notifications store: a list of notifications with read flags and
    three on/off switches for the kinds of notification a user wants. */
module NotificationsContext {
  import Seqs

  datatype NotificationType = NewItem | ClaimApproved | Message | Match

  /** A notification; its icon is presentation and is left out. */
  datatype Notification = Notification(
    id: int,
    kind: NotificationType,
    title: string,
    message: string,
    time: string,
    unread: bool)

  /** The three switches of `enabledNotifications`. */
  datatype Switches = Switches(newItems: bool, claimUpdates: bool, messages: bool)

  /** The key `toggleNotification` receives. */
  datatype Channel = NewItems | ClaimUpdates | Messages

  const BackpackMessage: string := "A blue backpack matching your description was just reported"
  const ClaimMessage: string := "Your claim for \"Calculator TI-84\" has been verified"
  const AdminMessage: string := "Admin has responded to your inquiry about the water bottle"
  const MatchMessage: string := "3 new items match your saved search criteria"
  const BottleMessage: string := "Someone found a red water bottle near the gymnasium"

  /** The five notifications the store starts with, the first three unread. */
  function SeedNotifications(): seq<Notification> {
    [ Notification(1, NewItem, "New Item Found",
        BackpackMessage, "5 minutes ago", true),
      Notification(2, ClaimApproved, "Claim Approved",
        ClaimMessage, "1 hour ago", true),
      Notification(3, Message, "New Message",
        AdminMessage, "3 hours ago", true),
      Notification(4, Match, "Possible Match",
        MatchMessage, "1 day ago", false),
      Notification(5, NewItem, "Item Reported",
        BottleMessage, "2 days ago", false) ]
  }

  function SeedSwitches(): Switches {
    Switches(true, true, true)
  }

  ghost predicate UniqueIds(ns: seq<Notification>) {
    forall i, j :: 0 <= i < j < |ns| ==> ns[i].id != ns[j].id
  }

  predicate IsUnread(n: Notification) {
    n.unread
  }

  /** `notifications.filter(n => n.unread).length`. */
  function UnreadCount(ns: seq<Notification>): (c: nat)
    ensures c <= |ns|
    ensures c == 0 <==> forall n :: n in ns ==> !n.unread
  {
    |Seqs.Filter(ns, IsUnread)|
  }

  /** The first notification contributes one exactly when it is unread. */
  lemma UnreadCountCons(ns: seq<Notification>)
    requires ns != []
    ensures UnreadCount(ns) == (if ns[0].unread then 1 else 0) + UnreadCount(ns[1..])
  {
    assert ns == [ns[0]] + ns[1..];
  }

  /** The list `markAsRead(id)` leaves behind. */
  function MarkRead(ns: seq<Notification>, id: int): (r: seq<Notification>)
    ensures |r| == |ns|
    ensures forall i :: 0 <= i < |ns| && ns[i].id == id ==> r[i] == ns[i].(unread := false)
    ensures forall i :: 0 <= i < |ns| && ns[i].id != id ==> r[i] == ns[i]
  {
    seq(|ns|, i requires 0 <= i < |ns| => if ns[i].id == id then ns[i].(unread := false) else ns[i])
  }

  /** The list `markAllAsRead()` leaves behind. */
  function MarkAllRead(ns: seq<Notification>): (r: seq<Notification>)
    ensures |r| == |ns|
    ensures forall i :: 0 <= i < |ns| ==> r[i] == ns[i].(unread := false)
  {
    seq(|ns|, i requires 0 <= i < |ns| => ns[i].(unread := false))
  }

  /** The switches after `toggleNotification(ch)`. */
  function Toggle(s: Switches, ch: Channel): (r: Switches)
    ensures ch == NewItems ==> r == s.(newItems := !s.newItems)
    ensures ch == ClaimUpdates ==> r == s.(claimUpdates := !s.claimUpdates)
    ensures ch == Messages ==> r == s.(messages := !s.messages)
  {
    match ch
    case NewItems => s.(newItems := !s.newItems)
    case ClaimUpdates => s.(claimUpdates := !s.claimUpdates)
    case Messages => s.(messages := !s.messages)
  }

  /** Whether switch `ch` is on. */
  function IsOn(s: Switches, ch: Channel): bool {
    match ch
    case NewItems => s.newItems
    case ClaimUpdates => s.claimUpdates
    case Messages => s.messages
  }

  /** Toggling flips exactly the named switch. */
  lemma ToggleFlipsOnlyThat(s: Switches, ch: Channel, other: Channel)
    ensures IsOn(Toggle(s, ch), ch) == !IsOn(s, ch)
    ensures other != ch ==> IsOn(Toggle(s, ch), other) == IsOn(s, other)
  {
  }

  /** Toggling the same switch twice restores the switches. */
  lemma ToggleTwice(s: Switches, ch: Channel)
    ensures Toggle(Toggle(s, ch), ch) == s
  {
  }

  /** A list whose unread flags are each implied by another's has no more
      unread notifications than it. */
  lemma {:induction false} FewerUnreadFlags(r: seq<Notification>, ns: seq<Notification>)
    requires |r| == |ns|
    requires forall i :: 0 <= i < |r| && r[i].unread ==> ns[i].unread
    ensures UnreadCount(r) <= UnreadCount(ns)
  {
    if r != [] {
      UnreadCountCons(r);
      UnreadCountCons(ns);
      FewerUnreadFlags(r[1..], ns[1..]);
    }
  }

  /** `markAsRead` never raises the unread count. */
  lemma MarkReadNeverIncreases(ns: seq<Notification>, id: int)
    ensures UnreadCount(MarkRead(ns, id)) <= UnreadCount(ns)
  {
    FewerUnreadFlags(MarkRead(ns, id), ns);
  }

  /** With unique ids, `markAsRead(id)` lowers the unread count by exactly
      one when the notification with that id was unread, and otherwise
      leaves it as it is. */
  lemma {:induction false} MarkReadUniqueCount(ns: seq<Notification>, id: int)
    requires UniqueIds(ns)
    ensures UnreadCount(MarkRead(ns, id)) ==
      UnreadCount(ns) - (if exists i :: 0 <= i < |ns| && ns[i].id == id && ns[i].unread then 1 else 0)
  {
    if ns != [] {
      var r := MarkRead(ns, id);
      assert r[1..] == MarkRead(ns[1..], id);
      UnreadCountCons(r);
      UnreadCountCons(ns);
      MarkReadUniqueCount(ns[1..], id);
      if ns[0].id == id {
        assert forall i :: 0 <= i < |ns[1..]| ==> ns[1..][i].id != id by {
          forall i | 0 <= i < |ns[1..]| ensures ns[1..][i].id != id {
            assert ns[1..][i] == ns[i + 1];
          }
        }
      } else {
        assert (exists i :: 0 <= i < |ns| && ns[i].id == id && ns[i].unread) <==>
               (exists i :: 0 <= i < |ns[1..]| && ns[1..][i].id == id && ns[1..][i].unread) by {
          if i :| 0 <= i < |ns| && ns[i].id == id && ns[i].unread {
            assert ns[1..][i - 1] == ns[i];
          }
          if i :| 0 <= i < |ns[1..]| && ns[1..][i].id == id && ns[1..][i].unread {
            assert ns[i + 1] == ns[1..][i];
          }
        }
      }
    }
  }

  /** After `markAllAsRead` nothing is unread. */
  lemma MarkAllReadClears(ns: seq<Notification>)
    ensures UnreadCount(MarkAllRead(ns)) == 0
  {
    var r := MarkAllRead(ns);
    forall n | n in r ensures !n.unread {
      var i :| 0 <= i < |r| && r[i] == n;
    }
  }

  /** `markAllAsRead` twice is the same as once. */
  lemma MarkAllReadIdempotent(ns: seq<Notification>)
    ensures MarkAllRead(MarkAllRead(ns)) == MarkAllRead(ns)
  {
  }

  /** One of the store's three operations. */
  datatype Op = MarkAsRead(id: int) | MarkAllAsRead | ToggleNotification(ch: Channel)

  function Step(ns: seq<Notification>, op: Op): seq<Notification> {
    match op
    case MarkAsRead(id) => MarkRead(ns, id)
    case MarkAllAsRead => MarkAllRead(ns)
    case ToggleNotification(_) => ns
  }

  /** The list after running `ops` in order. */
  function Run(ns: seq<Notification>, ops: seq<Op>): seq<Notification>
    decreases |ops|
  {
    if ops == [] then ns else Run(Step(ns, ops[0]), ops[1..])
  }

  /** No operation sets a flag back to unread, so whatever runs, the unread
      count never goes up. */
  lemma {:induction false} RunNeverIncreases(ns: seq<Notification>, ops: seq<Op>)
    ensures UnreadCount(Run(ns, ops)) <= UnreadCount(ns)
    decreases |ops|
  {
    if ops != [] {
      var next := Step(ns, ops[0]);
      if ops[0].MarkAsRead? {
        MarkReadNeverIncreases(ns, ops[0].id);
      } else if ops[0].MarkAllAsRead? {
        FewerUnreadFlags(next, ns);
      }
      RunNeverIncreases(next, ops[1..]);
    }
  }

  /** Five notifications of which the first three are unread count three. */
  lemma {:induction false} ThreeOfFiveUnread(ns: seq<Notification>)
    requires |ns| == 5 && ns[0].unread && ns[1].unread && ns[2].unread
    requires !ns[3].unread && !ns[4].unread
    ensures UnreadCount(ns) == 3
  {
    UnreadCountCons(ns);
    UnreadCountCons(ns[1..]);
    UnreadCountCons(ns[2..]);
    UnreadCountCons(ns[3..]);
    UnreadCountCons(ns[4..]);
    assert ns[1..][1..] == ns[2..] && ns[2..][1..] == ns[3..];
    assert ns[3..][1..] == ns[4..] && ns[4..][1..] == [];
  }

  /** Three of the seed notifications start unread. */
  lemma SeedUnread()
    ensures UnreadCount(SeedNotifications()) == 3
  {
    ThreeOfFiveUnread(SeedNotifications());
  }

  lemma SeedUniqueIds()
    ensures UniqueIds(SeedNotifications())
  {
    var s := SeedNotifications();
    assert s[0].id == 1 && s[1].id == 2 && s[2].id == 3 && s[3].id == 4 && s[4].id == 5;
    forall i, j | 0 <= i < j < |s| ensures s[i].id != s[j].id {
      assert s[i].id == i + 1 && s[j].id == j + 1;
    }
  }

  /** The store. */
  class NotificationsProvider {
    var notifications: seq<Notification>
    var enabled: Switches

    constructor ()
      ensures notifications == SeedNotifications() && enabled == SeedSwitches()
      ensures UniqueIds(notifications)
    {
      notifications := SeedNotifications();
      enabled := SeedSwitches();
      SeedUniqueIds();
    }

    /** The unread count the store publishes. */
    function Unread(): nat
      reads this
    {
      UnreadCount(notifications)
    }

    method MarkAsRead(id: int)
      modifies this
      ensures notifications == MarkRead(old(notifications), id)
      ensures enabled == old(enabled)
      ensures Unread() <= old(Unread())
    {
      MarkReadNeverIncreases(notifications, id);
      notifications := MarkRead(notifications, id);
    }

    method MarkAllAsRead()
      modifies this
      ensures notifications == MarkAllRead(old(notifications))
      ensures enabled == old(enabled)
      ensures Unread() == 0
    {
      MarkAllReadClears(notifications);
      notifications := MarkAllRead(notifications);
    }

    method ToggleNotification(ch: Channel)
      modifies this
      ensures enabled == Toggle(old(enabled), ch)
      ensures notifications == old(notifications)
    {
      enabled := Toggle(enabled, ch);
    }
  }
}
