/** The notification centre: rule-triggered notifications merged in front of
    the existing ones (replacing equal ids, at most ten kept), marked read,
    removed, and counted. The clock and the day number are parameters. */
module Notifications {
  import opened Common

  datatype Kind = MorningReminder | GreatProgress | WeekComplete | MockTestAvailable

  /** Ids are made from the kind's prefix and the creation time stamp. */
  datatype NotificationId = NotificationId(kind: Kind, stamp: int)

  /** A notification (title, message and action are display text). */
  datatype Notification = Notification(id: NotificationId, kind: Kind, read: bool)

  /** A completion rate (done / total x 100) within [80, 100). */
  predicate NearlyDone(done: nat, total: nat)
  {
    total > 0 && 5 * done >= 4 * total && done < total
  }

  /** NearlyDone is the rate test on the exact percentage x of done out of
      total (x x total = done x 100). */
  lemma NearlyDoneIsRate(done: nat, total: nat, x: real)
    requires total > 0 && x * total as real == done as real * 100.0
    ensures NearlyDone(done, total) <==> 80.0 <= x < 100.0
  {
    RateAtLeast(done, total, x, 80);
    RateAtLeast(done, total, x, 100);
  }

  /** The rate reaches a whole percentage m exactly when 100 done reaches
      m total. */
  lemma RateAtLeast(done: nat, total: nat, x: real, m: int)
    requires total > 0 && x * total as real == done as real * 100.0
    ensures m as real <= x <==> m * total <= 100 * done
  {
    var n := total as real;
    if m as real <= x {
      MulWeak(m as real, x, n);
      assert (m * total) as real <= (100 * done) as real;
    } else {
      MulStrict(x, m as real, n);
      assert (100 * done) as real < (m * total) as real;
    }
  }

  function Make(kind: Kind, stamp: int): Notification
  {
    Notification(NotificationId(kind, stamp), kind, false)
  }

  function When(c: bool, n: Notification): seq<Notification>
  {
    if c then [n] else []
  }

  /** What one check looks at: the clock, today's completed and target
      counts, and the day of the plan. */
  datatype Check = Check(hour: int, minute: int, done: nat, total: nat, currentDay: int)

  /** The condition under which each kind of notification is raised. */
  predicate Triggers(k: Kind, c: Check)
  {
    match k
    case MorningReminder => c.hour == 8 && c.minute == 0
    case GreatProgress => NearlyDone(c.done, c.total)
    case WeekComplete => c.currentDay % 7 == 0
    case MockTestAvailable => c.currentDay == 15 || c.currentDay == 22 || c.currentDay == 27
  }

  /** The order in which the checks push their notifications. */
  const PushOrder: seq<Kind> := [MorningReminder, GreatProgress, WeekComplete, MockTestAvailable]

  /** The notifications raised by the kinds ks, in the order of ks. */
  function Gather(ks: seq<Kind>, c: Check, stamp: int): (ns: seq<Notification>)
    ensures |ns| <= |ks|
  {
    if ks == [] then []
    else When(Triggers(ks[0], c), Make(ks[0], stamp)) + Gather(ks[1..], c, stamp)
  }

  /** A notification is gathered exactly when its kind is listed and
      triggered, and it is then the fresh notification of that kind. */
  lemma {:induction false} GatherMembers(ks: seq<Kind>, c: Check, stamp: int, n: Notification)
    ensures n in Gather(ks, c, stamp) <==> n.kind in ks && Triggers(n.kind, c) && n == Make(n.kind, stamp)
  {
    if ks != [] {
      GatherMembers(ks[1..], c, stamp, n);
      assert n.kind in ks <==> n.kind == ks[0] || n.kind in ks[1..];
    }
  }

  /** Distinct kinds raise notifications with distinct ids. */
  lemma {:induction false} GatherDistinct(ks: seq<Kind>, c: Check, stamp: int)
    requires forall i, j :: 0 <= i < j < |ks| ==> ks[i] != ks[j]
    ensures forall i, j :: 0 <= i < j < |Gather(ks, c, stamp)| ==> Gather(ks, c, stamp)[i].id != Gather(ks, c, stamp)[j].id
  {
    if ks != [] {
      GatherDistinct(ks[1..], c, stamp);
      var head := When(Triggers(ks[0], c), Make(ks[0], stamp));
      var rest := Gather(ks[1..], c, stamp);
      var ns := head + rest;
      assert ks[0] !in ks[1..];
      forall i, j | 0 <= i < j < |ns| ensures ns[i].id != ns[j].id {
        if i < |head| {
          assert ns[i] == Make(ks[0], stamp);
          assert ns[j] == rest[j - |head|] && ns[j] in rest;
          GatherMembers(ks[1..], c, stamp, ns[j]);
          assert ns[j].kind in ks[1..];
          assert ns[j].id.kind != ns[i].id.kind;
        } else {
          assert ns[i] == rest[i - |head|] && ns[j] == rest[j - |head|];
        }
      }
    }
  }

  /** The notifications one check produces, in the order they are pushed:
      each kind appears exactly when its condition holds, unread and
      stamped with the check's time, and no id twice. */
  function NewNotifications(c: Check, stamp: int): (ns: seq<Notification>)
    ensures |ns| <= 4
    ensures forall n :: n in ns ==> !n.read && n.id == NotificationId(n.kind, stamp)
    ensures forall k :: Make(k, stamp) in ns <==> Triggers(k, c)
    ensures forall i, j :: 0 <= i < j < |ns| ==> ns[i].id != ns[j].id
  {
    var ns := Gather(PushOrder, c, stamp);
    GatherDistinct(PushOrder, c, stamp);
    forall n | n in ns ensures !n.read && n.id == NotificationId(n.kind, stamp) {
      GatherMembers(PushOrder, c, stamp, n);
    }
    forall k ensures Make(k, stamp) in ns <==> Triggers(k, c) {
      EveryKindPushed(k);
      GatherMembers(PushOrder, c, stamp, Make(k, stamp));
    }
    ns
  }

  lemma EveryKindPushed(k: Kind)
    ensures k in PushOrder
  {
    match k
    case MorningReminder => assert PushOrder[0] == k;
    case GreatProgress => assert PushOrder[1] == k;
    case WeekComplete => assert PushOrder[2] == k;
    case MockTestAvailable => assert PushOrder[3] == k;
  }

  function Ids(ns: seq<Notification>): set<NotificationId>
  {
    set n | n in ns :: n.id
  }

  /** The existing notifications whose id is not among the new ones, in
      their order. */
  function Kept(newOnes: seq<Notification>, prev: seq<Notification>): (k: seq<Notification>)
    ensures forall n :: n in k <==> n in prev && n.id !in Ids(newOnes)
  {
    var p := (n: Notification) => n.id !in Ids(newOnes);
    forall n ensures n in Filter(prev, p) <==> n in prev && n.id !in Ids(newOnes) {
      FilterMembership(prev, p, n);
    }
    Filter(prev, p)
  }

  /** Keeping works piecewise, so the kept notifications stay in their
      earlier order; a list with no new id is kept whole. */
  lemma KeptKeepsOrder(newOnes: seq<Notification>, a: seq<Notification>, b: seq<Notification>)
    ensures Kept(newOnes, a + b) == Kept(newOnes, a) + Kept(newOnes, b)
    ensures (forall i :: 0 <= i < |a| ==> a[i].id !in Ids(newOnes)) ==> Kept(newOnes, a) == a
  {
    var p := (n: Notification) => n.id !in Ids(newOnes);
    FilterAppend(a, b, p);
    if forall i :: 0 <= i < |a| ==> a[i].id !in Ids(newOnes) {
      FilterAll(a, p);
    }
  }

  /** The merge: the new notifications first, then the existing ones whose
      id is not among them, cut to the first ten. */
  function Merge(newOnes: seq<Notification>, prev: seq<Notification>): (r: seq<Notification>)
    ensures |r| <= 10
    ensures |r| == if |newOnes| + |Kept(newOnes, prev)| <= 10 then |newOnes| + |Kept(newOnes, prev)| else 10
    ensures |newOnes| <= 10 ==> r[..|newOnes|] == newOnes && r[|newOnes|..] <= Kept(newOnes, prev)
    ensures |newOnes| > 10 ==> r == newOnes[..10]
    ensures forall n :: n in r ==> n in newOnes || (n in prev && n.id !in Ids(newOnes))
  {
    var all := newOnes + Kept(newOnes, prev);
    if |all| <= 10 then all else all[..10]
  }

  /** With distinct ids on both sides, the merged list has distinct ids too:
      a new notification replaces an existing one with its id. */
  lemma MergeIdsDistinct(newOnes: seq<Notification>, prev: seq<Notification>)
    requires forall i, j :: 0 <= i < j < |newOnes| ==> newOnes[i].id != newOnes[j].id
    requires forall i, j :: 0 <= i < j < |prev| ==> prev[i].id != prev[j].id
    ensures var r := Merge(newOnes, prev);
      forall i, j :: 0 <= i < j < |r| ==> r[i].id != r[j].id
  {
    var p := (n: Notification) => n.id !in Ids(newOnes);
    var existing := Kept(newOnes, prev);
    FilterKeepsDistinct(prev, p);
    assert existing == Filter(prev, p);
    var all := newOnes + existing;
    forall i, j | 0 <= i < j < |all| ensures all[i].id != all[j].id {
      if i < |newOnes| && j >= |newOnes| {
        assert all[j] in existing;
        assert all[i].id in Ids(newOnes);
      } else if i >= |newOnes| {
        assert all[i] == existing[i - |newOnes|] && all[j] == existing[j - |newOnes|];
      }
    }
  }

  /** Filtering keeps ids distinct. */
  lemma {:induction false} FilterKeepsDistinct(ns: seq<Notification>, p: Notification -> bool)
    requires forall i, j :: 0 <= i < j < |ns| ==> ns[i].id != ns[j].id
    ensures forall i, j :: 0 <= i < j < |Filter(ns, p)| ==> Filter(ns, p)[i].id != Filter(ns, p)[j].id
  {
    if ns != [] {
      FilterKeepsDistinct(ns[1..], p);
      var rest := Filter(ns[1..], p);
      assert forall i, j :: 0 <= i < j < |rest| ==> rest[i].id != rest[j].id;
      if p(ns[0]) {
        var r := [ns[0]] + rest;
        assert Filter(ns, p) == r;
        forall i, j | 0 <= i < j < |r| ensures r[i].id != r[j].id {
          if i == 0 {
            FilterMembership(ns[1..], p, r[j]);
            var k :| 0 <= k < |ns[1..]| && ns[1..][k] == r[j];
            assert ns[k + 1] == r[j];
          } else {
            assert r[i] == rest[i - 1] && r[j] == rest[j - 1];
          }
        }
      }
    }
  }

  /** markAsRead: read is set on the entries with the id, nothing else
      changes. */
  function MarkedRead(ns: seq<Notification>, id: NotificationId): (r: seq<Notification>)
    ensures |r| == |ns|
    ensures forall i :: 0 <= i < |ns| ==> r[i] == if ns[i].id == id then ns[i].(read := true) else ns[i]
  {
    seq(|ns|, i requires 0 <= i < |ns| => if ns[i].id == id then ns[i].(read := true) else ns[i])
  }

  lemma MarkedReadIdempotent(ns: seq<Notification>, id: NotificationId)
    ensures MarkedRead(MarkedRead(ns, id), id) == MarkedRead(ns, id)
  {
    var once := MarkedRead(ns, id);
    assert forall i :: 0 <= i < |ns| ==> MarkedRead(once, id)[i] == once[i];
  }

  /** removeNotification: exactly the entries with the id go. */
  function Removed(ns: seq<Notification>, id: NotificationId): (r: seq<Notification>)
    ensures forall n :: n in r <==> n in ns && n.id != id
  {
    forall n ensures n in Filter(ns, (x: Notification) => x.id != id) <==> n in ns && n.id != id {
      FilterMembership(ns, (x: Notification) => x.id != id, n);
    }
    Filter(ns, (x: Notification) => x.id != id)
  }

  /** Removal works piecewise, so the remaining notifications keep their
      displayed order; a list without the id is left as it is. */
  lemma RemovedKeepsOrder(a: seq<Notification>, b: seq<Notification>, id: NotificationId)
    ensures Removed(a + b, id) == Removed(a, id) + Removed(b, id)
    ensures (forall i :: 0 <= i < |a| ==> a[i].id != id) ==> Removed(a, id) == a
  {
    FilterAppend(a, b, (x: Notification) => x.id != id);
    if forall i :: 0 <= i < |a| ==> a[i].id != id {
      FilterAll(a, (x: Notification) => x.id != id);
    }
  }

  function UnreadCount(ns: seq<Notification>): (c: nat)
    ensures c <= |ns|
    ensures c == 0 <==> forall i :: 0 <= i < |ns| ==> ns[i].read
  {
    Count(ns, (n: Notification) => !n.read)
  }

  /** Marking a notification read lowers the unread count by the number of
      unread entries with its id, so it never rises. */
  lemma {:induction false} MarkedReadUnread(ns: seq<Notification>, id: NotificationId)
    ensures UnreadCount(MarkedRead(ns, id)) + UnreadWithId(ns, id) == UnreadCount(ns)
  {
    if ns != [] {
      MarkedReadUnread(ns[1..], id);
      assert MarkedRead(ns, id)[1..] == MarkedRead(ns[1..], id);
    }
  }

  function UnreadWithId(ns: seq<Notification>, id: NotificationId): nat
  {
    Count(ns, (n: Notification) => !n.read && n.id == id)
  }

  lemma GatherCons(k: Kind, ks: seq<Kind>, c: Check, stamp: int)
    ensures Gather([k] + ks, c, stamp) == When(Triggers(k, c), Make(k, stamp)) + Gather(ks, c, stamp)
  {
    assert ([k] + ks)[1..] == ks;
  }

  /** The fold over the push order is the four checks in a row. */
  lemma PushOrderUnfolds(c: Check, stamp: int)
    ensures Gather(PushOrder, c, stamp) ==
      When(Triggers(MorningReminder, c), Make(MorningReminder, stamp))
      + When(Triggers(GreatProgress, c), Make(GreatProgress, stamp))
      + When(Triggers(WeekComplete, c), Make(WeekComplete, stamp))
      + When(Triggers(MockTestAvailable, c), Make(MockTestAvailable, stamp))
  {
    var none: seq<Kind> := [];
    assert PushOrder == [MorningReminder] + ([GreatProgress] + ([WeekComplete] + ([MockTestAvailable] + none)));
    GatherCons(MockTestAvailable, none, c, stamp);
    GatherCons(WeekComplete, [MockTestAvailable] + none, c, stamp);
    GatherCons(GreatProgress, [WeekComplete] + ([MockTestAvailable] + none), c, stamp);
    GatherCons(MorningReminder, [GreatProgress] + ([WeekComplete] + ([MockTestAvailable] + none)), c, stamp);
  }

  class Centre {
    var notifications: seq<Notification>
    var showNotifications: bool

    constructor ()
      ensures notifications == [] && !showNotifications
    {
      notifications := [];
      showNotifications := false;
    }

    /** generateNotifications: push the triggered notifications, then merge
        them in front of the list. */
    method GenerateNotifications(c: Check, stamp: int)
      modifies this
      ensures notifications == Merge(NewNotifications(c, stamp), old(notifications))
      ensures showNotifications == old(showNotifications)
    {
      var newOnes: seq<Notification> := [];
      if c.hour == 8 && c.minute == 0 {
        newOnes := newOnes + [Make(MorningReminder, stamp)];
      }
      ghost var p1 := When(Triggers(MorningReminder, c), Make(MorningReminder, stamp));
      assert newOnes == p1;
      if NearlyDone(c.done, c.total) {
        newOnes := newOnes + [Make(GreatProgress, stamp)];
      }
      ghost var p2 := p1 + When(Triggers(GreatProgress, c), Make(GreatProgress, stamp));
      assert newOnes == p2;
      if c.currentDay % 7 == 0 {
        newOnes := newOnes + [Make(WeekComplete, stamp)];
      }
      ghost var p3 := p2 + When(Triggers(WeekComplete, c), Make(WeekComplete, stamp));
      assert newOnes == p3;
      if c.currentDay == 15 || c.currentDay == 22 || c.currentDay == 27 {
        newOnes := newOnes + [Make(MockTestAvailable, stamp)];
      }
      assert newOnes == p3 + When(Triggers(MockTestAvailable, c), Make(MockTestAvailable, stamp));
      PushOrderUnfolds(c, stamp);
      assert NewNotifications(c, stamp) == Gather(PushOrder, c, stamp);
      notifications := Merge(newOnes, notifications);
    }

    method MarkAsRead(id: NotificationId)
      modifies this
      ensures notifications == MarkedRead(old(notifications), id)
      ensures showNotifications == old(showNotifications)
    {
      notifications := MarkedRead(notifications, id);
    }

    method RemoveNotification(id: NotificationId)
      modifies this
      ensures notifications == Removed(old(notifications), id)
      ensures showNotifications == old(showNotifications)
    {
      notifications := Removed(notifications, id);
    }
  }
}
