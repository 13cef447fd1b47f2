/**
 * The notification centre of frontend/app/notifications.bak/page.tsx: a list of
 * notifications that can be marked read one at a time or all at once, deleted, counted
 * and filtered by tab, and a table of on/off flags per notification category and channel.
 * Every operation computes a new list or record from the old one.
 */
module Notifications {
  import Seqs

  datatype Kind = Appointment | Reminder | Alert | Milestone | Emergency
  datatype Priority = Low | Medium | High | Urgent

  datatype Notification = Notification(id: string, kind: Kind, title: string, message: string,
                                        timestamp: string, read: bool, priority: Priority,
                                        actionRequired: bool)

  predicate IsUnread(n: Notification) {
    !n.read
  }

  predicate UniqueIds(ns: seq<Notification>) {
    forall i, j :: 0 <= i < j < |ns| ==> ns[i].id != ns[j].id
  }

  /** `markAsRead(id)`: the entries with that id become read; nothing else changes. */
  function MarkAsRead(ns: seq<Notification>, id: string): (r: seq<Notification>)
    ensures |r| == |ns|
    ensures forall i :: 0 <= i < |ns| && ns[i].id == id ==> r[i] == ns[i].(read := true)
    ensures forall i :: 0 <= i < |ns| && ns[i].id != id ==> r[i] == ns[i]
  {
    if ns == [] then []
    else [if ns[0].id == id then ns[0].(read := true) else ns[0]] + MarkAsRead(ns[1..], id)
  }

  /** `markAllAsRead`: every entry becomes read; nothing else changes. */
  function MarkAllAsRead(ns: seq<Notification>): (r: seq<Notification>)
    ensures |r| == |ns|
    ensures forall i :: 0 <= i < |ns| ==> r[i] == ns[i].(read := true)
  {
    if ns == [] then [] else [ns[0].(read := true)] + MarkAllAsRead(ns[1..])
  }

  /** `deleteNotification(id)`. */
  function Delete(ns: seq<Notification>, id: string): (r: seq<Notification>)
    ensures forall i :: 0 <= i < |r| ==> r[i].id != id
  {
    Seqs.Filter(ns, (n: Notification) => n.id != id)
  }

  /** `unreadCount`. */
  function UnreadCount(ns: seq<Notification>): (n: nat)
    ensures n <= |ns|
  {
    Seqs.Count(ns, IsUnread)
  }

  datatype Tab = AllTab | UnreadTab | SettingsTab

  /** `filteredNotifications` for the active tab. */
  function Filtered(ns: seq<Notification>, tab: Tab): (r: seq<Notification>)
    ensures |r| <= |ns|
    ensures tab == UnreadTab ==> forall i :: 0 <= i < |r| ==> IsUnread(r[i])
  {
    Seqs.Filter(ns, (n: Notification) => tab != UnreadTab || IsUnread(n))
  }

  /* ---------------------------------------------------------------- list properties */

  lemma MarkAsReadIdempotent(ns: seq<Notification>, id: string)
    ensures MarkAsRead(MarkAsRead(ns, id), id) == MarkAsRead(ns, id)
  {
  }

  /** After "mark all as read" nothing is unread. */
  lemma MarkAllClearsUnread(ns: seq<Notification>)
    ensures UnreadCount(MarkAllAsRead(ns)) == 0
  {
    Seqs.FilterDropsAll(MarkAllAsRead(ns), IsUnread);
  }

  /** Marking an id no entry carries changes nothing. */
  lemma MarkAbsentId(ns: seq<Notification>, id: string)
    requires forall i :: 0 <= i < |ns| ==> ns[i].id != id
    ensures MarkAsRead(ns, id) == ns
  {
  }

  /** With unique ids, marking an unread entry lowers the unread count by exactly one. */
  lemma {:induction false} MarkAsReadLowersUnread(ns: seq<Notification>, id: string, k: nat)
    requires UniqueIds(ns)
    requires k < |ns| && ns[k].id == id && !ns[k].read
    ensures UnreadCount(MarkAsRead(ns, id)) == UnreadCount(ns) - 1
  {
    var m := MarkAsRead(ns, id);
    var rest := ns[1..];
    assert ns == [ns[0]] + rest;
    assert m == [m[0]] + m[1..];
    assert m[1..] == MarkAsRead(rest, id);
    Seqs.FilterAppend([ns[0]], rest, IsUnread);
    Seqs.FilterAppend([m[0]], m[1..], IsUnread);
    if k == 0 {
      MarkAbsentId(rest, id);
    } else {
      MarkAsReadLowersUnread(rest, id, k - 1);
    }
  }

  /** Deleting removes exactly the entries with that id and keeps every other entry, as often
      as it occurs, in order. */
  lemma DeleteKeepsOthers(ns: seq<Notification>, id: string, n: Notification)
    ensures n in Delete(ns, id) <==> n in ns && n.id != id
    ensures Seqs.IsSubsequence(Delete(ns, id), ns)
    ensures multiset(Delete(ns, id))[n] == if n.id != id then multiset(ns)[n] else 0
  {
    Seqs.FilterMembers(ns, (n: Notification) => n.id != id, n);
    Seqs.FilterMultiset(ns, (n: Notification) => n.id != id, n);
    Seqs.FilterIsSubsequence(ns, (n: Notification) => n.id != id);
  }

  /** The unread tab shows exactly the unread entries, in order, as many as the count;
      the other tabs show the whole list. */
  lemma FilteredTabs(ns: seq<Notification>, n: Notification)
    ensures n in Filtered(ns, UnreadTab) <==> n in ns && !n.read
    ensures Seqs.IsSubsequence(Filtered(ns, UnreadTab), ns)
    ensures multiset(Filtered(ns, UnreadTab))[n] == if !n.read then multiset(ns)[n] else 0
    ensures |Filtered(ns, UnreadTab)| == UnreadCount(ns)
    ensures Filtered(ns, AllTab) == ns && Filtered(ns, SettingsTab) == ns
  {
    var unread := (n: Notification) => UnreadTab != UnreadTab || IsUnread(n);
    Seqs.FilterMembers(ns, unread, n);
    Seqs.FilterMultiset(ns, unread, n);
    Seqs.FilterIsSubsequence(ns, unread);
    Seqs.FilterSameTest(ns, unread, IsUnread);
    Seqs.FilterKeepsAll(ns, (n: Notification) => AllTab != UnreadTab || IsUnread(n));
    Seqs.FilterKeepsAll(ns, (n: Notification) => SettingsTab != UnreadTab || IsUnread(n));
  }

  /* ---------------------------------------------------------------- settings */

  datatype Category = Appointments | Reminders | Milestones | Emergencies
  datatype Channel = Email | Sms | Push | InApp

  datatype Channels = Channels(email: bool, sms: bool, push: bool, inApp: bool)
  datatype Settings = Settings(appointments: Channels, reminders: Channels,
                               milestones: Channels, emergencies: Channels)

  function ChannelsOf(s: Settings, c: Category): Channels {
    match c
    case Appointments => s.appointments
    case Reminders => s.reminders
    case Milestones => s.milestones
    case Emergencies => s.emergencies
  }

  function Flag(s: Settings, c: Category, ch: Channel): bool {
    var cs := ChannelsOf(s, c);
    match ch
    case Email => cs.email
    case Sms => cs.sms
    case Push => cs.push
    case InApp => cs.inApp
  }

  function SetChannel(cs: Channels, ch: Channel, v: bool): Channels {
    match ch
    case Email => cs.(email := v)
    case Sms => cs.(sms := v)
    case Push => cs.(push := v)
    case InApp => cs.(inApp := v)
  }

  /** `updateNotificationSetting(category, channel, value)`: that one flag takes the value,
      every other flag keeps its own. */
  function UpdateSetting(s: Settings, c: Category, ch: Channel, v: bool): (r: Settings)
    ensures Flag(r, c, ch) == v
    ensures forall c', ch' :: (c' != c || ch' != ch) ==> Flag(r, c', ch') == Flag(s, c', ch')
  {
    var cs := SetChannel(ChannelsOf(s, c), ch, v);
    match c
    case Appointments => s.(appointments := cs)
    case Reminders => s.(reminders := cs)
    case Milestones => s.(milestones := cs)
    case Emergencies => s.(emergencies := cs)
  }

  const InitialSettings: Settings := Settings(
    Channels(true, true, true, true),
    Channels(true, false, true, true),
    Channels(true, false, true, true),
    Channels(true, true, true, true))

  /** Everything starts switched on except text messages for reminders and milestones. */
  lemma InitialFlags(c: Category, ch: Channel)
    ensures Flag(InitialSettings, c, ch) <==> !(ch == Sms && (c == Reminders || c == Milestones))
  {
  }
}
