/** The dashboard's scheduler-alert component: it connects to the
    notification websocket, keeps every notification received, and lists
    them as short entries under a badge. The page's host, the random draw
    of the reconnect delay and the parsed message are parameters. */
module SchedulerAlerts {
  import opened Wrappers
  import opened Autoscale

  /** The fields of a received notification the component reads. */
  datatype Notice = Notice(groupID: string, name: string, delta: int, count: int)

  /** An entry of the alert list. */
  datatype Entry = Entry(id: string, msg: string)

  /** The websocket endpoint: the configured one, or the notification
      path on the page's host over secure websockets. */
  function ResolveEndpoint(configured: string, host: string): (url: string)
    ensures |url| > 0
    ensures |configured| > 0 ==> url == configured
    ensures |configured| == 0 ==>
              |url| == |host| + 24 && url[..6] == "wss://" && url[6..|url| - 18] == host &&
              url[|url| - 18..] == "/api/notifications"
  {
    if |configured| == 0 then "wss://" + host + "/api/notifications" else configured
  }

  /** The delay before reconnecting after a close, for a random draw in [0, 1). */
  function ReconnectDelay(random: real): (millis: int)
    requires 0.0 <= random < 1.0
    ensures 0 <= millis < 3000
    ensures millis as real <= random * 3000.0 < millis as real + 1.0
  {
    (random * 3000.0).Floor
  }

  /** The verb of an entry: anything but a decrease reads as growth. */
  function Action(delta: int): (verb: string)
    ensures verb == "shrank" <==> delta < 0
    ensures verb == "grew" <==> delta >= 0
  {
    if delta < 0 then "shrank" else "grew"
  }

  function ToEntry(n: Notice): Entry {
    Entry(n.groupID, n.name + " " + Action(n.delta) + " to " + IntToString(n.count))
  }

  /** The entries for a list of notifications, one each, in order. */
  function Entries(ns: seq<Notice>): (es: seq<Entry>)
    ensures |es| == |ns|
    ensures forall i :: 0 <= i < |ns| ==> es[i] == ToEntry(ns[i])
  {
    seq(|ns|, i requires 0 <= i < |ns| => ToEntry(ns[i]))
  }

  /** A new notification adds exactly its own entry at the end. */
  lemma EntriesAppend(ns: seq<Notice>, n: Notice)
    ensures Entries(ns + [n]) == Entries(ns) + [ToEntry(n)]
  {
  }

  /** An entry names the group, then says how it changed and to what size. */
  lemma EntryShape(n: Notice)
    ensures ToEntry(n).id == n.groupID
    ensures var m := ToEntry(n).msg;
            |m| > |n.name| + 1 && m[..|n.name|] == n.name && m[|n.name|] == ' ' &&
            (n.delta < 0 ==> m[|n.name| + 1..|n.name| + 11] == "shrank to ") &&
            (n.delta >= 0 ==> m[|n.name| + 1..|n.name| + 9] == "grew to ")
  {
    var m := ToEntry(n).msg;
    var rest := Action(n.delta) + " to " + IntToString(n.count);
    assert m == n.name + " " + rest;
    assert m[..|n.name|] == n.name;
    assert m[|n.name| + 1..] == rest;
  }

  /** The component's notification list. It is declared as `notifications: []`
      in the object given to `Ember.Component.extend`, so it lives on the
      prototype: one array shared by every instance, which `addObject`
      changes in place. */
  class NoticeList {
    var items: seq<Notice>

    /** The array as the prototype first holds it. */
    constructor ()
      ensures items == []
    {
      items := [];
    }
  }

  class SchedulerAlerts {
    /** The endpoint configured at build time; empty when none is. */
    const websocketURL: string
    /** The endpoint of the socket last opened. */
    var socketURL: Option<string>
    /** The prototype's list, shared with every other instance. */
    const notifications: NoticeList

    /** A new instance has no socket and takes the shared list as it finds it. */
    constructor (websocketURL: string, shared: NoticeList)
      ensures this.websocketURL == websocketURL && socketURL == None && notifications == shared
    {
      this.websocketURL := websocketURL;
      socketURL := None;
      notifications := shared;
    }

    /** Opens the socket; a close schedules this again after ReconnectDelay. */
    method WebsocketConnect(host: string)
      modifies this
      ensures socketURL == Some(ResolveEndpoint(websocketURL, host))
    {
      var url := websocketURL;
      if |url| == 0 {
        url := "wss://" + host + "/api/notifications";
      }
      socketURL := Some(url);
    }

    /** A message adds its notification at the end of the shared list and
        keeps the others. */
    method MessageHandler(n: Notice)
      modifies notifications
      ensures notifications.items == old(notifications.items) + [n]
    {
      notifications.items := notifications.items + [n];
    }

    /** The alert list, built entry by entry. */
    method NotificationEntries() returns (list: seq<Entry>)
      ensures list == Entries(notifications.items)
    {
      var items := notifications.items;
      list := [];
      for i := 0 to |items|
        invariant list == Entries(items[..i])
      {
        assert items[..i + 1] == items[..i] + [items[i]];
        EntriesAppend(items[..i], items[i]);
        var n := items[i];
        var action := "grew";
        if n.delta < 0 {
          action := "shrank";
        }
        var msg := n.name + " " + action + " to " + IntToString(n.count);
        list := list + [Entry(n.groupID, msg)];
      }
      assert items[..|items|] == items;
    }

    /** The badge's class. */
    function BadgeHasAlerts(): (cls: string)
      reads this, notifications
      ensures cls == "badge-with-alerts" <==> |Entries(notifications.items)| > 0
      ensures cls == "badge-with-no-alerts" <==> Entries(notifications.items) == []
    {
      if |notifications.items| > 0 then "badge-with-alerts" else "badge-with-no-alerts"
    }
  }

  /** After any message the badge shows alerts, and the list gains that
      message's entry. */
  method ReceiveThenList(c: SchedulerAlerts, n: Notice) returns (list: seq<Entry>)
    modifies c.notifications
    ensures c.BadgeHasAlerts() == "badge-with-alerts"
    ensures list == Entries(old(c.notifications.items)) + [ToEntry(n)]
  {
    c.MessageHandler(n);
    EntriesAppend(old(c.notifications.items), n);
    list := c.NotificationEntries();
  }

  /** Two instances over the prototype's list: the first starts with no
      alerts, a message handled by it is shown by the second as well, and a
      third instance created afterwards starts with that alert already in
      its list. */
  method SharedNotifications(url: string, n: Notice) returns (firstBadge: string, second: seq<Entry>, later: string)
    ensures firstBadge == "badge-with-no-alerts"
    ensures second == [ToEntry(n)]
    ensures later == "badge-with-alerts"
  {
    var shared := new NoticeList();
    var first := new SchedulerAlerts(url, shared);
    var other := new SchedulerAlerts(url, shared);
    firstBadge := first.BadgeHasAlerts();
    first.MessageHandler(n);
    EntriesAppend([], n);
    second := other.NotificationEntries();
    var third := new SchedulerAlerts(url, shared);
    later := third.BadgeHasAlerts();
  }
}
