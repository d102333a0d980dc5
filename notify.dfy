/** Notifications: each scheduler activity that changed something becomes a
    message for the dashboard. The repository's answer to the group lookup
    and the fresh uuid are parameters, one per activity. */
module Notify {
  import opened Wrappers
  import opened Autoscale
  import opened Schedule

  datatype Notification = Notification(
    id: string, groupID: string, name: string, action: string,
    delta: int, count: int, message: string, isError: bool)

  /** The notification for one activity, if any. */
  function ToNotification(msg: SchedulerActivity, group: Result<Group, Error>, uuid: string): (r: Option<Notification>)
    ensures r.None? <==> msg.delta == 0 || group.Failure?
    ensures r.Some? ==> r.value.id == uuid && r.value.groupID == msg.id && r.value.name == group.value.name
    ensures r.Some? ==> r.value.action == "" && (r.value.isError <==> msg.err.Some?)
    ensures r.Some? && msg.err.Some? ==> r.value.message == msg.err.value.Text() && r.value.delta == 0 && r.value.count == 0
    ensures r.Some? && msg.err.None? ==> r.value.message == "" && r.value.delta == msg.delta && r.value.count == msg.count
  {
    if msg.delta == 0 || group.Failure? then None
    else if msg.err.Some? then
      Some(Notification(uuid, msg.id, group.value.name, "", 0, 0, msg.err.value.Text(), true))
    else
      Some(Notification(uuid, msg.id, group.value.name, "", msg.delta, msg.count, "", false))
  }

  /** The notifications for a run of activities. */
  function Notifications(msgs: seq<SchedulerActivity>, groups: seq<Result<Group, Error>>, uuids: seq<string>): seq<Notification>
    requires |groups| == |msgs| && |uuids| == |msgs|
  {
    if |msgs| == 0 then []
    else
      var n := |msgs| - 1;
      var rest := Notifications(msgs[..n], groups[..n], uuids[..n]);
      match ToNotification(msgs[n], groups[n], uuids[n])
      case None => rest
      case Some(notif) => rest + [notif]
  }

  lemma NotificationsSnoc(msgs: seq<SchedulerActivity>, groups: seq<Result<Group, Error>>, uuids: seq<string>,
                          m: SchedulerActivity, g: Result<Group, Error>, u: string)
    requires |groups| == |msgs| && |uuids| == |msgs|
    ensures Notifications(msgs + [m], groups + [g], uuids + [u]) ==
            match ToNotification(m, g, u)
            case None => Notifications(msgs, groups, uuids)
            case Some(notif) => Notifications(msgs, groups, uuids) + [notif]
  {
    assert (msgs + [m])[..|msgs|] == msgs;
    assert (groups + [g])[..|msgs|] == groups;
    assert (uuids + [u])[..|msgs|] == uuids;
  }

  /** Every notification comes from one activity, and every activity that
      yields one is reported. */
  lemma {:induction false} NotificationsSpec(msgs: seq<SchedulerActivity>, groups: seq<Result<Group, Error>>, uuids: seq<string>)
    requires |groups| == |msgs| && |uuids| == |msgs|
    ensures |Notifications(msgs, groups, uuids)| <= |msgs|
    ensures forall notif :: notif in Notifications(msgs, groups, uuids) <==>
              exists i :: 0 <= i < |msgs| && ToNotification(msgs[i], groups[i], uuids[i]) == Some(notif)
  {
    if |msgs| > 0 {
      var n := |msgs| - 1;
      NotificationsSpec(msgs[..n], groups[..n], uuids[..n]);
      assert msgs == msgs[..n] + [msgs[n]];
      assert groups == groups[..n] + [groups[n]];
      assert uuids == uuids[..n] + [uuids[n]];
      NotificationsSnoc(msgs[..n], groups[..n], uuids[..n], msgs[n], groups[n], uuids[n]);
      forall notif ensures notif in Notifications(msgs, groups, uuids) <==>
              exists i :: 0 <= i < |msgs| && ToNotification(msgs[i], groups[i], uuids[i]) == Some(notif)
      {
        if exists i :: 0 <= i < |msgs| && ToNotification(msgs[i], groups[i], uuids[i]) == Some(notif) {
          var i :| 0 <= i < |msgs| && ToNotification(msgs[i], groups[i], uuids[i]) == Some(notif);
          if i < n {
            assert msgs[..n][i] == msgs[i] && groups[..n][i] == groups[i] && uuids[..n][i] == uuids[i];
          }
        }
        if notif in Notifications(msgs[..n], groups[..n], uuids[..n]) {
          var i :| 0 <= i < n && ToNotification(msgs[..n][i], groups[..n][i], uuids[..n][i]) == Some(notif);
          assert msgs[..n][i] == msgs[i] && groups[..n][i] == groups[i] && uuids[..n][i] == uuids[i];
        }
      }
    }
  }

  /** An error notification carries no counts, and a success notification
      always reports a change. */
  lemma NotificationShape(msg: SchedulerActivity, group: Result<Group, Error>, uuid: string)
    requires ToNotification(msg, group, uuid).Some?
    ensures var notif := ToNotification(msg, group, uuid).value;
            (notif.isError ==> notif.delta == 0 && notif.count == 0) &&
            (!notif.isError ==> notif.delta != 0 && notif.message == "")
  {
  }

  class Notifier {
    /** What has been put on the notification channel so far. */
    var sent: seq<Notification>

    constructor ()
      ensures sent == []
    {
      sent := [];
    }

    /** The listener loop over the activities received. */
    method Start(msgs: seq<SchedulerActivity>, groups: seq<Result<Group, Error>>, uuids: seq<string>)
      requires |groups| == |msgs| && |uuids| == |msgs|
      modifies this
      ensures sent == old(sent) + Notifications(msgs, groups, uuids)
    {
      var i := 0;
      while i < |msgs|
        invariant 0 <= i <= |msgs|
        invariant sent == old(sent) + Notifications(msgs[..i], groups[..i], uuids[..i])
      {
        NotificationsSnoc(msgs[..i], groups[..i], uuids[..i], msgs[i], groups[i], uuids[i]);
        assert msgs[..i + 1] == msgs[..i] + [msgs[i]];
        assert groups[..i + 1] == groups[..i] + [groups[i]];
        assert uuids[..i + 1] == uuids[..i] + [uuids[i]];
        var msg := msgs[i];
        i := i + 1;
        if msg.delta == 0 {
          continue;
        }
        if groups[i - 1].Failure? {
          continue;
        }
        var notif := Notification(uuids[i - 1], msg.id, groups[i - 1].value.name, "", 0, 0, "", false);
        if msg.err.Some? {
          notif := notif.(message := msg.err.value.Text(), isError := true);
        } else {
          notif := notif.(delta := msg.delta, count := msg.count);
        }
        sent := sent + [notif];
      }
      assert msgs[..i] == msgs && groups[..i] == groups && uuids[..i] == uuids;
    }
  }
}
