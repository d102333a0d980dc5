/** The scheduler: it keeps the set of disabled group IDs and reacts to
    three kinds of event: schedule a group, enable it, disable it. The
    goroutine each event starts runs here to completion inside the event,
    and the group action's result is a parameter: what the action reports,
    and whether it reported before the action timeout. */
module Schedule {
  import opened Wrappers
  import opened Autoscale

  /** What the scheduler reports about one action. */
  datatype SchedulerActivity = SchedulerActivity(id: string, err: Option<Error>, delta: int, count: int)

  /** What a group action reports once it is done. */
  datatype ActionStatus = ActionStatus(err: Option<Error>, delta: int, count: int)

  /** Which case of the wait in handleActionStatus is taken first. */
  datatype Wait = Done | TimedOut

  /** The outcome of an action: its own error if it finished, the timeout error otherwise. */
  function HandleActionStatus(status: ActionStatus, wait: Wait): (err: Option<Error>)
    ensures wait == Done ==> err == status.err
    ensures wait == TimedOut ==> err == Some(ActionTimedOut)
    ensures err.None? ==> wait == Done && status.err.None?
  {
    match wait
    case TimedOut => Some(ActionTimedOut)
    case Done => status.err
  }

  class Scheduler {
    var disabledIDs: map<string, bool>

    /** Every key the scheduler stores maps to true. */
    ghost predicate Valid()
      reads this
    {
      forall id :: id in disabledIDs ==> disabledIDs[id]
    }

    constructor ()
      ensures Valid() && disabledIDs == map[]
    {
      disabledIDs := map[];
    }

    /** Whether the group is disabled. The source asks this both as "is the
        key present" and as "is the stored flag true"; every stored flag
        is true, so the two questions have the same answer. */
    function IsDisabled(id: string): (disabled: bool)
      reads this
      ensures disabled <==> id in disabledIDs.Keys
      ensures this.Valid() ==> (disabled <==> id in disabledIDs && disabledIDs[id])
    {
      id in disabledIDs
    }

    method DisableGroup(id: string)
      modifies this
      ensures disabledIDs == old(disabledIDs)[id := true]
    {
      disabledIDs := disabledIDs[id := true];
    }

    /** A schedule event for `id`. `scale` is what the group's scale action
        would report; `scaled` says whether the action was started. */
    method Schedule(id: string, scale: ActionStatus, wait: Wait) returns (activity: SchedulerActivity, scaled: bool)
      requires Valid()
      modifies this
      ensures Valid()
      ensures scaled <==> id !in old(disabledIDs)
      ensures !scaled ==> activity == SchedulerActivity(id, Some(DisabledGroup), 0, 0)
      ensures !scaled ==> disabledIDs == old(disabledIDs)
      ensures scaled ==> activity == SchedulerActivity(id, HandleActionStatus(scale, wait), scale.delta, scale.count)
      ensures scaled ==> disabledIDs == if activity.err.Some? then old(disabledIDs)[id := true] else old(disabledIDs)
    {
      if id in disabledIDs {
        activity := SchedulerActivity(id, Some(DisabledGroup), 0, 0);
        scaled := false;
        return;
      }
      scaled := true;
      var err := HandleActionStatus(scale, wait);
      if err.Some? {
        DisableGroup(id);
      }
      activity := SchedulerActivity(id, err, scale.delta, scale.count);
    }

    /** An enable event: `id` is no longer disabled. */
    method Enable(id: string)
      requires Valid()
      modifies this
      ensures Valid()
      ensures disabledIDs == old(disabledIDs) - {id}
    {
      disabledIDs := disabledIDs - {id};
    }

    /** A disable event for `id`. `disable` is what the group's disable
        action would report; that action runs, and its activity is reported,
        only when `id` was not already disabled. */
    method Disable(id: string, disable: ActionStatus, wait: Wait) returns (activity: Option<SchedulerActivity>)
      requires Valid()
      modifies this
      ensures Valid()
      ensures activity.Some? <==> id !in old(disabledIDs)
      ensures activity.Some? ==>
                activity.value == SchedulerActivity(id, HandleActionStatus(disable, wait), disable.delta, disable.count)
      ensures disabledIDs == old(disabledIDs)[id := true]
    {
      activity := None;
      if !(id in disabledIDs && disabledIDs[id]) {
        var err := HandleActionStatus(disable, wait);
        activity := Some(SchedulerActivity(id, err, disable.delta, disable.count));
      }
      DisableGroup(id);
    }
  }

  /** A second disable of the same group starts no second disable action. */
  method DisableTwice(s: Scheduler, id: string, a1: ActionStatus, w1: Wait, a2: ActionStatus, w2: Wait)
    returns (first: Option<SchedulerActivity>, second: Option<SchedulerActivity>)
    requires s.Valid()
    modifies s
    ensures s.Valid() && s.IsDisabled(id)
    ensures first.Some? <==> !old(s.IsDisabled(id))
    ensures second == None
  {
    first := s.Disable(id, a1, w1);
    second := s.Disable(id, a2, w2);
  }

  /** The scheduler tests: scheduling an enabled group runs its scale action
      and reports the action's outcome; scheduling a disabled one reports
      the disabled-group error without running it. */
  method ScheduleExamples(id: string, status: ActionStatus)
      returns (enabled: SchedulerActivity, enabledRan: bool, disabled: SchedulerActivity, disabledRan: bool)
    requires status.err.None?
    ensures enabledRan && enabled.id == id && enabled.err.None?
    ensures !disabledRan && disabled.id == id && disabled.err == Some(DisabledGroup)
  {
    var s := new Scheduler();
    s.Enable(id);
    enabled, enabledRan := s.Schedule(id, status, Done);

    s := new Scheduler();
    var _ := s.Disable(id, status, Done);
    disabled, disabledRan := s.Schedule(id, status, Done);
  }
}
