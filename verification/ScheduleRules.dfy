/** When each call on the schedule store is applied, what it then leaves, and what each refusal means
    (core/cloud_hunt_scheduler.py, `ScheduleStore`). */
module ScheduleRules {
  import opened Wrappers
  import opened Calendar
  import opened Scheduler

  /** The schedule is stored for this organization. */
  predicate InReach(items: Items, id: nat, organization: nat) {
    id in items && items[id].organization == organization
  }

  predicate Current(items: Items, id: nat, expected: Option<nat>)
    requires id in items
  {
    expected == None || expected == Some(items[id].version)
  }

  /** An edit is applied exactly to an idle schedule in reach, at the version expected; it replaces switch and rule,
      plans anew from the minute before, and keeps what past runs left. */
  lemma EditedIff(items: Items, id: nat, organization: nat, request: Request, now: Instant)
    ensures var r := UpdateIn(items, id, organization, request, now);
            && (r.Success? <==>
                  InReach(items, id, organization) && Current(items, id, request.expectedVersion)
                  && items[id].activeRun == None)
            && (r.Success? ==>
                  var before := items[id];
                  r.value == items[id := Schedule(organization, request.enabled, request.rule, request.offset,
                                                  NextRun(request.rule, request.offset, now - MINUTE), None,
                                                  before.lastKey, before.lastRun, before.lastSuccess, before.failing,
                                                  before.version + 1)])
            && (r.Failure? ==>
                  && (r.error == NotFound <==> !InReach(items, id, organization))
                  && (r.error == StaleVersion <==>
                        InReach(items, id, organization) && !Current(items, id, request.expectedVersion)))
  {
    hide NextRun;
  }

  /** Toggling is applied to every schedule in reach at the version expected, running or not, and touches the switch. */
  lemma ToggledIff(items: Items, id: nat, organization: nat, enabled: bool, expected: Option<nat>)
    ensures var r := ToggleIn(items, id, organization, enabled, expected);
            && (r.Success? <==> InReach(items, id, organization) && Current(items, id, expected))
            && (r.Success? ==> r.value == items[id := items[id].(enabled := enabled, version := items[id].version + 1)])
            && (r.Failure? ==> r.error == if InReach(items, id, organization) then StaleVersion else NotFound)
  {
  }

  /** A finish is applied to every schedule in reach and leaves it idle, planned from its own time, with the outcome of
      the hunt: a success is dated and clears an earlier failure, a failure keeps the date of the last success. */
  lemma FinishedIff(items: Items, id: nat, organization: nat, success: bool, now: Instant)
    ensures var r := FinishIn(items, id, organization, success, now);
            && (r.Success? <==> InReach(items, id, organization))
            && (r.Success? ==>
                  var before, after := items[id], r.value[id];
                  && r.value == items[id := after]
                  && after.activeRun == None && after.nextRun == NextRun(before.rule, before.offset, now)
                  && after.failing == !success
                  && after.lastSuccess == (if success then Some(now) else before.lastSuccess)
                  && after.lastKey == before.lastKey && after.lastRun == before.lastRun
                  && after.enabled == before.enabled
                  && after.rule == before.rule && after.offset == before.offset && after.version == before.version + 1)
            && (r.Failure? ==> r.error == NotFound)
  {
    hide NextRun;
  }

  /** A schedule is deleted exactly when it is in reach and idle. */
  lemma DeletedIff(items: Items, id: nat, organization: nat)
    ensures var r := DeleteIn(items, id, organization);
            && (r.Success? <==> InReach(items, id, organization) && items[id].activeRun == None)
            && (r.Success? ==> r.value == items - {id})
            && (r.Failure? ==> r.error == if InReach(items, id, organization) then RunActive else NotFound)
  {
  }

  /** Creating stores an idle schedule that never ran, planned from the minute before; deleting it takes it out again.
      */
  lemma CreatedThenDeleted(items: Items, id: nat, organization: nat, request: Request, now: Instant)
    requires id !in items
    ensures var after := CreateIn(items, id, organization, request, now);
            && after == items[id := Schedule(organization, request.enabled, request.rule, request.offset,
                                             NextRun(request.rule, request.offset,
                                                     now - MINUTE), None, None, None, None,
                                             false, 1)]
            && DeleteIn(after, id, organization) == Success(items)
  {
    hide NextRun;
    var after := CreateIn(items, id, organization, request, now);
    assert after - {id} == items;
  }

  /** Only a claim of an unknown schedule is an error; any other refused claim is none. */
  lemma ClaimErrs(items: Items, id: nat, organization: nat, key: TriggerKey, now: int, force: bool, run: nat)
    ensures var r := ClaimIn(items, id, organization, key, now, force, run);
            && (r.Failure? <==> !InReach(items, id, organization)) && (r.Failure? ==> r.error == NotFound)
  {
  }
}
