/** The hunt schedule store and its claim/finish protocol (core/cloud_hunt_scheduler.py). */
module Scheduler {
  import opened Wrappers
  import opened Calendar

  /** Instants are microseconds on the UTC wall clock; `MINUTE` of them make a minute. */
  const MINUTE := 60_000_000

  /** Far enough from the calendar's first day for every local reading to exist. */
  type Instant = t: int | 4 * 1440 * MINUTE <= t witness 4 * 1440 * MINUTE

  /** A fixed UTC offset in whole minutes, bounded as Python bounds it. */
  type Offset = o: int | -1440 < o < 1440

  type WholeRule = r: Rule | ValidRule(r) witness Rule(Daily, None, None, 0, 0)

  datatype TriggerKey = Scheduled(id: nat, at: int) | Manual(token: nat)

  datatype Schedule = Schedule(
    organization: nat,
    enabled: bool,
    rule: WholeRule,
    offset: Offset,
    nextRun: int,
    activeRun: Option<nat>,
    lastKey: Option<TriggerKey>,
    lastRun: Option<int>,
    lastSuccess: Option<int>,
    failing: bool,
    version: nat)

  datatype Request = Request(enabled: bool, rule: WholeRule, offset: Offset, expectedVersion: Option<nat>)

  datatype Error = NotFound | StaleVersion | RunActive

  type Items = map<nat, Schedule>

  function Local(after: int, offset: Offset): (r: Wall)
    requires 2 * 1440 <= after / MINUTE - 1
    ensures ValidWall(r) && WallMinute(r) == after / MINUTE + offset
  {
    FromWallMinute(after / MINUTE + offset)
  }

  /** `next_occurrence`: local minute, next matching local minute, back to UTC. */
  function NextRun(rule: WholeRule, offset: Offset, after: int): int
    requires 3 * 1440 * MINUTE <= after
  {
    (WallMinute(NextWall(rule, Local(after, offset))) - offset) * MINUTE
  }

  lemma WholeMinute(minutes: int, after: int)
    ensures minutes * MINUTE % MINUTE == 0 && minutes * MINUTE / MINUTE == minutes
    ensures after / MINUTE < minutes ==> after < minutes * MINUTE
  {
  }

  /** The wall-clock reading a next run stands for is the next one of its rule. */
  lemma NextRunReads(rule: WholeRule, offset: Offset, after: int)
    requires 3 * 1440 * MINUTE <= after
    ensures WallMinute(Local(after, offset)) == after / MINUTE + offset
    ensures IsNext(rule, Local(after, offset), NextWall(rule, Local(after, offset)))
    ensures NextRun(rule, offset, after) == (WallMinute(NextWall(rule, Local(after, offset))) - offset) * MINUTE
  {
    hide NextWall, Matches, Ordinal, IsNext;
    NextWallIsNext(rule, Local(after, offset));
  }

  /** A whole minute, later than the minute of `after`, and the first matching one. */
  lemma NextRunIsNext(rule: WholeRule, offset: Offset, after: int)
    requires 3 * 1440 * MINUTE <= after
    ensures var next := NextRun(rule, offset, after);
            && next % MINUTE == 0 && after / MINUTE < next / MINUTE && after < next
            && forall w | ValidWall(w) && Matches(rule, Local(after, offset), w)
                          && after / MINUTE + offset < WallMinute(w) ::
                 next <= (WallMinute(w) - offset) * MINUTE
  {
    hide NextRun, NextWall, Matches, Ordinal, ValidWall, Local, WallMinute;
    NextRunReads(rule, offset, after);
    WholeMinute(WallMinute(NextWall(rule, Local(after, offset))) - offset, after);
  }

  lemma NextRunIsWhole(rule: WholeRule, offset: Offset, after: int)
    requires 3 * 1440 * MINUTE <= after
    ensures NextRun(rule, offset, after) % MINUTE == 0
  {
    NextRunIsNext(rule, offset, after);
  }

  /** Planning from one minute before `now` lands on a given past whole minute exactly when that is the current minute
      and the rule names it. */
  lemma NextRunIsNowIff(rule: WholeRule, offset: Offset, now: Instant, taken: int)
    requires taken % MINUTE == 0 && taken <= now
    ensures NextRun(rule, offset, now - MINUTE) == taken
            <==> now / MINUTE == taken / MINUTE && Matches(rule, Local(now - MINUTE, offset), Local(now, offset))
  {
    hide NextWall, Matches, Ordinal;
    var local, today := Local(now - MINUTE, offset), Local(now, offset);
    NextWallIsNext(rule, local);
    var next := NextWall(rule, local);
    assert (now - MINUTE) / MINUTE == now / MINUTE - 1;
    assert WallMinute(local) == now / MINUTE - 1 + offset && WallMinute(today) == now / MINUTE + offset;
    assert taken == taken / MINUTE * MINUTE;
    assert NextRun(rule, offset, now - MINUTE) == taken <==> WallMinute(next) - offset == taken / MINUTE;
    if WallMinute(next) == WallMinute(today) {
      WallMinuteNames(next, today);
    }
  }

  // ----- store operations as functions of the stored items -----

  predicate Stored(items: Items, id: nat, organization: nat) {
    id in items && items[id].organization == organization
  }

  function CreateIn(items: Items, id: nat, organization: nat, request: Request, now: Instant): Items {
    items[id := Schedule(organization, request.enabled, request.rule, request.offset,
                         NextRun(request.rule, request.offset, now - MINUTE), None, None, None, None, false, 1)]
  }

  function Edited(s: Schedule, request: Request, now: Instant): Schedule {
    s.(enabled := request.enabled, rule := request.rule, offset := request.offset,
       nextRun := NextRun(request.rule, request.offset, now - MINUTE), version := s.version + 1)
  }

  function Finished(s: Schedule, success: bool, now: Instant): Schedule {
    s.(activeRun := None, lastSuccess := if success then Some(now) else s.lastSuccess, failing := !success,
       nextRun := NextRun(s.rule, s.offset, now), version := s.version + 1)
  }

  function UpdateIn(items: Items, id: nat, organization: nat, request: Request, now: Instant): Result<Items, Error> {
    if !Stored(items, id, organization) then Failure(NotFound)
    else
      var s := items[id];
      if request.expectedVersion.Some? && request.expectedVersion.value != s.version then Failure(StaleVersion)
      else if s.activeRun.Some? then Failure(RunActive)
      else Success(items[id := Edited(s, request, now)])
  }

  function ToggleIn(items: Items, id: nat, organization: nat, enabled: bool,
                    expected: Option<nat>): Result<Items, Error> {
    if !Stored(items, id, organization) then Failure(NotFound)
    else if expected.Some? && expected.value != items[id].version then Failure(StaleVersion)
    else Success(items[id := items[id].(enabled := enabled, version := items[id].version + 1)])
  }

  predicate Claimable(s: Schedule, key: TriggerKey, now: int, force: bool) {
    s.enabled && s.activeRun.None? && s.lastKey != Some(key) && (s.nextRun <= now || force)
  }

  /** `Success(None)` is the refused claim. */
  function ClaimIn(items: Items, id: nat, organization: nat, key: TriggerKey, now: int, force: bool,
                   run: nat): Result<Option<Items>, Error> {
    if !Stored(items, id, organization) then Failure(NotFound)
    else if !Claimable(items[id], key, now, force) then Success(None)
    else Success(Some(items[id := items[id].(activeRun := Some(run), lastKey := Some(key), lastRun := Some(now),
                                             version := items[id].version + 1)]))
  }

  function FinishIn(items: Items, id: nat, organization: nat, success: bool, now: Instant): Result<Items, Error> {
    if !Stored(items, id, organization) then Failure(NotFound)
    else
      Success(items[id := Finished(items[id], success, now)])
  }

  function DeleteIn(items: Items, id: nat, organization: nat): Result<Items, Error> {
    if !Stored(items, id, organization) then Failure(NotFound)
    else if items[id].activeRun.Some? then Failure(RunActive)
    else Success(items - {id})
  }

  /** A schedule that is switched off is never claimed, not even by force. */
  lemma SwitchedOffIsRefused(items: Items, id: nat, organization: nat, key: TriggerKey, now: int, force: bool, run: nat)
    requires Stored(items, id, organization) && !items[id].enabled
    ensures ClaimIn(items, id, organization, key, now, force, run) == Success(None)
  {
  }

  /** A claim is taken exactly for a schedule of the organization that is on and idle and whose last trigger was
      another, when its time has come or by force; it then names the worker, the trigger and the time, and leaves the
      rest. */
  lemma ClaimTakenIff(items: Items, id: nat, organization: nat, key: TriggerKey, now: int, force: bool, run: nat)
    ensures var r := ClaimIn(items, id, organization, key, now, force, run);
            && (r.Failure? <==> id !in items || items[id].organization != organization)
            && (r.Success? && r.value.Some? <==>
                  && id in items && items[id].organization == organization
                  && items[id].enabled && items[id].activeRun == None && items[id].lastKey != Some(key)
                  && (force || items[id].nextRun <= now))
            && (r.Success? && r.value.Some? ==>
                  var before, after := items[id], r.value.value[id];
                  && r.value.value == items[id := after]
                  && after.activeRun == Some(run) && after.lastKey == Some(key) && after.lastRun == Some(now)
                  && after.nextRun == before.nextRun && after.rule == before.rule && after.enabled)
  {
  }

  /** Whole-minute next runs, and nothing active or keyed that was never claimed. */
  predicate Sound(s: Schedule) {
    && s.nextRun % MINUTE == 0 && s.version >= 1
    && (s.lastKey.Some? <==> s.lastRun.Some?) && (s.activeRun.Some? ==> s.lastKey.Some?)
  }

  /** Replanning keeps a schedule sound. */
  lemma ReplannedIsSound(s: Schedule, t: Schedule)
    requires Sound(s) && t.nextRun % MINUTE == 0
    requires t.version == s.version + 1 && t.lastKey == s.lastKey && t.lastRun == s.lastRun
    requires t.activeRun == s.activeRun || t.activeRun.None?
    ensures Sound(t)
  {
  }

  predicate AllSound(items: Items) {
    forall id <- items :: Sound(items[id])
  }

  lemma EditingKeepsSound(items: Items, id: nat, request: Request, now: Instant)
    requires AllSound(items) && id in items
    ensures AllSound(items[id := Edited(items[id], request, now)])
  {
    hide NextRun;
    NextRunIsWhole(request.rule, request.offset, now - MINUTE);
    ReplannedIsSound(items[id], Edited(items[id], request, now));
    hide Edited, Sound;
  }

  lemma FinishingKeepsSound(items: Items, id: nat, success: bool, now: Instant)
    requires AllSound(items) && id in items
    ensures AllSound(items[id := Finished(items[id], success, now)])
  {
    hide NextRun;
    NextRunIsWhole(items[id].rule, items[id].offset, now);
    ReplannedIsSound(items[id], Finished(items[id], success, now));
    hide Finished, Sound;
  }

  class ScheduleStore {
    var items: Items

    predicate Valid()
      reads this
    {
      AllSound(items)
    }

    constructor ()
      ensures Valid() && items == map[]
    {
      items := map[];
    }

    method CreateSchedule(id: nat, organization: nat, request: Request, now: Instant)
      requires Valid() && id !in items
      modifies this
      ensures Valid()
      ensures items == CreateIn(old(items), id, organization, request, now)
    {
      hide NextRun;
      NextRunIsWhole(request.rule, request.offset, now - MINUTE);
      var next := NextRun(request.rule, request.offset, now - MINUTE);
      items := items[id := Schedule(organization, request.enabled, request.rule, request.offset, next, None, None, None,
                                    None, false, 1)];
    }

    method UpdateSchedule(id: nat, organization: nat, request: Request, now: Instant) returns (error: Option<Error>)
      requires Valid()
      modifies this
      ensures Valid()
      ensures var r := UpdateIn(old(items), id, organization, request, now);
              if r.Success? then error.None? && items == r.value else error == Some(r.error) && items == old(items)
    {
      if !Stored(items, id, organization) { return Some(NotFound); }
      var current := items[id];
      if request.expectedVersion.Some? && request.expectedVersion.value != current.version {
        return Some(StaleVersion);
      }
      if current.activeRun.Some? { return Some(RunActive); }
      hide NextRun, Sound, AllSound;
      var next := NextRun(request.rule, request.offset, now - MINUTE);
      var edited := current.(enabled := request.enabled, rule := request.rule, offset := request.offset,
                             nextRun := next, version := current.version + 1);
      assert edited == Edited(current, request, now);
      EditingKeepsSound(items, id, request, now);
      hide Edited;
      items := items[id := edited];
      error := None;
    }

    method Toggle(id: nat, organization: nat, enabled: bool, expected: Option<nat>) returns (error: Option<Error>)
      requires Valid()
      modifies this
      ensures Valid()
      ensures var r := ToggleIn(old(items), id, organization, enabled, expected);
              if r.Success? then error.None? && items == r.value else error == Some(r.error) && items == old(items)
    {
      if !Stored(items, id, organization) { return Some(NotFound); }
      if expected.Some? && expected.value != items[id].version { return Some(StaleVersion); }
      items := items[id := items[id].(enabled := enabled, version := items[id].version + 1)];
      error := None;
    }

    method Claim(id: nat, organization: nat, key: TriggerKey, now: int, force: bool,
                 run: nat) returns (claimed: Result<bool, Error>)
      requires Valid()
      modifies this
      ensures Valid()
      ensures var r := ClaimIn(old(items), id, organization, key, now, force, run);
              match r
              case Failure(e) => claimed == Failure(e) && items == old(items)
              case Success(None) => claimed == Success(false) && items == old(items)
              case Success(Some(after)) => claimed == Success(true) && items == after
      ensures claimed == Success(true) ==> old(items)[id].enabled && old(items)[id].activeRun.None?
    {
      if !Stored(items, id, organization) { return Failure(NotFound); }
      var current := items[id];
      if !current.enabled || current.activeRun.Some? || current.lastKey == Some(key)
         || (current.nextRun > now && !force) {
        return Success(false);
      }
      items := items[id := current.(activeRun := Some(run), lastKey := Some(key), lastRun := Some(now),
                                    version := current.version + 1)];
      claimed := Success(true);
    }

    method FinishRun(id: nat, organization: nat, success: bool, now: Instant) returns (error: Option<Error>)
      requires Valid()
      modifies this
      ensures Valid()
      ensures var r := FinishIn(old(items), id, organization, success, now);
              if r.Success? then error.None? && items == r.value else error == Some(r.error) && items == old(items)
    {
      if !Stored(items, id, organization) { return Some(NotFound); }
      var current := items[id];
      hide NextRun, Sound, AllSound;
      var next := NextRun(current.rule, current.offset, now);
      var finished := current.(activeRun := None, lastSuccess := if success then Some(now) else current.lastSuccess,
                               failing := !success, nextRun := next, version := current.version + 1);
      assert finished == Finished(current, success, now);
      FinishingKeepsSound(items, id, success, now);
      hide Finished;
      items := items[id := finished];
      error := None;
    }

    method Delete(id: nat, organization: nat) returns (error: Option<Error>)
      requires Valid()
      modifies this
      ensures Valid()
      ensures var r := DeleteIn(old(items), id, organization);
              if r.Success? then error.None? && items == r.value else error == Some(r.error) && items == old(items)
    {
      if !Stored(items, id, organization) { return Some(NotFound); }
      if items[id].activeRun.Some? { return Some(RunActive); }
      items := items - {id};
      error := None;
    }
  }

  /** One `trigger` with nobody interleaving: claim, hunt, finish. The hunt's outcome and the finishing time are
      inputs. */
  method Trigger(store: ScheduleStore, id: nat, snapshot: Schedule, now: Instant, force: bool, run: nat, token: nat,
                 huntReturns: bool, later: Instant) returns (hunted: Result<bool, Error>)
    requires store.Valid()
    modifies store
    ensures store.Valid()
    ensures var key := if force then Manual(token) else Scheduled(id, snapshot.nextRun);
            var claim := ClaimIn(old(store.items), id, snapshot.organization, key, now, force, run);
            && (claim.Success? && claim.value.Some? ==>
                  && Success(store.items) == FinishIn(claim.value.value, id, snapshot.organization, huntReturns, later)
                  && hunted == Success(huntReturns)
                  && store.items[id].activeRun == None && later < store.items[id].nextRun)
            && (claim.Failure? || claim.value.None? ==> store.items == old(store.items))
  {
    var key := if force then Manual(token) else Scheduled(id, snapshot.nextRun);
    var claimed := store.Claim(id, snapshot.organization, key, now, force, run);
    if claimed.Failure? || !claimed.value { return claimed; }
    NextRunIsNext(store.items[id].rule, store.items[id].offset, later);
    var error := store.FinishRun(id, snapshot.organization, huntReturns, later);
    return Success(huntReturns);
  }

  /** What a pass over the due schedules leaves of one of them. */
  function Fired(s: Schedule, id: nat, now: Instant, run: nat, huntReturns: bool, later: Instant): Schedule {
    if s.nextRun <= now && Claimable(s, Scheduled(id, s.nextRun), now, false) then
      s.(activeRun := None, lastKey := Some(Scheduled(id, s.nextRun)), lastRun := Some(now),
         lastSuccess := if huntReturns then Some(later) else s.lastSuccess, failing := !huntReturns,
         nextRun := NextRun(s.rule, s.offset, later), version := s.version + 2)
    else s
  }

  /** A pass over the due schedules touches exactly those that are on, idle and due, and whose last trigger was another
      occurrence. */
  lemma FiredIff(s: Schedule, id: nat, now: Instant, run: nat, huntReturns: bool, later: Instant)
    ensures Fired(s, id, now, run, huntReturns, later) != s
            <==> s.enabled && s.activeRun == None && s.nextRun <= now && s.lastKey != Some(Scheduled(id, s.nextRun))
  {
    hide NextRun;
  }

  lemma TriggerFires(items: Items, id: nat, organization: nat, now: Instant, run: nat, huntReturns: bool,
                     later: Instant)
    requires Stored(items, id, organization)
    ensures var claim := ClaimIn(items, id, organization, Scheduled(id, items[id].nextRun), now, false, run).value;
            var fired := items[id := Fired(items[id], id, now, run, huntReturns, later)];
            if claim.Some? then FinishIn(claim.value, id, organization, huntReturns, later) == Success(fired)
            else items == fired
  {
    hide NextRun;
    var s := items[id];
    var claim := ClaimIn(items, id, organization, Scheduled(id, s.nextRun), now, false, run).value;
    if claim.None? {
      assert items[id := s] == items;
    } else {
      assert FinishIn(claim.value, id, organization, huntReturns, later).value
             == items[id := Fired(s, id, now, run, huntReturns, later)];
    }
  }

  /** `run_due`: every listed schedule that is due fires once and is idle again, whatever its hunt did. */
  method RunDue(store: ScheduleStore, organization: nat, listed: seq<nat>, now: Instant, huntReturns: nat -> bool,
                later: nat -> Instant)
    requires store.Valid()
    requires forall i | 0 <= i < |listed| :: Stored(store.items, listed[i], organization)
    requires forall i, j | 0 <= i < j < |listed| :: listed[i] != listed[j]
    modifies store
    ensures store.Valid()
    ensures store.items.Keys == old(store.items).Keys
    ensures forall i | 0 <= i < |listed| :: listed[i] in store.items &&
              store.items[listed[i]] == Fired(old(store.items)[listed[i]], listed[i], now, i, huntReturns(i), later(i))
    ensures forall id <- store.items :: id !in listed ==> store.items[id] == old(store.items)[id]
    ensures forall id <- store.items :: !old(store.items)[id].enabled ==> store.items[id] == old(store.items)[id]
  {
    var snapshots := store.items;
    for i := 0 to |listed|
      invariant store.Valid()
      invariant store.items.Keys == snapshots.Keys
      invariant forall j | 0 <= j < i ::
                  store.items[listed[j]] == Fired(snapshots[listed[j]], listed[j], now, j, huntReturns(j), later(j))
      invariant forall id <- store.items :: id !in listed[..i] ==> store.items[id] == snapshots[id]
    {
      hide NextRun, ClaimIn, FinishIn;
      var id := listed[i];
      var schedule := snapshots[id];
      assert id !in listed[..i];
      TriggerFires(store.items, id, organization, now, i, huntReturns(i), later(i));
      if schedule.enabled && schedule.nextRun <= now {
        var _ := Trigger(store, id, schedule, now, false, i, 0, huntReturns(i), later(i));
      }
    }
  }
}
