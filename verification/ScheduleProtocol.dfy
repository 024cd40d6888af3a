/** Every interleaving of schedule edits, claims and finishes on one store. */
module ScheduleProtocol {
  import opened Wrappers
  import opened Calendar
  import opened Scheduler

  /** `snapshot` is the next run in the copy of the schedule the trigger was given. `now` is the clock as the caller
      read it, which may lag behind the moment the store call takes effect. */
  datatype Event =
    | CreateE(id: nat, organization: nat, request: Request, now: Instant)
    | UpdateE(id: nat, organization: nat, request: Request, now: Instant)
    | ToggleE(id: nat, organization: nat, enabled: bool, expected: Option<nat>)
    | DeleteE(id: nat, organization: nat)
    | ClaimE(worker: nat, id: nat, organization: nat, snapshot: int, now: Instant, force: bool, token: nat)
    | FinishE(worker: nat, success: bool, now: Instant)

  /** What a worker holds, and since when. */
  datatype Hold = Hold(id: nat, organization: nat, since: Instant)

  datatype Occurrence = Occurrence(id: nat, at: int)

  /** `working` holds the workers between a claim and its finish; `log` the occurrences unforced claims took; `used`
      every identifier ever handed out. */
  datatype State = State(items: Items, working: map<nat, Hold>, log: seq<Occurrence>, used: set<nat>, clock: Instant)

  const START := State(map[], map[], [], {}, 4 * 1440 * MINUTE)

  function KeyOf(e: Event): TriggerKey
    requires e.ClaimE?
  {
    if e.force then Manual(e.token) else Scheduled(e.id, e.snapshot)
  }

  /** The event at moment `at`; a refused operation leaves the state as it was, clock aside. */
  function Next(s: State, e: Event, at: Instant): State {
    var t := s.(clock := at);
    match e
    case CreateE(id, organization, request, now) =>
      if id in s.used then t else t.(items := CreateIn(s.items, id, organization, request, now), used := s.used + {id})
    case UpdateE(id, organization, request, now) =>
      var r := UpdateIn(s.items, id, organization, request, now);
      if r.Success? then t.(items := r.value) else t
    case ToggleE(id, organization, enabled, expected) =>
      var r := ToggleIn(s.items, id, organization, enabled, expected);
      if r.Success? then t.(items := r.value) else t
    case DeleteE(id, organization) =>
      var r := DeleteIn(s.items, id, organization);
      if r.Success? then t.(items := r.value) else t
    case ClaimE(worker, id, organization, _, now, force, _) =>
      var r := ClaimIn(s.items, id, organization, KeyOf(e), now, force, worker);
      if worker in s.working || r.Failure? || r.value.None? then t
      else t.(items := r.value.value, working := s.working[worker := Hold(id, organization, at)],
              log := if force then s.log else s.log + [Occurrence(id, s.items[id].nextRun)])
    case FinishE(worker, success, now) =>
      if worker !in s.working then t
      else
        var r := FinishIn(s.items, s.working[worker].id, s.working[worker].organization, success, now);
        if r.Success? then t.(items := r.value, working := s.working - {worker}) else t
  }

  datatype Timed = Timed(event: Event, at: Instant)

  /** An edit's clock was read when every occurrence of its schedule taken since was already due. */
  predicate Prompt(s: State, id: nat, now: int) {
    forall o <- s.log | o.id == id :: o.at <= now
  }

  /** A monotone clock, read before the call takes effect; a finish reads it after its claim. */
  predicate InTime(s: State, e: Timed) {
    && s.clock <= e.at
    && match e.event
       case CreateE(_, _, _, now) => now <= e.at
       case UpdateE(id, _, _, now) => now <= e.at && Prompt(s, id, now)
       case ClaimE(_, _, _, _, now, _, _) => now <= e.at
       case FinishE(worker, _, now) => now <= e.at && (worker in s.working ==> s.working[worker].since <= now)
       case _ => true
  }

  function Run(s: State, events: seq<Timed>): State {
    if events == [] then s
    else Next(Run(s, events[..|events| - 1]), events[|events| - 1].event, events[|events| - 1].at)
  }

  predicate Monotone(s: State, events: seq<Timed>) {
    forall i | 0 <= i < |events| :: InTime(Run(s, events[..i]), events[i])
  }

  // ----- the protocol invariant -----

  predicate Protocol(s: State) {
    && (forall id <- s.items :: id in s.used)
    && (forall w <- s.working ::
          Stored(s.items, s.working[w].id, s.working[w].organization) && s.items[s.working[w].id].activeRun == Some(w))
    && (forall id <- s.items :: s.items[id].activeRun.Some? ==>
          s.items[id].activeRun.value in s.working && s.working[s.items[id].activeRun.value].id == id)
  }

  lemma ClaimKeepsProtocol(s: State, e: Event, at: Instant)
    requires Protocol(s) && e.ClaimE?
    ensures Protocol(Next(s, e, at))
  {
    hide KeyOf;
  }

  lemma FinishKeepsProtocol(s: State, e: Event, at: Instant)
    requires Protocol(s) && e.FinishE?
    ensures Protocol(Next(s, e, at))
  {
    hide NextRun;
  }

  lemma EditKeepsProtocol(s: State, e: Event, at: Instant)
    requires Protocol(s) && !e.ClaimE? && !e.FinishE?
    ensures Protocol(Next(s, e, at))
  {
    hide NextRun;
  }

  lemma NextKeepsProtocol(s: State, e: Event, at: Instant)
    requires Protocol(s)
    ensures Protocol(Next(s, e, at))
  {
    hide Protocol, Next;
    match e
    case ClaimE(_, _, _, _, _, _, _) => ClaimKeepsProtocol(s, e, at);
    case FinishE(_, _, _) => FinishKeepsProtocol(s, e, at);
    case _ => EditKeepsProtocol(s, e, at);
  }

  lemma {:induction false} RunKeepsProtocol(events: seq<Timed>)
    ensures Protocol(Run(START, events))
  {
    if events != [] {
      RunKeepsProtocol(events[..|events| - 1]);
      NextKeepsProtocol(Run(START, events[..|events| - 1]), events[|events| - 1].event, events[|events| - 1].at);
    }
  }

  /** In every reachable state: a schedule has at most one worker; while it has one, no update or delete of it is
      applied; and that worker's finish always finds the schedule and leaves it idle, whether the hunt returned or
      failed. */
  lemma ClaimExcludesEdits(events: seq<Timed>, worker: nat, other: nat, request: Request, organization: nat,
                           success: bool, now: Instant)
    requires var s := Run(START, events); worker in s.working && other in s.working
    ensures var s := Run(START, events);
            var id := s.working[worker].id;
            && (s.working[other].id == id ==> other == worker)
            && UpdateIn(s.items, id, organization, request, now).Failure?
            && DeleteIn(s.items, id, organization).Failure?
            && var r := FinishIn(s.items, id, s.working[worker].organization, success, now);
               r.Success? && r.value[id].activeRun.None? && now < r.value[id].nextRun
  {
    hide NextRun;
    RunKeepsProtocol(events);
    var s := Run(START, events);
    var schedule := s.items[s.working[worker].id];
    NextRunIsNext(schedule.rule, schedule.offset, now);
  }

  // ----- no occurrence fires twice -----

  predicate Whole(t: int) {
    t % MINUTE == 0
  }

  /** Occurrences already taken lie at or before the next run of a schedule that still exists, and in the past; those of
      a claimed schedule were due when it was claimed. */
  predicate Behind(s: State) {
    && (forall id <- s.items :: Whole(s.items[id].nextRun))
    && (forall o <- s.log ::
          Whole(o.at) && o.at <= s.clock && o.id in s.used && (o.id in s.items ==> o.at <= s.items[o.id].nextRun))
    && (forall w <- s.working :: Prompt(s, s.working[w].id, s.working[w].since))
  }

  predicate NonDecreasing(log: seq<Occurrence>) {
    forall i, j | 0 <= i < j < |log| && log[i].id == log[j].id :: log[i].at <= log[j].at
  }

  predicate StrictlyIncreasing(log: seq<Occurrence>) {
    forall i, j | 0 <= i < j < |log| && log[i].id == log[j].id :: log[i].at < log[j].at
  }

  lemma WholeMinutes(a: int, b: int)
    requires Whole(a) && a <= b
    ensures a <= b / MINUTE * MINUTE
    ensures Whole(b) ==> b / MINUTE * MINUTE == b
  {
    assert a == a / MINUTE * MINUTE;
  }

  /** Planning from one minute before `now` goes behind an occurrence taken exactly if the rule names a minute in
      between. */
  lemma EditGoesBackIff(rule: WholeRule, offset: Offset, now: Instant, taken: int)
    requires Whole(taken)
    ensures NextRun(rule, offset, now - MINUTE) < taken
            <==> exists w: Wall :: ValidWall(w) && Matches(rule, Local(now - MINUTE, offset), w)
                                   && now / MINUTE <= WallMinute(w) - offset < taken / MINUTE
  {
    hide NextWall, Matches, Ordinal, ValidWall, WallMinute, NextRun, Local;
    NextRunReads(rule, offset, now - MINUTE);
    var next := NextWall(rule, Local(now - MINUTE, offset));
    WholeMinute(WallMinute(next) - offset, now);
    assert (now - MINUTE) / MINUTE == now / MINUTE - 1 && taken == taken / MINUTE * MINUTE;
    assert NextRun(rule, offset, now - MINUTE) < taken <==> WallMinute(next) - offset < taken / MINUTE;
  }

  /** An edit may move the next run back, but not before the minute its clock showed. */
  lemma EditedRunIsNotBefore(rule: WholeRule, offset: Offset, now: Instant, taken: int)
    requires Whole(taken) && taken <= now
    ensures taken <= NextRun(rule, offset, now - MINUTE)
  {
    hide NextRun;
    NextRunIsNext(rule, offset, now - MINUTE);
    WholeMinutes(taken, now);
    assert (now - MINUTE) / MINUTE == now / MINUTE - 1;
    var next := NextRun(rule, offset, now - MINUTE);
    assert next == next / MINUTE * MINUTE;
  }

  /** A claim takes the next run of the schedule it names, or nothing. */
  lemma ClaimTakesNext(s: State, e: Event, at: Instant)
    requires e.ClaimE?
    ensures var t := Next(s, e, at);
            || t.log == s.log
            || (!e.force && e.id in s.items && s.items[e.id].nextRun <= e.now
                && t.log == s.log + [Occurrence(e.id, s.items[e.id].nextRun)])
  {
    hide KeyOf;
  }

  lemma ClaimKeepsOrder(s: State, e: Event, at: Instant)
    requires e.ClaimE? && Behind(s) && NonDecreasing(s.log)
    ensures NonDecreasing(Next(s, e, at).log)
  {
    hide Next, Whole;
    ClaimTakesNext(s, e, at);
  }

  /** A claim moves no next run, and what it puts to work it holds from now on. */
  lemma ClaimMovesNothing(s: State, e: Event, at: Instant)
    requires e.ClaimE?
    ensures var t := Next(s, e, at);
            && t.clock == at && t.used == s.used && t.items.Keys == s.items.Keys
            && (forall id <- s.items :: t.items[id].nextRun == s.items[id].nextRun)
            && (t.working != s.working ==>
                  && t.working.Keys == s.working.Keys + {e.worker} && e.id in s.items
                  && t.working[e.worker].since == at && t.working[e.worker].id == e.id && s.items[e.id].activeRun.None?
                  && forall w <- s.working :: w in t.working && t.working[w] == s.working[w])
            && (t.log != s.log ==> t.working != s.working)
  {
    hide KeyOf;
  }

  lemma ClaimKeepsBehind(s: State, e: Event, at: Instant)
    requires e.ClaimE? && Protocol(s) && Behind(s) && InTime(s, Timed(e, at))
    ensures Behind(Next(s, e, at))
    ensures NonDecreasing(s.log) ==> NonDecreasing(Next(s, e, at).log)
  {
    hide Next, Whole, NonDecreasing;
    ClaimTakesNext(s, e, at);
    ClaimMovesNothing(s, e, at);
    if NonDecreasing(s.log) { ClaimKeepsOrder(s, e, at); }
  }

  lemma EditKeepsBehind(s: State, e: Event, at: Instant)
    requires e.UpdateE? && Protocol(s) && Behind(s) && InTime(s, Timed(e, at))
    ensures Behind(Next(s, e, at)) && Next(s, e, at).log == s.log
  {
    hide NextRun;
    NextRunIsNext(e.request.rule, e.request.offset, e.now - MINUTE);
    forall o <- s.log | o.id == e.id ensures o.at <= NextRun(e.request.rule, e.request.offset, e.now - MINUTE) {
      EditedRunIsNotBefore(e.request.rule, e.request.offset, e.now, o.at);
    }
  }

  lemma FinishKeepsBehind(s: State, e: Event, at: Instant)
    requires e.FinishE? && Protocol(s) && Behind(s) && InTime(s, Timed(e, at))
    ensures Behind(Next(s, e, at)) && Next(s, e, at).log == s.log
  {
    hide NextRun;
    if e.worker in s.working {
      var schedule := s.items[s.working[e.worker].id];
      NextRunIsNext(schedule.rule, schedule.offset, e.now);
    }
  }

  lemma PlainStoreCallKeepsBehind(s: State, e: Event, at: Instant)
    requires (e.CreateE? || e.ToggleE? || e.DeleteE?) && Protocol(s) && Behind(s) && InTime(s, Timed(e, at))
    ensures Behind(Next(s, e, at)) && Next(s, e, at).log == s.log
  {
    hide NextRun;
    if e.CreateE? { NextRunIsNext(e.request.rule, e.request.offset, e.now - MINUTE); }
  }

  lemma NextKeepsBehind(s: State, e: Event, at: Instant)
    requires Protocol(s) && Behind(s) && InTime(s, Timed(e, at))
    ensures Behind(Next(s, e, at))
    ensures NonDecreasing(s.log) ==> NonDecreasing(Next(s, e, at).log)
  {
    hide Next, NonDecreasing, Behind, Protocol, InTime;
    match e
    case ClaimE(_, _, _, _, _, _, _) => ClaimKeepsBehind(s, e, at);
    case UpdateE(_, _, _, _) => EditKeepsBehind(s, e, at);
    case FinishE(_, _, _) => FinishKeepsBehind(s, e, at);
    case _ => PlainStoreCallKeepsBehind(s, e, at);
  }

  /** A clock read now makes an edit prompt, and it stays so until the schedule is claimed. */
  lemma {:induction false} PromptUntilClaimed(s: State, events: seq<Timed>, id: nat, now: int)
    requires Behind(s) && s.clock <= now
    requires forall e <- events :: !ClaimOf(e.event, id)
    ensures Prompt(Run(s, events), id, now)
  {
    hide Next, Behind;
    if events == [] {
      assert Prompt(s, id, now) by { ReadNowIsPrompt(s, id, now); }
    } else {
      var prefix, last := events[..|events| - 1], events[|events| - 1];
      assert last in events && forall e <- prefix :: e in events;
      PromptUntilClaimed(s, prefix, id, now);
      var before := Run(s, prefix);
      OthersLeaveLog(before, last.event, last.at, id);
    }
  }

  lemma ReadNowIsPrompt(s: State, id: nat, now: int)
    requires Behind(s) && s.clock <= now
    ensures Prompt(s, id, now)
  {
  }

  lemma OthersLeaveLog(s: State, e: Event, at: Instant, id: nat)
    requires !ClaimOf(e, id)
    ensures forall o <- Next(s, e, at).log | o.id == id :: o in s.log
  {
    hide NextRun, UpdateIn, CreateIn, FinishIn, ToggleIn, DeleteIn;
  }

  /** Even with forced triggers and stale snapshots, the occurrences taken by unforced claims of a schedule never go
      back. */
  lemma {:induction false} OccurrencesNeverGoBack(events: seq<Timed>)
    requires Monotone(START, events)
    ensures Behind(Run(START, events)) && NonDecreasing(Run(START, events).log)
  {
    hide Next, Behind;
    if events == [] {
      assert Behind(START) by { StartIsBehind(); }
    } else {
      var prefix, last := events[..|events| - 1], events[|events| - 1];
      forall i | 0 <= i < |prefix| ensures InTime(Run(START, prefix[..i]), prefix[i]) {
        assert prefix[..i] == events[..i];
      }
      OccurrencesNeverGoBack(prefix);
      RunKeepsProtocol(prefix);
      NextKeepsBehind(Run(START, prefix), last.event, last.at);
    }
  }

  lemma StartIsBehind()
    ensures Behind(START)
  {
  }

  /** An unforced trigger working from a current copy of the schedule. */
  predicate Plain(s: State, e: Event) {
    e.ClaimE? ==> !e.force && (e.id in s.items ==> e.snapshot == s.items[e.id].nextRun)
  }

  predicate AllPlain(s: State, events: seq<Timed>) {
    forall i | 0 <= i < |events| :: Plain(Run(s, events[..i]), events[i].event)
  }

  predicate ClaimOf(e: Event, id: nat) {
    e.ClaimE? && e.id == id
  }

  /** Whether a trigger gets its claim. */
  predicate Claims(s: State, e: Event)
    requires e.ClaimE?
  {
    && e.worker !in s.working && Stored(s.items, e.id, e.organization)
    && Claimable(s.items[e.id], KeyOf(e), e.now, e.force)
  }

  /** Forced runs and outdated copies may be tried, but get no claim. */
  predicate Regular(s: State, e: Event) {
    e.ClaimE? && Claims(s, e) ==> Plain(s, e)
  }

  predicate AllRegular(s: State, events: seq<Timed>) {
    forall i | 0 <= i < |events| :: Regular(Run(s, events[..i]), events[i].event)
  }

  /** The stored trigger key names the latest occurrence taken, if there is one. */
  predicate KeyedFor(s: State, id: nat) {
    id in s.items ==>
      match s.items[id].lastKey
      case None => forall o <- s.log :: o.id != id
      case Some(Scheduled(owner, at)) =>
        && owner == id && Occurrence(id, at) in s.log && at <= s.items[id].nextRun
        && forall o <- s.log | o.id == id :: o.at <= at
      case Some(Manual(_)) => false
  }

  /** A claim on a current copy makes the key name the latest occurrence, whatever happened before. */
  lemma PlainClaimKeys(s: State, e: Event, at: Instant)
    requires Behind(s) && e.ClaimE? && Claims(s, e) && Plain(s, e)
    ensures KeyedFor(Next(s, e, at), e.id)
  {
    hide Whole;
    var t := Next(s, e, at);
    assert t.log == s.log + [Occurrence(e.id, s.items[e.id].nextRun)];
    assert t.log[|s.log|] == Occurrence(e.id, s.items[e.id].nextRun);
  }

  lemma PlanKeepsKeyed(s: State, e: Event, at: Instant, id: nat)
    requires Protocol(s) && Behind(s) && KeyedFor(s, id) && InTime(s, Timed(e, at)) && (e.UpdateE? || e.FinishE?)
    ensures KeyedFor(Next(s, e, at), id)
  {
    hide NextRun, Whole;
    if id in s.items && s.items[id].lastKey.Some? && s.items[id].lastKey.value.Scheduled? {
      var taken := s.items[id].lastKey.value.at;
      assert Occurrence(id, taken) in s.log;
      if e.UpdateE? && e.id == id {
        EditedRunIsNotBefore(e.request.rule, e.request.offset, e.now, taken);
      } else if e.FinishE? && e.worker in s.working && s.working[e.worker].id == id {
        NextRunIsNext(s.items[id].rule, s.items[id].offset, e.now);
      }
    }
  }

  lemma NextKeepsKeyed(s: State, e: Event, at: Instant, id: nat)
    requires Protocol(s) && Behind(s) && KeyedFor(s, id) && InTime(s, Timed(e, at))
    requires Regular(s, e) || !ClaimOf(e, id)
    ensures KeyedFor(Next(s, e, at), id)
  {
    hide NextRun, Prompt, Whole;
    match e
    case ClaimE(_, _, _, _, _, _, _) =>
      if Claims(s, e) {
        if e.id == id { PlainClaimKeys(s, e, at); } else { OtherClaimKeepsKeyed(s, e, at, id); }
      }
    case UpdateE(_, _, _, _) => PlanKeepsKeyed(s, e, at, id);
    case FinishE(_, _, _) => PlanKeepsKeyed(s, e, at, id);
    case _ =>
  }

  lemma OtherClaimKeepsKeyed(s: State, e: Event, at: Instant, id: nat)
    requires KeyedFor(s, id) && e.ClaimE? && e.id != id
    ensures KeyedFor(Next(s, e, at), id)
  {
    assert forall o: Occurrence :: o.id == id && o in Next(s, e, at).log ==> o in s.log;
    assert forall o <- s.log :: o in Next(s, e, at).log;
  }

  /** The key goes on naming the latest occurrence of a schedule until a forced run or an outdated copy gets a claim on
      it. */
  lemma {:induction false} RunKeepsKeyed(s: State, events: seq<Timed>, id: nat)
    requires Protocol(s) && Behind(s) && KeyedFor(s, id) && Monotone(s, events)
    requires forall i | 0 <= i < |events| ::
               Regular(Run(s, events[..i]), events[i].event) || !ClaimOf(events[i].event, id)
    ensures Protocol(Run(s, events)) && Behind(Run(s, events)) && KeyedFor(Run(s, events), id)
  {
    hide Next, Behind, KeyedFor, Protocol, Regular, InTime;
    if events != [] {
      var prefix, last := events[..|events| - 1], events[|events| - 1];
      forall i | 0 <= i < |prefix|
        ensures InTime(Run(s, prefix[..i]), prefix[i])
        ensures Regular(Run(s, prefix[..i]), prefix[i].event) || !ClaimOf(prefix[i].event, id)
      {
        assert prefix[..i] == events[..i];
      }
      RunKeepsKeyed(s, prefix, id);
      var before := Run(s, prefix);
      assert InTime(before, last);
      NextKeepsProtocol(before, last.event, last.at);
      NextKeepsBehind(before, last.event, last.at);
      NextKeepsKeyed(before, last.event, last.at, id);
    }
  }

  /** A trigger that would take an occurrence already taken: readable from the stored schedule and the copy before the
      call. */
  predicate WouldRepeat(s: State, e: Event)
    requires e.ClaimE?
  {
    && Claims(s, e)
    && s.items[e.id].lastKey == Some(Scheduled(e.id, s.items[e.id].nextRun)) && e.snapshot != s.items[e.id].nextRun
  }

  /** Where the key names the latest occurrence, an unforced trigger repeats one exactly when the key already names the
      next run and its copy shows another. */
  lemma RepeatsIff(s: State, e: Event, at: Instant)
    requires Behind(s) && e.ClaimE? && !e.force && KeyedFor(s, e.id)
    ensures (Claims(s, e) && Occurrence(e.id, s.items[e.id].nextRun) in s.log) <==> WouldRepeat(s, e)
    ensures Claims(s, e) ==> Next(s, e, at).log == s.log + [Occurrence(e.id, s.items[e.id].nextRun)]
    ensures !Claims(s, e) ==> Next(s, e, at).log == s.log
    ensures Claims(s, e) && !WouldRepeat(s, e) ==> forall o <- s.log | o.id == e.id :: o.at < s.items[e.id].nextRun
  {
  }

  lemma StrictOneMore(log: seq<Occurrence>, o: Occurrence)
    requires StrictlyIncreasing(log)
    ensures (forall p <- log | p.id == o.id :: p.at < o.at) ==> StrictlyIncreasing(log + [o])
    ensures o in log ==> !StrictlyIncreasing(log + [o])
  {
    if o in log {
      var i :| 0 <= i < |log| && log[i] == o;
      assert (log + [o])[i].id == (log + [o])[|log|].id && !((log + [o])[i].at < (log + [o])[|log|].at);
    }
  }

  lemma RegularPrefix(events: seq<Timed>)
    requires events != [] && Monotone(START, events) && AllRegular(START, events)
    ensures Monotone(START, events[..|events| - 1]) && AllRegular(START, events[..|events| - 1])
  {
    var prefix := events[..|events| - 1];
    forall i | 0 <= i < |prefix|
      ensures InTime(Run(START, prefix[..i]), prefix[i]) && Regular(Run(START, prefix[..i]), prefix[i].event)
    {
      assert prefix[..i] == events[..i];
    }
  }

  lemma StartIsKeyed(id: nat)
    ensures Protocol(START) && Behind(START) && KeyedFor(START, id)
  {
  }

  /** No occurrence fires twice: while only unforced triggers on current copies get claims, the occurrences claimed for
      one schedule are strictly increasing over every run, edits, toggles and refused triggers interleaved at will. */
  lemma {:induction false} NoOccurrenceFiresTwice(events: seq<Timed>)
    requires Monotone(START, events) && AllRegular(START, events)
    ensures StrictlyIncreasing(Run(START, events).log)
  {
    hide Next, KeyedFor, Behind, Protocol, Regular, InTime, Claims, WouldRepeat, StrictlyIncreasing;
    if events == [] {
      assert StrictlyIncreasing(START.log) by { NothingTaken(); }
    } else {
      var prefix, last := events[..|events| - 1], events[|events| - 1];
      RegularPrefix(events);
      NoOccurrenceFiresTwice(prefix);
      assert Regular(Run(START, prefix), last.event);
      if last.event.ClaimE? {
        StartIsKeyed(last.event.id);
        RunKeepsKeyed(START, prefix, last.event.id);
        ClaimKeepsStrict(Run(START, prefix), last.event, last.at);
      } else {
        OnlyClaimsLog(Run(START, prefix), last.event, last.at);
      }
    }
  }

  lemma NothingTaken()
    ensures StrictlyIncreasing([])
  {
  }

  lemma OnlyClaimsLog(s: State, e: Event, at: Instant)
    requires !e.ClaimE?
    ensures Next(s, e, at).log == s.log
  {
    hide NextRun;
  }

  lemma ClaimKeepsStrict(s: State, e: Event, at: Instant)
    requires Behind(s) && e.ClaimE? && KeyedFor(s, e.id) && StrictlyIncreasing(s.log)
    ensures Regular(s, e) ==> StrictlyIncreasing(Next(s, e, at).log)
    ensures !e.force ==> (StrictlyIncreasing(Next(s, e, at).log) <==> !WouldRepeat(s, e))
  {
    hide StrictlyIncreasing, Behind;
    if Claims(s, e) && !e.force {
      RepeatsIff(s, e, at);
      StrictOneMore(s.log, Occurrence(e.id, s.items[e.id].nextRun));
    }
  }

  /** After such a run, whatever copy an unforced trigger holds, it repeats an occurrence exactly under the readable
      condition. */
  lemma TriggerRepeatsIff(events: seq<Timed>, e: Timed)
    requires Monotone(START, events) && AllRegular(START, events) && e.event.ClaimE? && !e.event.force
    ensures StrictlyIncreasing(Run(START, events + [e]).log) <==> !WouldRepeat(Run(START, events), e.event)
  {
    hide Next, KeyedFor, Behind, Protocol, Regular, InTime, Claims, WouldRepeat, StrictlyIncreasing;
    NoOccurrenceFiresTwice(events);
    StartIsKeyed(e.event.id);
    RunKeepsKeyed(START, events, e.event.id);
    ClaimKeepsStrict(Run(START, events), e.event, e.at);
    RunOneMore(START, events, e);
  }

  // ----- where the guarantee ends, and what it costs -----

  /** Idle, with the next run already taken. */
  predicate Stranded(s: State, id: nat) {
    id in s.items && s.items[id].activeRun.None? && s.items[id].lastKey == Some(Scheduled(id, s.items[id].nextRun))
  }

  function Taken(log: seq<Occurrence>, id: nat): nat {
    if log == [] then 0 else Taken(log[..|log| - 1], id) + if log[|log| - 1].id == id then 1 else 0
  }

  predicate StrandedOrGone(s: State, id: nat) {
    id in s.used && (id in s.items ==> Stranded(s, id))
  }

  lemma StrandedStep(s: State, e: Event, at: Instant, id: nat)
    requires Protocol(s) && StrandedOrGone(s, id) && Plain(s, e) && !(e.UpdateE? && e.id == id)
    ensures StrandedOrGone(Next(s, e, at), id)
    ensures Next(s, e, at).log == s.log || exists o: Occurrence :: o.id != id && Next(s, e, at).log == s.log + [o]
  {
    hide NextRun;
    if e.ClaimE? && Next(s, e, at).log != s.log {
      assert Next(s, e, at).log == s.log + [Occurrence(e.id, s.items[e.id].nextRun)];
    }
  }

  /** A stranded schedule never fires again by itself: without a further edit or a forced run, no trigger claims it. */
  lemma {:induction false} StrandedNeverFires(s: State, events: seq<Timed>, id: nat)
    requires Protocol(s) && StrandedOrGone(s, id) && AllPlain(s, events)
    requires forall e <- events :: !(e.event.UpdateE? && e.event.id == id)
    ensures Protocol(Run(s, events)) && StrandedOrGone(Run(s, events), id)
    ensures Taken(Run(s, events).log, id) == Taken(s.log, id)
  {
    hide Next, Protocol, StrandedOrGone, Plain;
    if events != [] {
      var prefix, last := events[..|events| - 1], events[|events| - 1];
      assert last in events && forall e <- prefix :: e in events;
      forall i | 0 <= i < |prefix| ensures Plain(Run(s, prefix[..i]), prefix[i].event) {
        assert prefix[..i] == events[..i];
      }
      StrandedNeverFires(s, prefix, id);
      var before := Run(s, prefix);
      NextKeepsProtocol(before, last.event, last.at);
      StrandedStep(before, last.event, last.at, id);
      if Run(s, events).log != before.log {
        var o: Occurrence :| o.id != id && Run(s, events).log == before.log + [o];
        assert (before.log + [o])[..|before.log|] == before.log;
      }
    }
  }

  // ----- schedules that are switched off -----

  predicate SwitchesOn(e: Event, id: nat) {
    (e.UpdateE? && e.id == id && e.request.enabled) || (e.ToggleE? && e.id == id && e.enabled)
  }

  /** Off, or deleted. */
  predicate Off(s: State, id: nat) {
    id in s.used && (id in s.items ==> !s.items[id].enabled)
  }

  /** No claim of the schedule came in between: no occurrence, no new worker, no new trigger. */
  predicate NotClaimed(s: State, t: State, id: nat) {
    && Taken(t.log, id) == Taken(s.log, id)
    && (id in t.items ==>
          && id in s.items && t.items[id].lastKey == s.items[id].lastKey && t.items[id].lastRun == s.items[id].lastRun
          && (t.items[id].activeRun.Some? ==> t.items[id].activeRun == s.items[id].activeRun))
  }

  lemma OffStep(s: State, e: Event, at: Instant, id: nat)
    requires Off(s, id) && !SwitchesOn(e, id)
    ensures Off(Next(s, e, at), id) && NotClaimed(s, Next(s, e, at), id)
  {
    hide NextRun;
    if e.ClaimE? {
      ClaimTakenIff(s.items, e.id, e.organization, KeyOf(e), e.now, e.force, e.worker);
      if Next(s, e, at).log != s.log {
        var o := Occurrence(e.id, s.items[e.id].nextRun);
        assert (s.log + [o])[..|s.log|] == s.log;
      }
    }
  }

  /** From the moment it is created, edited or toggled to be off until an edit or a toggle switches it on, a schedule is
      never claimed: not when due, not by force, not from any copy. */
  lemma {:induction false} OffIsNeverClaimed(s: State, events: seq<Timed>, id: nat)
    requires Off(s, id) && forall e <- events :: !SwitchesOn(e.event, id)
    ensures Off(Run(s, events), id) && NotClaimed(s, Run(s, events), id)
  {
    hide Next, Off, SwitchesOn, Taken;
    if events != [] {
      var prefix, last := events[..|events| - 1], events[|events| - 1];
      assert last in events && forall e <- prefix :: e in events;
      OffIsNeverClaimed(s, prefix, id);
      OffStep(Run(s, prefix), last.event, last.at, id);
    }
  }

  /** Those events do switch it off. */
  lemma SwitchedOff(s: State, e: Event, at: Instant, id: nat)
    requires Protocol(s)
    ensures e.CreateE? && e.id == id && id !in s.used && !e.request.enabled ==> Off(Next(s, e, at), id)
    ensures e.ToggleE? && e.id == id && !e.enabled
            && ToggleIn(s.items, id, e.organization, false, e.expected).Success? ==>
              Off(Next(s, e, at), id)
    ensures e.UpdateE? && e.id == id && !e.request.enabled
            && UpdateIn(s.items, id, e.organization, e.request, e.now).Success? ==>
              Off(Next(s, e, at), id)
  {
    hide NextRun;
  }

  /** An edit strands an enabled schedule exactly when it is made within the minute of the occurrence just taken and the
      new rule names that minute as well. */
  lemma EditStrandsIff(items: Items, id: nat, organization: nat, request: Request, now: Instant, taken: int)
    requires UpdateIn(items, id, organization, request, now).Success? && request.enabled
    requires items[id].lastKey == Some(Scheduled(id, taken)) && Whole(taken) && taken <= now
    ensures var after := UpdateIn(items, id, organization, request, now).value[id];
            (forall t: int :: !Claimable(after, Scheduled(id, after.nextRun), t, false))
            <==> now / MINUTE == taken / MINUTE
                 && Matches(request.rule, Local(now - MINUTE, request.offset), Local(now, request.offset))
  {
    hide NextRun, Local, Matches;
    NextRunIsNowIff(request.rule, request.offset, now, taken);
    var after := UpdateIn(items, id, organization, request, now).value[id];
    if after.nextRun != taken {
      assert Claimable(after, Scheduled(id, after.nextRun), after.nextRun, false);
    }
  }

  const MIDNIGHT := Rule(Daily, None, None, 0, 0)
  const DAY := 1440 * MINUTE
  const DUE: Instant := 10 * DAY

  /** From the minute before it, a daily rule's next run is its time of that day. */
  lemma TimeOfDayIsNext(day: int, hour: nat, minute: nat)
    requires 4 <= day && hour < 24 && minute < 60
    ensures var time := day * 1440 + hour * 60 + minute;
            NextRun(Rule(Daily, None, None, hour, minute), 0, (time - 1) * MINUTE) == time * MINUTE
  {
    hide NextWall, Ordinal, FromOrdinal;
    var rule, time := Rule(Daily, None, None, hour, minute), day * 1440 + hour * 60 + minute;
    var local := Local((time - 1) * MINUTE, 0);
    assert (time - 1) * MINUTE / MINUTE == time - 1;
    NextWallIsNext(rule, local);
    var next := NextWall(rule, local);
    var w := Wall(FromOrdinal(day), hour, minute);
    assert WallMinute(w) == time && Matches(rule, local, w);
    assert WallMinute(next) <= time && WallMinute(next) > time - 1;
  }

  lemma MidnightIsNext(day: int)
    requires 4 <= day
    ensures NextRun(MIDNIGHT, 0, day * DAY - MINUTE) == day * DAY
  {
    hide NextRun;
    TimeOfDayIsNext(day, 0, 0);
  }

  const EDIT := Request(true, MIDNIGHT, 0, None)

  /** Create, fire, finish and edit within one minute. */
  const FIRED_THEN_EDITED := [
    Timed(CreateE(0, 0, EDIT, DUE), DUE),
    Timed(ClaimE(0, 0, 0, DUE, DUE, false, 0), DUE),
    Timed(FinishE(0, true, DUE), DUE),
    Timed(UpdateE(0, 0, EDIT, DUE), DUE)]

  lemma RunOneMore(s: State, events: seq<Timed>, e: Timed)
    ensures Run(s, events + [e]) == Next(Run(s, events), e.event, e.at)
  {
    assert (events + [e])[..|events|] == events;
  }

  lemma FiredOnce()
    ensures var s := Run(START, FIRED_THEN_EDITED[..2]);
            && s.log == [Occurrence(0, DUE)] && s.working == map[0 := Hold(0, 0, DUE)] && 0 in s.items
            && s.items[0].organization == 0 && s.items[0].activeRun == Some(0)
            && s.items[0].lastKey == Some(Scheduled(0, DUE))
            && s.items[0].version == 2
  {
    hide NextRun;
    MidnightIsNext(10);
    var e := FIRED_THEN_EDITED;
    RunOneMore(START, [], e[0]);
    RunOneMore(START, e[..1], e[1]);
    assert [] + [e[0]] == e[..1] && e[..1] + [e[1]] == e[..2];
  }

  /** The worker finishes and the schedule is edited, still in the minute it fired. */
  lemma FinishAndEdit(s: State)
    requires s.working == map[0 := Hold(0, 0, DUE)] && Stored(s.items, 0, 0) && s.items[0].activeRun == Some(0)
    ensures var t := Next(Next(s, FinishE(0, true, DUE), DUE), UpdateE(0, 0, EDIT, DUE), DUE);
            && t.log == s.log && t.clock == DUE && t.working == map[] && Stored(t.items, 0, 0)
            && t.items[0].activeRun.None? && t.items[0].lastKey == s.items[0].lastKey && t.items[0].nextRun == DUE
            && t.items[0].enabled
  {
    hide NextRun;
    MidnightIsNext(10);
  }

  lemma FiredThenEdited()
    ensures Stranded(Run(START, FIRED_THEN_EDITED), 0) && Run(START, FIRED_THEN_EDITED).log == [Occurrence(0, DUE)]
    ensures var s := Run(START, FIRED_THEN_EDITED);
            s.items[0].nextRun == DUE && s.items[0].enabled && s.items[0].organization == 0 && s.working == map[]
  {
    hide Next;
    FiredOnce();
    var e := FIRED_THEN_EDITED;
    FinishAndEdit(Run(START, e[..2]));
    RunOneMore(START, e[..2], e[2]);
    RunOneMore(START, e[..3], e[3]);
    assert e[..2] + [e[2]] == e[..3] && e[..3] + [e[3]] == e;
  }

  /** A daily schedule is created and listed, edited while its occurrence of the tenth day is due, fires, and is edited
      again within the same minute. */
  const LISTED := [Timed(CreateE(0, 0, EDIT, 9 * DAY), 9 * DAY)]
  const EDITED_AROUND := [
    Timed(UpdateE(0, 0, EDIT, DUE), DUE),
    Timed(ClaimE(0, 0, 0, DUE, DUE, false, 0), DUE),
    Timed(FinishE(0, true, DUE), DUE),
    Timed(UpdateE(0, 0, EDIT, DUE), DUE)]
  const STALE := Timed(ClaimE(0, 0, 0, 9 * DAY, DUE, false, 0), DUE)

  lemma EditedAndFired()
    ensures 0 in Run(START, LISTED).items && Run(START, LISTED).items[0].nextRun == STALE.event.snapshot
    ensures var s := Run(START, LISTED + EDITED_AROUND[..2]);
            && s.log == [Occurrence(0, DUE)] && s.working == map[0 := Hold(0, 0, DUE)] && 0 in s.items
            && s.items[0].organization == 0 && s.items[0].activeRun == Some(0)
            && s.items[0].lastKey == Some(Scheduled(0, DUE))
  {
    hide NextRun;
    MidnightIsNext(9);
    MidnightIsNext(10);
    var l, e := LISTED, EDITED_AROUND;
    RunOneMore(START, [], l[0]);
    assert [] + [l[0]] == l;
    RunOneMore(START, l, e[0]);
    RunOneMore(START, l + [e[0]], e[1]);
    assert l + [e[0]] + [e[1]] == l + e[..2];
  }

  lemma EditedAgain()
    ensures var s := Run(START, LISTED + EDITED_AROUND);
            && s.log == [Occurrence(0, DUE)] && s.working == map[] && 0 in s.items && s.clock == DUE
            && s.items[0].organization == 0 && s.items[0].activeRun.None?
            && s.items[0].lastKey == Some(Scheduled(0, DUE))
            && s.items[0].nextRun == DUE && s.items[0].enabled
  {
    hide Next;
    EditedAndFired();
    var l, e := LISTED, EDITED_AROUND;
    FinishAndEdit(Run(START, l + e[..2]));
    RunOneMore(START, l + e[..2], e[2]);
    RunOneMore(START, l + e[..3], e[3]);
    assert l + e[..2] + [e[2]] == l + e[..3] && l + e[..3] + [e[3]] == l + e;
  }

  /** The copy listed right after the creation then takes the occurrence again. */
  lemma StaleCopyFiresTwice()
    ensures 0 in Run(START, LISTED).items && Run(START, LISTED).items[0].nextRun == STALE.event.snapshot
    ensures Run(START, LISTED + EDITED_AROUND).log == [Occurrence(0, DUE)]
    ensures Run(START, LISTED + EDITED_AROUND + [STALE]).log == [Occurrence(0, DUE), Occurrence(0, DUE)]
    ensures InTime(Run(START, LISTED + EDITED_AROUND), STALE)
  {
    hide NextRun, Run;
    EditedAndFired();
    EditedAgain();
    RunOneMore(START, LISTED + EDITED_AROUND, STALE);
  }

  const FORCED_IN_BETWEEN := [
    Timed(ClaimE(0, 0, 0, DUE, DUE, true, 7), DUE),
    Timed(FinishE(0, true, DUE), DUE),
    Timed(UpdateE(0, 0, EDIT, DUE), DUE),
    Timed(ClaimE(0, 0, 0, DUE, DUE, false, 0), DUE)]

  /** So does a current one once a forced run has overwritten the trigger key. */
  lemma ForcedRunFiresTwice()
    ensures Run(START, FIRED_THEN_EDITED + FORCED_IN_BETWEEN).log == [Occurrence(0, DUE), Occurrence(0, DUE)]
  {
    hide Run, NextRun;
    FiredThenEdited();
    var e, f := FIRED_THEN_EDITED, FORCED_IN_BETWEEN;
    ForcedClaim(Run(START, e));
    RunOneMore(START, e, f[0]);
    RunOneMore(START, e + f[..1], f[1]);
    RunOneMore(START, e + f[..2], f[2]);
    RunOneMore(START, e + f[..3], f[3]);
    assert e + [f[0]] == e + f[..1] && e + f[..1] + [f[1]] == e + f[..2];
    assert e + f[..2] + [f[2]] == e + f[..3] && e + f[..3] + [f[3]] == e + f;
    hide Next;
    FinishAndEdit(Run(START, e + f[..1]));
  }

  lemma ForcedClaim(s: State)
    requires Stranded(s, 0) && s.items[0].enabled && s.items[0].organization == 0 && s.working == map[]
    ensures var t := Next(s, FORCED_IN_BETWEEN[0].event, DUE);
            && t.log == s.log && t.working == map[0 := Hold(0, 0, DUE)] && Stored(t.items, 0, 0)
            && t.items[0].activeRun == Some(0) && t.items[0].lastKey == Some(Manual(7))
  {
    hide NextRun;
  }

  const LATE := Request(true, Rule(Daily, None, None, 23, 59), 0, None)
  const EVE: Instant := DUE - MINUTE

  lemma LateIsNext()
    ensures NextRun(LATE.rule, 0, EVE - MINUTE) == EVE
  {
    TimeOfDayIsNext(9, 23, 59);
  }

  /** A schedule fires a minute before midnight and, edited, at midnight. */
  const OVER_MIDNIGHT := [
    Timed(CreateE(0, 0, LATE, EVE), EVE),
    Timed(ClaimE(0, 0, 0, EVE, EVE, false, 0), EVE),
    Timed(FinishE(0, true, EVE), EVE),
    Timed(UpdateE(0, 0, EDIT, DUE), DUE),
    Timed(ClaimE(0, 0, 0, DUE, DUE, false, 0), DUE),
    Timed(FinishE(0, true, DUE), DUE)]

  /** An edit back, whose clock was read before midnight, and the next trigger. */
  const LAGGING := Timed(UpdateE(0, 0, LATE, EVE), DUE)
  const AGAIN := Timed(ClaimE(0, 0, 0, EVE, DUE, false, 0), DUE)

  lemma OverMidnight()
    ensures var s := Run(START, OVER_MIDNIGHT);
            && s.log == [Occurrence(0, EVE), Occurrence(0, DUE)] && s.clock == DUE && s.working == map[] && 0 in s.items
            && s.items[0].organization == 0 && s.items[0].activeRun.None?
            && s.items[0].lastKey == Some(Scheduled(0, DUE))
  {
    hide NextRun;
    LateIsNext();
    MidnightIsNext(10);
    var e := OVER_MIDNIGHT;
    BeforeMidnight();
    RunOneMore(START, e[..4], e[4]);
    RunOneMore(START, e[..5], e[5]);
    assert e[..4] + [e[4]] == e[..5] && e[..5] + [e[5]] == e;
  }

  lemma BeforeMidnight()
    ensures var s := Run(START, OVER_MIDNIGHT[..4]);
            && s.log == [Occurrence(0, EVE)] && s.clock == DUE && s.working == map[] && 0 in s.items
            && s.items[0].organization == 0 && s.items[0].activeRun.None? && s.items[0].enabled
            && s.items[0].lastKey == Some(Scheduled(0, EVE)) && s.items[0].nextRun == DUE
  {
    hide NextRun;
    LateIsNext();
    MidnightIsNext(10);
    var e := OVER_MIDNIGHT;
    RunOneMore(START, [], e[0]);
    RunOneMore(START, e[..1], e[1]);
    RunOneMore(START, e[..2], e[2]);
    RunOneMore(START, e[..3], e[3]);
    assert [] + [e[0]] == e[..1] && e[..1] + [e[1]] == e[..2] && e[..2] + [e[2]] == e[..3] && e[..3] + [e[3]] == e[..4];
  }

  /** An edit whose clock lags behind an occurrence taken meanwhile can bring an earlier one back, on current copies:
      the one condition on clocks that a lock inside the store does not give. */
  lemma LaggingEditFiresTwice()
    ensures var s := Run(START, OVER_MIDNIGHT);
            s.clock <= LAGGING.at && LAGGING.event.now <= LAGGING.at && !Prompt(s, 0, LAGGING.event.now)
    ensures Plain(Run(START, OVER_MIDNIGHT + [LAGGING]), AGAIN.event)
    ensures Run(START, OVER_MIDNIGHT + [LAGGING] + [AGAIN]).log
            == [Occurrence(0, EVE), Occurrence(0, DUE), Occurrence(0, EVE)]
  {
    hide NextRun;
    LateIsNext();
    OverMidnight();
    var e := OVER_MIDNIGHT;
    assert Run(START, e).log[1] == Occurrence(0, DUE);
    RunOneMore(START, e, LAGGING);
    RunOneMore(START, e + [LAGGING], AGAIN);
  }
}
