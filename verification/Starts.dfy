/** Overlapping starts (core/workflow_service.py, `start_run` and `start_github_run`): each one is several store calls,
    and calls of other starts, reviews and cancellations may come between any two of them. */
module Starts {
  import opened Wrappers
  import opened ReviewWorkflow
  import opened ReviewSafety
  import opened RunStores

  /** A start under way: the identifier drawn for its run, the run as built, its one analysis update, and whether it
      looks for the key again when the creation is refused, as scenario starts do and GitHub starts do not. */
  datatype Start = Start(id: nat, run: RunState, first: Step, again: bool)

  datatype Progress = Looking | Creating | LookingAgain | Analyzing | Done(answer: Result<(nat, bool), Refusal>)

  datatype Call = Call(start: Start, progress: Progress)

  /** `used` holds every identifier ever drawn. */
  datatype System = System(runs: Runs, calls: map<nat, Call>, used: set<nat>)

  const IDLE := System(map[], map[], {})

  datatype Event =
    | Begin(caller: nat, start: Start)
    | Move(caller: nat)
    | Elsewhere(id: nat, organization: Option<nat>, step: Step)

  predicate Mine(runs: Runs, id: nat, run: RunState) {
    id in runs && runs[id].run.key == run.key && runs[id].run.organization == run.organization
  }

  /** `find_by_idempotency_key`; with unique keys there is at most one candidate. */
  ghost function Found(runs: Runs, run: RunState): (r: Option<nat>)
    ensures r.Some? ==> Mine(runs, r.value, run)
    ensures r.None? ==> forall id <- runs :: !Mine(runs, id, run)
  {
    if id :| id in runs && Mine(runs, id, run) then Some(id) else None
  }

  /** One store call of a start. */
  ghost function Moved(s: System, caller: nat): System
    requires caller in s.calls
  {
    var c := s.calls[caller];
    var run, id := c.start.run, c.start.id;
    match c.progress
    case Looking =>
      var found := Found(s.runs, run);
      var progress := if Truthy(run.key) && found.Some? then Done(Success((found.value, false))) else Creating;
      s.(calls := s.calls[caller := c.(progress := progress)])
    case Creating =>
      var r := Attempted(s.runs, Create(id, run));
      if r.Success? then s.(runs := r.value, calls := s.calls[caller := c.(progress := Analyzing)])
      else
        var progress := if c.start.again && Truthy(run.key) then LookingAgain else Done(Failure(r.error));
        s.(calls := s.calls[caller := c.(progress := progress)])
    case LookingAgain =>
      var found := Found(s.runs, run);
      var answer := if found.Some? then Success((found.value, false)) else Failure(DuplicateKey);
      s.(calls := s.calls[caller := c.(progress := Done(answer))])
    case Analyzing =>
      var r := Attempted(s.runs, Update(id, Some(run.organization), c.start.first));
      if r.Success? then s.(runs := r.value, calls := s.calls[caller := c.(progress := Done(Success((id, true))))])
      else s.(calls := s.calls[caller := c.(progress := Done(Failure(r.error)))])
    case Done(_) => s
  }

  ghost predicate MayBegin(s: System, caller: nat, start: Start) {
    && caller !in s.calls && start.id !in s.used && Starting(Case(start.run, false))
    && (start.first.Analyze? || start.first.Skip?)
  }

  ghost function Next(s: System, e: Event): System {
    match e
    case Begin(caller, start) =>
      if MayBegin(s, caller, start) then
        s.(calls := s.calls[caller := Call(start, Looking)], used := s.used + {start.id})
      else s
    case Move(caller) => if caller in s.calls then Moved(s, caller) else s
    case Elsewhere(id, organization, step) =>
      if !step.HandleReview? && !step.Cancel? then s
      else
        var r := Attempted(s.runs, Update(id, organization, step));
        if r.Success? then s.(runs := r.value) else s
  }

  ghost function After(events: seq<Event>): System {
    if events == [] then IDLE else Next(After(events[..|events| - 1]), events[|events| - 1])
  }

  // ----- what every interleaving keeps -----

  /** Where a call stands agrees with the store. */
  ghost predicate CallHolds(runs: Runs, c: Call) {
    var id, run := c.start.id, c.start.run;
    && Starting(Case(run, false)) && (c.start.first.Analyze? || c.start.first.Skip?)
    && match c.progress
       case Looking => id !in runs
       case Creating => id !in runs
       case LookingAgain => id !in runs && KeyTaken(runs, run.key)
       case Analyzing => Mine(runs, id, run) && !runs[id].analyzed
       case Done(Success((got, created))) =>
         Mine(runs, got, run) && if created then got == id else Truthy(run.key) && id !in runs
       case Done(Failure(_)) =>
         id !in runs && KeyTaken(runs, run.key) && (c.start.again ==> exists other <- runs :: Held(runs, other, run))
  }

  predicate Creates(progress: Progress) {
    progress.Analyzing? || (progress.Done? && progress.answer.Success? && progress.answer.value.1)
  }

  ghost predicate CreatedBy(s: System, id: nat, caller: nat) {
    caller in s.calls && s.calls[caller].start.id == id && Creates(s.calls[caller].progress)
  }

  ghost predicate DistinctDraws(s: System) {
    && (forall a, b | a in s.calls && b in s.calls && s.calls[a].start.id == s.calls[b].start.id :: a == b)
    && (forall a <- s.calls :: s.calls[a].start.id in s.used)
    && s.runs.Keys <= s.used
  }

  ghost predicate Consistent(s: System) {
    && UniqueKeys(s.runs) && AllInvariant(s.runs) && DistinctDraws(s)
    && (forall a <- s.calls :: CallHolds(s.runs, s.calls[a]))
    && (forall id <- s.runs :: exists caller :: CreatedBy(s, id, caller))
  }

  /** Runs only gain members, and members keep their key and organization. */
  predicate Grows(before: Runs, after: Runs) {
    forall id <- before ::
      id in after && after[id].run.key == before[id].run.key
      && after[id].run.organization == before[id].run.organization
  }

  /** A call is untouched by growth that neither takes its identifier nor analyzes its run. */
  lemma OthersHold(before: Runs, after: Runs, c: Call)
    requires CallHolds(before, c) && Grows(before, after)
    requires c.start.id in after ==>
               c.start.id in before
               && (c.progress.Analyzing? ==> after[c.start.id].analyzed == before[c.start.id].analyzed)
    ensures CallHolds(after, c)
  {
    hide Starting, Truthy;
    var run := c.start.run;
    if c.progress.LookingAgain? || (c.progress.Done? && c.progress.answer.Failure?) {
      var other :| other in before && before[other].run.key == run.key;
      assert after[other].run.key == run.key;
    }
    if c.progress.Done? && c.progress.answer.Failure? && c.start.again {
      var other :| other in before && Held(before, other, run);
      assert Held(after, other, run);
    }
  }

  lemma UpdateGrows(runs: Runs, id: nat, organization: Option<nat>, step: Step)
    requires UniqueKeys(runs) && AllInvariant(runs)
    ensures var r := Attempted(runs, Update(id, organization, step));
            r.Success? ==>
              && UniqueKeys(r.value) && AllInvariant(r.value) && Grows(runs, r.value) && r.value.Keys == runs.Keys
              && (forall other <- runs | other != id :: r.value[other] == runs[other])
              && r.value[id].analyzed == (runs[id].analyzed || step.Analyze? || step.Skip?)
  {
    hide Invariant, Act, Starting;
    if Attempted(runs, Update(id, organization, step)).Success? {
      AttemptKeepsIdentity(runs[id], step);
      KeptWith(runs, id, step);
    }
  }

  lemma ElsewhereKeeps(s: System, id: nat, organization: Option<nat>, step: Step)
    requires Consistent(s)
    ensures Consistent(Next(s, Elsewhere(id, organization, step)))
  {
    hide Attempted, UniqueKeys, AllInvariant, CallHolds, Creates;
    var t := Next(s, Elsewhere(id, organization, step));
    UpdateGrows(s.runs, id, organization, step);
    forall a <- t.calls ensures CallHolds(t.runs, t.calls[a]) {
      OthersHold(s.runs, t.runs, s.calls[a]);
    }
    forall x <- t.runs ensures exists caller :: CreatedBy(t, x, caller) {
      var caller :| CreatedBy(s, x, caller);
      assert CreatedBy(t, x, caller);
    }
  }

  lemma BeginKeeps(s: System, caller: nat, start: Start)
    requires Consistent(s)
    ensures Consistent(Next(s, Begin(caller, start)))
  {
    hide Attempted, UniqueKeys, AllInvariant, Creates, Starting;
    var t := Next(s, Begin(caller, start));
    forall x <- t.runs ensures exists maker :: CreatedBy(t, x, maker) {
      var maker :| CreatedBy(s, x, maker);
      assert CreatedBy(t, x, maker);
    }
  }

  /** A call that has looked for the key. */
  lemma LookedUp(runs: Runs, c: Call)
    requires UniqueKeys(runs) && CallHolds(runs, c)
    ensures var found := Found(runs, c.start.run);
            var first := if Truthy(c.start.run.key) && found.Some? then Done(Success((found.value, false)))
                         else Creating;
            var again := if found.Some? then Success((found.value, false)) else Failure(DuplicateKey);
            && (c.progress == Looking ==> CallHolds(runs, c.(progress := first)))
            && (c.progress == LookingAgain ==> CallHolds(runs, c.(progress := Done(again))))
  {
    hide Starting, UniqueKeys;
    if c.progress == LookingAgain && Found(runs, c.start.run).None? {
      var other :| other in runs && runs[other].run.key == c.start.run.key;
      assert Held(runs, other, c.start.run);
    }
  }

  /** A lookup changes only where the call stands. */
  lemma LookupKeeps(s: System, caller: nat)
    requires Consistent(s) && caller in s.calls
    requires s.calls[caller].progress == Looking || s.calls[caller].progress == LookingAgain
    ensures Consistent(Moved(s, caller))
  {
    hide Attempted, UniqueKeys, AllInvariant, Starting, Truthy, CallHolds, Found, DistinctDraws;
    var t, c := Moved(s, caller), s.calls[caller];
    LookedUp(s.runs, c);
    DrawsStay(s, t);
    forall x <- t.runs ensures exists maker :: CreatedBy(t, x, maker) {
      var maker :| CreatedBy(s, x, maker);
      assert CreatedBy(t, x, maker);
    }
  }

  lemma CreationKeeps(s: System, caller: nat)
    requires Consistent(s) && caller in s.calls && s.calls[caller].progress == Creating
    ensures Consistent(Moved(s, caller))
  {
    hide UniqueKeys, AllInvariant, Starting, Truthy, CallHolds, KeyTaken, Creates, DistinctDraws;
    var t, c := Moved(s, caller), s.calls[caller];
    var id, run := c.start.id, c.start.run;
    assert CallHolds(s.runs, c);
    CreatingIsNew(s.runs, c);
    if KeyTaken(s.runs, run.key) {
      RefusedCreation(s.runs, c, t.calls[caller].progress);
      assert forall a <- t.calls :: CallHolds(t.runs, t.calls[a]);
      DrawsStay(s, t);
      forall x <- t.runs ensures exists maker :: CreatedBy(t, x, maker) {
        var maker :| CreatedBy(s, x, maker);
        assert Creates(Creating) == false by { CreatingCreatesNothing(); }
        assert CreatedBy(t, x, maker);
      }
    } else {
      KeptWithNew(s.runs, id, run);
      CreatedHolds(s, caller);
    }
  }

  lemma CreatingCreatesNothing()
    ensures !Creates(Creating)
  {
  }

  lemma CreatingIsNew(runs: Runs, c: Call)
    requires CallHolds(runs, c) && c.progress == Creating
    ensures c.start.id !in runs && Starting(Case(c.start.run, false))
  {
    hide Starting;
  }

  lemma RefusedCreation(runs: Runs, c: Call, next: Progress)
    requires CallHolds(runs, c) && c.progress == Creating && KeyTaken(runs, c.start.run.key)
    requires next == if c.start.again && Truthy(c.start.run.key) then LookingAgain else Done(Failure(DuplicateKey))
    ensures CallHolds(runs, c.(progress := next))
  {
    hide Starting;
  }

  lemma DrawsStay(s: System, t: System)
    requires DistinctDraws(s) && t.runs == s.runs && t.used == s.used && t.calls.Keys == s.calls.Keys
    requires forall a <- t.calls :: t.calls[a].start == s.calls[a].start
    ensures DistinctDraws(t)
  {
  }

  lemma OwnRunHolds(runs: Runs, c: Call)
    requires CallHolds(runs, c) && c.progress == Creating
    ensures CallHolds(runs[c.start.id := Case(c.start.run, false)], c.(progress := Analyzing))
  {
    hide Starting;
  }

  lemma CreatedHolds(s: System, caller: nat)
    requires Consistent(s) && caller in s.calls && s.calls[caller].progress == Creating
    requires !KeyTaken(s.runs, s.calls[caller].start.run.key) && s.calls[caller].start.id !in s.runs
    ensures var t := Moved(s, caller);
            && (forall a <- t.calls :: CallHolds(t.runs, t.calls[a])) && DistinctDraws(t)
            && (forall x <- t.runs :: exists maker :: CreatedBy(t, x, maker))
  {
    hide UniqueKeys, AllInvariant, Starting, KeyTaken, CallHolds;
    var t, c := Moved(s, caller), s.calls[caller];
    assert t.runs == s.runs[c.start.id := Case(c.start.run, false)];
    forall a <- t.calls ensures CallHolds(t.runs, t.calls[a]) {
      if a != caller { OthersHold(s.runs, t.runs, s.calls[a]); } else { OwnRunHolds(s.runs, c); }
    }
    forall x <- t.runs ensures exists maker :: CreatedBy(t, x, maker) {
      if x in s.runs {
        var maker :| CreatedBy(s, x, maker);
        assert CreatedBy(t, x, maker);
      } else {
        assert CreatedBy(t, x, caller);
      }
    }
  }

  lemma AnalysisKeeps(s: System, caller: nat)
    requires Consistent(s) && caller in s.calls && s.calls[caller].progress == Analyzing
    ensures Consistent(Moved(s, caller))
  {
    hide UniqueKeys, AllInvariant, Starting, Truthy, Attempted;
    var t, c := Moved(s, caller), s.calls[caller];
    UpdateGrows(s.runs, c.start.id, Some(c.start.run.organization), c.start.first);
    FirstUpdateApplies(s.runs, c.start);
    forall a <- t.calls ensures CallHolds(t.runs, t.calls[a]) {
      if a != caller { OthersHold(s.runs, t.runs, s.calls[a]); }
    }
    forall x <- t.runs ensures exists maker :: CreatedBy(t, x, maker) {
      var maker :| CreatedBy(s, x, maker);
      assert CreatedBy(t, x, maker);
    }
  }

  /** The analysis update of a created run is never refused. */
  lemma FirstUpdateApplies(runs: Runs, start: Start)
    requires Mine(runs, start.id, start.run) && !runs[start.id].analyzed && (start.first.Analyze? || start.first.Skip?)
    ensures Attempted(runs, Update(start.id, Some(start.run.organization), start.first)).Success?
  {
  }

  lemma {:induction false} AlwaysConsistent(events: seq<Event>)
    ensures Consistent(After(events))
  {
    hide Consistent, Moved;
    if events == [] {
      assert Consistent(IDLE) by { IdleIsConsistent(); }
    } else {
      var s, e := After(events[..|events| - 1]), events[|events| - 1];
      AlwaysConsistent(events[..|events| - 1]);
      match e
      case Begin(caller, start) => BeginKeeps(s, caller, start);
      case Elsewhere(id, organization, step) => ElsewhereKeeps(s, id, organization, step);
      case Move(caller) =>
        if caller in s.calls {
          match s.calls[caller].progress
          case Looking => LookupKeeps(s, caller);
          case Creating => CreationKeeps(s, caller);
          case LookingAgain => LookupKeeps(s, caller);
          case Analyzing => AnalysisKeeps(s, caller);
          case Done(_) => DoneStays(s, caller);
        }
    }
  }

  lemma IdleIsConsistent()
    ensures Consistent(IDLE)
  {
  }

  lemma DoneStays(s: System, caller: nat)
    requires caller in s.calls && s.calls[caller].progress.Done?
    ensures Moved(s, caller) == s
  {
  }

  predicate Succeeded(s: System, caller: nat) {
    caller in s.calls && s.calls[caller].progress.Done? && s.calls[caller].progress.answer.Success?
  }

  function Got(s: System, caller: nat): nat
    requires Succeeded(s, caller)
  {
    s.calls[caller].progress.answer.value.0
  }

  function Created(s: System, caller: nat): bool
    requires Succeeded(s, caller)
  {
    s.calls[caller].progress.answer.value.1
  }

  /** However starts overlap, all that succeed with one key in one organization return the same stored run, and at most
      one of them says it created it. */
  lemma StartsAgree(events: seq<Event>, a: nat, b: nat)
    requires var s := After(events);
             && Succeeded(s, a) && Succeeded(s, b) && Truthy(s.calls[a].start.run.key)
             && s.calls[a].start.run.key == s.calls[b].start.run.key
             && s.calls[a].start.run.organization == s.calls[b].start.run.organization
    ensures var s := After(events);
            && Got(s, a) == Got(s, b) && Mine(s.runs, Got(s, a), s.calls[a].start.run)
            && (Created(s, a) && Created(s, b) ==> a == b)
  {
    hide After, Starting, AllInvariant;
    AlwaysConsistent(events);
    var s := After(events);
    assert CallHolds(s.runs, s.calls[a]) && CallHolds(s.runs, s.calls[b]);
  }

  /** One run is created per key: it is the only one in the store with that key, and exactly one start created it. */
  lemma OneRunPerKey(events: seq<Event>, id: nat)
    requires id in After(events).runs && Truthy(After(events).runs[id].run.key)
    ensures var s := After(events);
            && (forall other <- s.runs :: s.runs[other].run.key == s.runs[id].run.key ==> other == id)
            && (exists caller :: CreatedBy(s, id, caller))
            && (forall a, b | CreatedBy(s, id, a) && CreatedBy(s, id, b) :: a == b)
  {
    hide After, Starting, AllInvariant, CallHolds;
    AlwaysConsistent(events);
  }

  /** A scenario start fails only over a key that another organization holds. */
  lemma RefusedOverOthersKey(events: seq<Event>, caller: nat)
    requires var s := After(events);
             caller in s.calls && s.calls[caller].start.again && s.calls[caller].progress.Done?
             && s.calls[caller].progress.answer.Failure?
    ensures var s := After(events); exists other <- s.runs :: Held(s.runs, other, s.calls[caller].start.run)
  {
    hide After, Starting, AllInvariant;
    AlwaysConsistent(events);
    assert CallHolds(After(events).runs, After(events).calls[caller]);
  }

  /** Every run a reachable store holds keeps the safety invariant, whatever starts, reviews and cancellations
      overlap. */
  lemma OverlappingStoreIsSafe(events: seq<Event>, id: nat)
    requires id in After(events).runs
    ensures var s := After(events).runs[id].run;
            && s.status != Approved && (s.status == PrCreated ==> ApprovedSafely(s))
  {
    hide After, Starting, CallHolds, DistinctDraws, UniqueKeys, ApprovedSafely;
    AlwaysConsistent(events);
    assert Invariant(After(events).runs[id]);
  }

  // ----- progress -----

  lemma AfterOneMore(events: seq<Event>, e: Event)
    ensures After(events + [e]) == Next(After(events), e)
  {
    hide Next;
    assert (events + [e])[..|events|] == events;
  }

  /** An admitted start begins by looking for its key, and a review or cancellation in between is tried on the store as
      it then is. */
  lemma EventsTakeEffect(events: seq<Event>, caller: nat, start: Start, id: nat, organization: Option<nat>, step: Step)
    ensures MayBegin(After(events), caller, start) ==>
              var t := After(events + [Begin(caller, start)]);
              caller in t.calls && t.calls[caller] == Call(start, Looking) && t.runs == After(events).runs
    ensures step.HandleReview? || step.Cancel? ==>
              var r := Attempted(After(events).runs, Update(id, organization, step));
              After(events + [Elsewhere(id, organization, step)]).runs
              == if r.Success? then r.value else After(events).runs
  {
    hide Attempted, MayBegin;
    AfterOneMore(events, Begin(caller, start));
    AfterOneMore(events, Elsewhere(id, organization, step));
  }

  /** How many store calls a start has left at most. */
  function CallsLeft(progress: Progress): nat {
    match progress
    case Looking => 3
    case Creating => 2
    case LookingAgain => 1
    case Analyzing => 1
    case Done(_) => 0
  }

  function MovesOf(events: seq<Event>, caller: nat): nat {
    if events == [] then 0
    else MovesOf(events[..|events| - 1], caller) + if events[|events| - 1] == Move(caller) then 1 else 0
  }

  lemma EachMoveCounts(s: System, e: Event, caller: nat)
    requires caller in s.calls
    ensures caller in Next(s, e).calls && Next(s, e).calls[caller].start == s.calls[caller].start
    ensures var before, after := CallsLeft(s.calls[caller].progress), CallsLeft(Next(s, e).calls[caller].progress);
            after <= before && (e == Move(caller) && before > 0 ==> after < before)
  {
    hide Attempted, Found, Truthy, Starting;
  }

  /** Every start finishes after at most three of its own store calls, whatever other starts, reviews and cancellations
      come in between. */
  lemma StartsFinish(events: seq<Event>, more: seq<Event>, caller: nat)
    requires caller in After(events).calls
    ensures var t := After(events + more);
            && caller in t.calls && t.calls[caller].start == After(events).calls[caller].start
            && (MovesOf(more, caller) >= CallsLeft(After(events).calls[caller].progress) ==>
                  t.calls[caller].progress.Done?)
  {
    hide After, MovesOf;
    FinishAfter(events, more, caller);
  }

  lemma {:induction false} FinishAfter(events: seq<Event>, more: seq<Event>, caller: nat)
    requires caller in After(events).calls
    ensures var t := After(events + more);
            && caller in t.calls && t.calls[caller].start == After(events).calls[caller].start
            && var before, after := CallsLeft(After(events).calls[caller].progress),
                                    CallsLeft(t.calls[caller].progress);
               after <= (if MovesOf(more, caller) >= before then 0 else before - MovesOf(more, caller))
  {
    hide Next;
    if more == [] {
      assert events + more == events;
    } else {
      var prefix, last := more[..|more| - 1], more[|more| - 1];
      FinishAfter(events, prefix, caller);
      assert events + more == events + prefix + [last];
      AfterOneMore(events + prefix, last);
      EachMoveCounts(After(events + prefix), last, caller);
    }
  }
}
