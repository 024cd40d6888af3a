/** The append-only ledger of human decisions and its idempotency index, in memory (core/decision_events.py). */
module DecisionEvents {
  import opened Wrappers

  /** `fingerprint` stands for the hash of the normalized request and `response` for the snapshot replayed to a repeated
      one. */
  datatype Event = Event(organization: nat, caseId: nat, action: string, key: string, fingerprint: nat, response: nat)

  datatype Refusal = KeyReused

  type Key = (nat, string)

  datatype Ledger = Ledger(events: seq<Event>, index: map<Key, Event>)

  const EMPTY := Ledger([], map[])

  function KeyOf(e: Event): Key {
    (e.organization, e.key)
  }

  /** The event answering the call: the new one, or the stored one for a repeated request. */
  function Answer(s: Ledger, e: Event): Result<Event, Refusal> {
    if KeyOf(e) !in s.index then Success(e)
    else if s.index[KeyOf(e)].fingerprint != e.fingerprint then Failure(KeyReused)
    else Success(s.index[KeyOf(e)])
  }

  function Appended(s: Ledger, e: Event): Ledger {
    if KeyOf(e) in s.index then s else Ledger(s.events + [e], s.index[KeyOf(e) := e])
  }

  function Replayed(s: Ledger, organization: nat, key: string, fingerprint: nat): Result<Option<nat>, Refusal> {
    if (organization, key) !in s.index then Success(None)
    else if s.index[(organization, key)].fingerprint != fingerprint then Failure(KeyReused)
    else Success(Some(s.index[(organization, key)].response))
  }

  /** The index is the log seen by key: each key names exactly one event. */
  ghost predicate Valid(s: Ledger) {
    && (forall e <- s.events :: KeyOf(e) in s.index && s.index[KeyOf(e)] == e)
    && (forall k <- s.index :: s.index[k] in s.events && KeyOf(s.index[k]) == k)
    && (forall i, j | 0 <= i < j < |s.events| :: KeyOf(s.events[i]) != KeyOf(s.events[j]))
  }

  predicate OfCase(e: Event, organization: nat, caseId: nat, action: Option<string>) {
    e.organization == organization && e.caseId == caseId && (action.Some? ==> e.action == action.value)
  }

  /** The latest event of a case, of one action if that is given. */
  function Latest(events: seq<Event>, organization: nat, caseId: nat, action: Option<string>): Option<Event> {
    if events == [] then None
    else
      var last := events[|events| - 1];
      if OfCase(last, organization, caseId, action) then Some(last)
      else Latest(events[..|events| - 1], organization, caseId, action)
  }

  /** The latest event is that of the last new request for the case, in its organization and, if an action is asked for,
      with that action; requests for anything else and repeated ones leave it alone. */
  lemma LatestAfterRequest(s: Ledger, e: Event, organization: nat, caseId: nat, action: Option<string>)
    ensures Latest(Appended(s, e).events, organization, caseId, action)
         == if KeyOf(e) !in s.index && e.organization == organization && e.caseId == caseId
               && (action == None || action == Some(e.action))
            then Some(e) else Latest(s.events, organization, caseId, action)
  {
    assert (s.events + [e])[..|s.events|] == s.events;
  }

  predicate IsLast(events: seq<Event>, i: nat, organization: nat, caseId: nat, action: Option<string>)
    requires i < |events|
  {
    OfCase(events[i], organization, caseId, action)
    && forall j | i < j < |events| :: !OfCase(events[j], organization, caseId, action)
  }

  class DecisionEventStore {
    var events: seq<Event>
    var index: map<Key, Event>

    ghost function State(): Ledger
      reads this
    {
      Ledger(events, index)
    }

    constructor ()
      ensures State() == EMPTY
    {
      events, index := [], map[];
    }

    method Append(e: Event) returns (r: Result<Event, Refusal>)
      requires Valid(State())
      modifies this
      ensures State() == Appended(old(State()), e) && Valid(State())
      ensures r == Answer(old(State()), e)
      ensures r.Success? ==> r.value in events && KeyOf(r.value) == KeyOf(e)
    {
      if KeyOf(e) in index {
        if index[KeyOf(e)].fingerprint != e.fingerprint { return Failure(KeyReused); }
        return Success(index[KeyOf(e)]);
      }
      events := events + [e];
      index := index[KeyOf(e) := e];
      AppendKeepsValid(old(State()), e);
      r := Success(e);
    }

    method Replay(organization: nat, key: string, fingerprint: nat) returns (r: Result<Option<nat>, Refusal>)
      ensures r == Replayed(State(), organization, key, fingerprint)
    {
      if (organization, key) !in index { return Success(None); }
      if index[(organization, key)].fingerprint != fingerprint { return Failure(KeyReused); }
      return Success(Some(index[(organization, key)].response));
    }

    /** The last matching event in the log. */
    method LatestForCase(organization: nat, caseId: nat, action: Option<string>) returns (latest: Option<Event>)
      ensures latest.None? ==> forall e <- events :: !OfCase(e, organization, caseId, action)
      ensures latest == Latest(events, organization, caseId, action)
      ensures latest.Some? ==>
                exists i | 0 <= i < |events| ::
                  events[i] == latest.value && IsLast(events, i, organization, caseId, action)
    {
      latest := None;
      for i := 0 to |events|
        invariant latest == Latest(events[..i], organization, caseId, action)
        invariant latest.None? ==> forall e <- events[..i] :: !OfCase(e, organization, caseId, action)
        invariant latest.Some? ==>
                    exists k | 0 <= k < i ::
                      events[k] == latest.value && IsLast(events[..i], k, organization, caseId, action)
      {
        assert events[..i + 1][..i] == events[..i];
        if OfCase(events[i], organization, caseId, action) {
          latest := Some(events[i]);
          assert IsLast(events[..i + 1], i, organization, caseId, action);
        } else if latest.Some? {
          ghost var k :| 0 <= k < i && events[k] == latest.value
                         && IsLast(events[..i], k, organization, caseId, action);
          assert IsLast(events[..i + 1], k, organization, caseId, action);
        }
      }
      assert events[..|events|] == events;
    }
  }

  lemma {:induction false} AppendKeepsValid(s: Ledger, e: Event)
    requires Valid(s)
    ensures Valid(Appended(s, e))
  {
  }

  // ----- every sequence of requests -----

  function After(s: Ledger, requests: seq<Event>): Ledger {
    if requests == [] then s else Appended(After(s, requests[..|requests| - 1]), requests[|requests| - 1])
  }

  /** The log only extends, one event per key. */
  lemma {:induction false} LedgerOnlyGrows(s: Ledger, requests: seq<Event>)
    requires Valid(s)
    ensures Valid(After(s, requests)) && s.events <= After(s, requests).events
    ensures forall k <- s.index :: k in After(s, requests).index && After(s, requests).index[k] == s.index[k]
  {
    if requests != [] {
      var before := After(s, requests[..|requests| - 1]);
      LedgerOnlyGrows(s, requests[..|requests| - 1]);
      AppendKeepsValid(before, requests[|requests| - 1]);
    }
  }

  /** Once a key was used, whatever is requested afterwards: the same request is answered with the first event and
      replayed with its response, any other under that key is refused, and neither adds an event. */
  lemma {:induction false} FirstAnswerStands(s: Ledger, first: Event, later: seq<Event>, again: Event)
    requires Valid(s) && KeyOf(first) !in s.index && KeyOf(again) == KeyOf(first)
    ensures var t := After(Appended(s, first), later);
            && Answer(t, again)
               == (if again.fingerprint == first.fingerprint then Success(first) else Failure(KeyReused))
            && Replayed(t, again.organization, again.key, again.fingerprint)
               == (if again.fingerprint == first.fingerprint then Success(Some(first.response)) else Failure(KeyReused))
            && Appended(t, again) == t
  {
    AppendKeepsValid(s, first);
    LedgerOnlyGrows(Appended(s, first), later);
  }

  /** Keys are scoped: the same key in another organization is no repetition. */
  lemma {:induction false} KeysAreScoped(s: Ledger, requests: seq<Event>, e: Event)
    requires Valid(s) && KeyOf(e) !in s.index
    ensures KeyOf(e) !in After(s, requests).index
            <==> forall r <- requests :: r.organization != e.organization || r.key != e.key
    ensures Replayed(After(s, requests), e.organization, e.key, e.fingerprint) == Success(None)
            <==> forall r <- requests :: r.organization != e.organization || r.key != e.key
  {
    if requests != [] {
      var prefix, last := requests[..|requests| - 1], requests[|requests| - 1];
      assert requests == prefix + [last];
      KeysAreScoped(s, prefix, e);
    }
  }
}
