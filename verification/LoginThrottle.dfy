/** The sliding failure window of the sign-in check (app/auth.py, `authenticate`), for one account and address. */
module LoginThrottle {
  import opened Intervals

  /** A sign-in: the clock as read for each failure on record, and when it ends, which is also when a new failure is
      stamped. */
  datatype Login = Login(read: nat -> real, at: real, correct: bool)

  /** Stamps later than `cutoff`, in order. */
  function Since(stamps: seq<real>, cutoff: real): (r: seq<real>)
    ensures |r| <= |stamps|
  {
    if stamps == [] then []
    else Since(stamps[..|stamps| - 1], cutoff) + if stamps[|stamps| - 1] > cutoff then [stamps[|stamps| - 1]] else []
  }

  /** The list comprehension that forgets old failures, reading the clock anew for each. */
  function Kept(log: seq<real>, login: Login, window: real): seq<real> {
    if log == [] then []
    else
      var last := |log| - 1;
      Kept(log[..last], login, window) + if log[last] > login.read(last) - window then [log[last]] else []
  }

  /** Then the refusal or the new failure. */
  function Logged(log: seq<real>, login: Login, attempts: nat, window: real): seq<real> {
    var recent := Kept(log, login, window);
    if |recent| >= attempts || login.correct then recent else recent + [login.at]
  }

  method Authenticate(log: seq<real>, login: Login, attempts: nat,
                      window: real) returns (failures: seq<real>, allowed: bool)
    ensures failures == Logged(log, login, attempts, window)
    ensures allowed <==> |Kept(log, login, window)| < attempts
  {
    failures := [];
    for i := 0 to |log|
      invariant failures == Kept(log[..i], login, window)
    {
      assert log[..i + 1][..i] == log[..i];
      if log[i] > login.read(i) - window { failures := failures + [log[i]]; }
    }
    assert log[..|log|] == log;
    allowed := |failures| < attempts;
    if allowed && !login.correct { failures := failures + [login.at]; }
  }

  function Log(logins: seq<Login>, attempts: nat, window: real): seq<real> {
    if logins == [] then []
    else Logged(Log(logins[..|logins| - 1], attempts, window), logins[|logins| - 1], attempts, window)
  }

  /** Every failure ever recorded, forgotten or not. */
  function Recorded(logins: seq<Login>, attempts: nat, window: real): seq<real> {
    if logins == [] then []
    else
      var before, last := logins[..|logins| - 1], logins[|logins| - 1];
      Recorded(before, attempts, window)
      + if |Kept(Log(before, attempts, window), last, window)| < attempts && !last.correct then [last.at] else []
  }

  /** One clock for all sign-ins of the account and address, which follow each other. */
  ghost predicate Monotone(logins: seq<Login>) {
    && (forall i, k: nat | 0 <= i < |logins| :: logins[i].read(k) <= logins[i].at)
    && (forall i, j, k: nat | 0 <= i < j < |logins| :: logins[i].at <= logins[j].read(k))
  }

  lemma SinceAppend(stamps: seq<real>, last: real, cutoff: real)
    ensures Since(stamps + [last], cutoff) == Since(stamps, cutoff) + if last > cutoff then [last] else []
  {
    assert (stamps + [last])[..|stamps + [last]| - 1] == stamps;
  }

  lemma {:induction false} CountAtMostSince(stamps: seq<real>, from: real, span: real, cutoff: real)
    requires cutoff < from
    ensures CountIn(stamps, from, span) <= |Since(stamps, cutoff)|
  {
    if stamps != [] {
      CountAtMostSince(stamps[..|stamps| - 1], from, span, cutoff);
    }
  }

  /** Every clock reading for the log is at most the last: what that still covers is kept. */
  lemma {:induction false} KeptCovers(log: seq<real>, login: Login, window: real, cutoff: real)
    requires forall k: nat :: login.read(k) <= login.at
    requires login.at - window <= cutoff
    ensures Since(Kept(log, login, window), cutoff) == Since(log, cutoff)
    ensures |Since(log, cutoff)| <= |Kept(log, login, window)|
    ensures (forall k: nat :: login.read(k) == login.at) ==> Kept(log, login, window) == Since(log, login.at - window)
  {
    if log != [] {
      var before, last := log[..|log| - 1], log[|log| - 1];
      KeptCovers(before, login, window, cutoff);
      SinceAppend(Kept(before, login, window), last, cutoff);
      assert Kept(before, login, window) + [] == Kept(before, login, window);
      assert login.read(|log| - 1) <= login.at;
    }
  }

  /** The log and the record agree on what the window still covers at `now`. */
  ghost predicate Agree(log: seq<real>, record: seq<real>, now: real, window: real) {
    forall cutoff: real | now - window <= cutoff :: Since(log, cutoff) == Since(record, cutoff)
  }

  /** One sign-in, when the log so far covers the recent part of the record. */
  lemma LoggedIsRecent(log: seq<real>, record: seq<real>, earlier: real, login: Login, attempts: nat, window: real)
    requires Agree(log, record, earlier, window) && earlier <= login.at
    requires forall k: nat :: login.read(k) <= login.at
    ensures var recorded := record + if |Kept(log, login, window)| < attempts && !login.correct then [login.at] else [];
            Agree(Logged(log, login, attempts, window), recorded, login.at, window)
    ensures |Since(record, login.at - window)| <= |Kept(log, login, window)|
  {
    hide Since, Kept;
    KeptCovers(log, login, window, login.at - window);
    var recent := Kept(log, login, window);
    assert record + [] == record;
    forall cutoff: real | login.at - window <= cutoff
      ensures Since(recent, cutoff) == Since(record, cutoff)
      ensures Since(recent + [login.at], cutoff) == Since(record + [login.at], cutoff)
    {
      KeptCovers(log, login, window, cutoff);
      SinceAppend(recent, login.at, cutoff);
      SinceAppend(record, login.at, cutoff);
    }
  }

  lemma MonotonePrefix(logins: seq<Login>)
    requires Monotone(logins) && logins != []
    ensures Monotone(logins[..|logins| - 1])
    ensures |logins| > 1 ==> logins[|logins| - 2].at <= logins[|logins| - 1].at
  {
    if |logins| > 1 {
      assert logins[|logins| - 2].at <= logins[|logins| - 1].read(0) <= logins[|logins| - 1].at;
    }
  }

  /** Forgetting loses nothing the window still covers: the log holds every recorded failure that is within the window
      at the end of the last sign-in. */
  lemma {:induction false} LogIsRecentRecord(logins: seq<Login>, attempts: nat, window: real)
    requires Monotone(logins) && logins != [] && window > 0.0
    ensures Agree(Log(logins, attempts, window), Recorded(logins, attempts, window), logins[|logins| - 1].at, window)
    ensures UpTo(Recorded(logins, attempts, window), logins[|logins| - 1].at)
  {
    hide Since, Logged, Agree;
    var before, last := logins[..|logins| - 1], logins[|logins| - 1];
    MonotonePrefix(logins);
    if before != [] {
      LogIsRecentRecord(before, attempts, window);
      LoggedIsRecent(Log(before, attempts, window), Recorded(before, attempts, window), before[|before| - 1].at, last,
                     attempts, window);
    } else {
      NothingAgrees(last.at, window);
      LoggedIsRecent([], [], last.at, last, attempts, window);
    }
  }

  lemma NothingAgrees(now: real, window: real)
    ensures Agree([], [], now, window)
  {
  }

  /** With one clock reading for the whole sign-in, the log is the recent part of the record, before the new failure. */
  lemma OneReadingKeepsExactly(logins: seq<Login>, login: Login, attempts: nat, window: real)
    requires Monotone(logins + [login]) && logins != [] && window > 0.0
    requires forall k: nat :: login.read(k) == login.at
    ensures Kept(Log(logins, attempts, window), login, window)
            == Since(Recorded(logins, attempts, window), login.at - window)
  {
    hide Since, Kept, Log, Recorded;
    var all := logins + [login];
    MonotonePrefix(all);
    assert all[..|all| - 1] == logins;
    LogIsRecentRecord(logins, attempts, window);
    KeptCovers(Log(logins, attempts, window), login, window, login.at - window);
  }

  /** A failure is recorded only while fewer than `attempts` are within the window. */
  lemma RecordedWhenFew(logins: seq<Login>, attempts: nat, window: real)
    requires Monotone(logins) && logins != [] && window > 0.0
    ensures var before, last := logins[..|logins| - 1], logins[|logins| - 1];
            var record := Recorded(before, attempts, window);
            || Recorded(logins, attempts, window) == record
            || (Recorded(logins, attempts, window) == record + [last.at]
                && |Since(record, last.at - window)| < attempts)
  {
    hide Since, Logged, Kept, Agree;
    var before, last := logins[..|logins| - 1], logins[|logins| - 1];
    MonotonePrefix(logins);
    if before != [] {
      LogIsRecentRecord(before, attempts, window);
      LoggedIsRecent(Log(before, attempts, window), Recorded(before, attempts, window), before[|before| - 1].at, last,
                     attempts, window);
    } else {
      NothingAgrees(last.at, window);
      LoggedIsRecent([], [], last.at, last, attempts, window);
    }
  }

  /** Under a monotone clock, no window of one length holds more recorded failures than the configured attempts. */
  lemma {:induction false} FailuresPerWindow(logins: seq<Login>, attempts: nat, window: real, from: real)
    requires Monotone(logins) && window > 0.0
    ensures CountIn(Recorded(logins, attempts, window), from, window) <= attempts
  {
    hide Since, Logged, Log, CountIn;
    if logins != [] {
      var before, last := logins[..|logins| - 1], logins[|logins| - 1];
      MonotonePrefix(logins);
      FailuresPerWindow(before, attempts, window, from);
      RecordedWhenFew(logins, attempts, window);
      var record := Recorded(before, attempts, window);
      CountSplits(record, [last.at], from, window);
      if from + window > last.at {
        CountAtMostSince(record, from, window, last.at - window);
      } else {
        NothingOutside([last.at], from, window);
      }
    } else {
      NothingOutside([], from, window);
    }
  }
}
