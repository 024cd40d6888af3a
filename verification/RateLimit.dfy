/** The local fixed-window branch of the rate limiter (core/rate_limit.py). */
module RateLimit {
  import opened Intervals

  datatype Window = Window(count: nat, started: real)

  datatype Hit = Hit(key: string, at: real)

  type Windows = map<string, Window>

  /** The window a request at `now` is counted in, the request included. */
  function Counted(windows: Windows, key: string, now: real, length: real): Window {
    if key !in windows || now - windows[key].started >= length then Window(1, now)
    else windows[key].(count := windows[key].count + 1)
  }

  class RateLimiter {
    var windows: Windows

    constructor ()
      ensures windows == map[]
    {
      windows := map[];
    }

    method Check(key: string, now: real, limit: nat, length: real) returns (accepted: bool)
      modifies this
      ensures windows == old(windows)[key := Counted(old(windows), key, now, length)]
      ensures accepted <==> windows[key].count <= limit
    {
      var count, started := 0, now;
      if key in windows { count, started := windows[key].count, windows[key].started; }
      if now - started >= length { count, started := 0, now; }
      count := count + 1;
      windows := windows[key := Window(count, started)];
      accepted := count <= limit;
    }
  }

  function After(hits: seq<Hit>, length: real): Windows {
    if hits == [] then map[]
    else
      var before, last := After(hits[..|hits| - 1], length), hits[|hits| - 1];
      before[last.key := Counted(before, last.key, last.at, length)]
  }

  /** When requests under `key` were accepted. */
  function Accepted(hits: seq<Hit>, key: string, limit: nat, length: real): seq<real> {
    if hits == [] then []
    else
      var last := hits[|hits| - 1];
      Accepted(hits[..|hits| - 1], key, limit, length)
      + if last.key == key && After(hits, length)[key].count <= limit then [last.at] else []
  }

  predicate Monotone(hits: seq<Hit>) {
    forall i, j | 0 <= i < j < |hits| :: hits[i].at <= hits[j].at
  }

  function Minimum(a: nat, b: nat): nat {
    if a < b then a else b
  }

  /** `past` are the acceptances of earlier windows and `current` those of the open one. */
  ghost predicate Split(past: seq<real>, current: seq<real>, w: Window, limit: nat, length: real) {
    && |current| == Minimum(w.count, limit) && w.count >= 1
    && (forall i | 0 <= i < |current| :: w.started <= current[i] < w.started + length)
    && (limit >= 1 ==> current != [] && current[0] == w.started)
    && (limit == 0 ==> past == [])
    && UpTo(past, w.started)
    && (limit >= 1 ==> forall a: real :: CountIn(past, a, length) <= 2 * limit - 1)
    && (limit >= 1 ==> forall a: real | a > w.started - length :: CountIn(past, a, length) <= limit - 1)
  }

  lemma SplitBounds(past: seq<real>, current: seq<real>, w: Window, limit: nat, length: real, a: real)
    requires Split(past, current, w, limit, length) && limit >= 1
    ensures CountIn(past + current, a, length) <= 2 * limit - 1
    ensures a > w.started ==> CountIn(past + current, a, length) <= limit - 1
  {
    CountSplits(past, current, a, length);
    if a + length <= w.started {
      NothingOutside(current, a, length);
    }
    if a > w.started {
      NothingOutside(past, a, length);
      assert current == [current[0]] + current[1..];
      CountSplits([current[0]], current[1..], a, length);
      NothingOutside([current[0]], a, length);
    }
  }

  lemma OpenWindow(past: seq<real>, current: seq<real>, w: Window, limit: nat, length: real, now: real)
    requires Split(past, current, w, limit, length) && length > 0.0 && now - w.started >= length
    requires UpTo(past + current, now)
    ensures Split(past + current, if limit >= 1 then [now] else [], Window(1, now), limit, length)
  {
    if limit >= 1 {
      forall a: real ensures CountIn(past + current, a, length) <= 2 * limit - 1 {
        SplitBounds(past, current, w, limit, length, a);
      }
      forall a: real | a > now - length ensures CountIn(past + current, a, length) <= limit - 1 {
        SplitBounds(past, current, w, limit, length, a);
      }
    }
  }

  lemma FirstWindow(limit: nat, length: real, now: real)
    requires length > 0.0
    ensures Split([], if limit >= 1 then [now] else [], Window(1, now), limit, length)
  {
  }

  lemma SameWindow(past: seq<real>, current: seq<real>, w: Window, limit: nat, length: real, now: real)
    requires Split(past, current, w, limit, length) && w.started <= now < w.started + length
    ensures Split(past, if w.count < limit then current + [now] else current, w.(count := w.count + 1), limit, length)
  {
  }

  lemma {:induction false} HistorySplits(hits: seq<Hit>, key: string, limit: nat,
                                         length: real) returns (past: seq<real>, current: seq<real>)
    requires Monotone(hits) && length > 0.0
    ensures Accepted(hits, key, limit, length) == past + current
    ensures key in After(hits, length) ==>
      Split(past, current, After(hits, length)[key], limit, length) && hits != []
      && After(hits, length)[key].started <= hits[|hits| - 1].at
    ensures key !in After(hits, length) ==> past + current == []
    ensures past + current != [] ==> hits != [] && UpTo(past + current, hits[|hits| - 1].at)
  {
    hide Split;
    if hits == [] {
      past, current := [], [];
    } else {
      var prefix, last := hits[..|hits| - 1], hits[|hits| - 1];
      past, current := HistorySplits(prefix, key, limit, length);
      if last.key == key {
        var before := After(prefix, length);
        if key !in before {
          FirstWindow(limit, length, last.at);
          past, current := [], if limit >= 1 then [last.at] else [];
        } else if last.at - before[key].started >= length {
          OpenWindow(past, current, before[key], limit, length, last.at);
          past, current := past + current, if limit >= 1 then [last.at] else [];
        } else {
          SameWindow(past, current, before[key], limit, length, last.at);
          if before[key].count < limit { current := current + [last.at]; }
        }
      }
    }
  }

  /** Under a monotone clock, for every key and whatever the other keys do, fewer than twice the limit are accepted in
      any half-open interval of one window length. */
  lemma FewerThanTwiceTheLimit(hits: seq<Hit>, key: string, limit: nat, length: real, from: real)
    requires Monotone(hits) && length > 0.0
    ensures limit >= 1 ==> CountIn(Accepted(hits, key, limit, length), from, length) <= 2 * limit - 1
    ensures limit == 0 ==> Accepted(hits, key, limit, length) == []
  {
    var past, current := HistorySplits(hits, key, limit, length);
    if key in After(hits, length) && limit >= 1 {
      SplitBounds(past, current, After(hits, length)[key], limit, length, from);
    }
  }

  lemma OneMoreHit(hits: seq<Hit>, hit: Hit, limit: nat, length: real)
    ensures After(hits + [hit], length)
            == After(hits, length)[hit.key := Counted(After(hits, length), hit.key, hit.at, length)]
    ensures Accepted(hits + [hit], hit.key, limit, length)
         == Accepted(hits, hit.key, limit, length)
            + if After(hits + [hit], length)[hit.key].count <= limit then [hit.at] else []
  {
    assert (hits + [hit])[..|hits|] == hits;
  }

  /** `count` requests at one moment. */
  function Burst(at: real, count: nat): (r: seq<Hit>)
    ensures |r| == count && forall i | 0 <= i < count :: r[i] == Hit("k", at)
  {
    seq(count, _ => Hit("k", at))
  }

  function Stamps(at: real, count: nat): (r: seq<real>)
    ensures |r| == count && forall i | 0 <= i < count :: r[i] == at
  {
    seq(count, _ => at)
  }

  /** A burst inside an open window that still has room for it is accepted whole. */
  lemma {:induction false} BurstIsAccepted(hits: seq<Hit>, at: real, count: nat, limit: nat, length: real)
    requires "k" in After(hits, length) && at - After(hits, length)["k"].started < length
    requires After(hits, length)["k"].count + count <= limit
    ensures "k" in After(hits + Burst(at, count), length)
    ensures var before, after := After(hits, length)["k"], After(hits + Burst(at, count), length)["k"];
            after == Window(before.count + count, before.started)
    ensures Accepted(hits + Burst(at, count), "k", limit, length)
            == Accepted(hits, "k", limit, length) + Stamps(at, count)
  {
    hide After, Accepted;
    if count == 0 {
      assert hits + Burst(at, count) == hits;
    } else {
      BurstIsAccepted(hits, at, count - 1, limit, length);
      var fewer := hits + Burst(at, count - 1);
      assert fewer + [Hit("k", at)] == hits + Burst(at, count);
      assert Stamps(at, count - 1) + [at] == Stamps(at, count);
      OneMoreHit(fewer, Hit("k", at), limit, length);
    }
  }

  lemma {:induction false} AllInside(at: real, count: nat, from: real, span: real)
    requires from <= at < from + span
    ensures CountIn(Stamps(at, count), from, span) == count
  {
    if count > 0 {
      AllInside(at, count - 1, from, span);
      assert Stamps(at, count)[..count - 1] == Stamps(at, count - 1);
    }
  }

  /** One request opens a window, the rest of its limit follows at half time, and a full limit as the next window
      opens. */
  function Squeeze(limit: nat, length: real): seq<Hit>
    requires limit >= 1
  {
    [Hit("k", 0.0)] + Burst(length / 2.0, limit - 1) + [Hit("k", length)] + Burst(length, limit - 1)
  }

  lemma SqueezeIsAccepted(limit: nat, length: real)
    requires limit >= 1 && length > 0.0
    ensures Accepted(Squeeze(limit, length), "k", limit, length)
         == [0.0] + Stamps(length / 2.0, limit - 1) + [length] + Stamps(length, limit - 1)
  {
    hide After, Accepted;
    var first, second := Hit("k", 0.0), Hit("k", length);
    assert After([], length) == map[] && Accepted([], "k", limit, length) == [] by { EmptyHistory(limit, length); }
    OneMoreHit([], first, limit, length);
    assert [] + [first] == [first];
    BurstIsAccepted([first], length / 2.0, limit - 1, limit, length);
    OneMoreHit([first] + Burst(length / 2.0, limit - 1), second, limit, length);
    BurstIsAccepted([first] + Burst(length / 2.0, limit - 1) + [second], length, limit - 1, limit, length);
  }

  /** For every limit and window length, the bound is reached. */
  lemma BoundIsTight(limit: nat, length: real)
    requires limit >= 1 && length > 0.0
    ensures Monotone(Squeeze(limit, length))
    ensures CountIn(Accepted(Squeeze(limit, length), "k", limit, length), length / 2.0, length) == 2 * limit - 1
  {
    hide After, Accepted;
    SqueezeIsAccepted(limit, length);
    var from := length / 2.0;
    var early, late := Stamps(from, limit - 1), Stamps(length, limit - 1);
    CountSplits([0.0] + early + [length], late, from, length);
    CountSplits([0.0] + early, [length], from, length);
    CountSplits([0.0], early, from, length);
    AllInside(from, limit - 1, from, length);
    AllInside(length, limit - 1, from, length);
    AllInside(length, 1, from, length);
    assert Stamps(length, 1) == [length];
    NothingOutside([0.0], from, length);
  }

  lemma EmptyHistory(limit: nat, length: real)
    ensures After([], length) == map[] && Accepted([], "k", limit, length) == []
  {
  }
}
