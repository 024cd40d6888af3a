/** Deterministic confidence scoring over exact reals (core/confidence.py). */
module Confidence {
  import opened Evidence
  import opened ConflictDetector
  import opened PolicyEngine

  datatype Breakdown = Breakdown(completeness: real, reliability: real, freshness: real, penalty: real, certainty: real,
                                 final: real)

  function Clamp(x: real): Fraction {
    if x < 0.0 then 0.0 else if x > 1.0 then 1.0 else x
  }

  function Sum(values: seq<real>): real {
    if values == [] then 0.0 else values[0] + Sum(values[1..])
  }

  function Mean(values: seq<real>): real {
    if values == [] then 0.0 else Sum(values) / |values| as real
  }

  function ReliabilityValues(evidence: seq<Item>): (r: seq<real>)
    ensures forall v <- r :: 0.0 <= v <= 1.0
  {
    if evidence == [] then []
    else When(evidence[0].freshness != Unavailable, evidence[0].reliability) + ReliabilityValues(evidence[1..])
  }

  function FreshnessValue(freshness: Freshness): real {
    match freshness
    case Fresh => 1.0
    case Stale => 0.5
    case _ => 0.0
  }

  function FreshnessValues(evidence: seq<Item>): (r: seq<real>)
    ensures |r| == |evidence|
    ensures forall v <- r :: 0.0 <= v <= 1.0
  {
    if evidence == [] then [] else [FreshnessValue(evidence[0].freshness)] + FreshnessValues(evidence[1..])
  }

  function AvailableSources(evidence: seq<Item>): set<Source> {
    set e <- evidence | e.freshness != Unavailable && e.freshness != Unknown :: e.source
  }

  function Completeness(evidence: seq<Item>, expected: seq<Source>): real {
    var wanted := set s <- expected;
    if wanted == {} then 1.0 else |AvailableSources(evidence) * wanted| as real / |wanted| as real
  }

  function Penalty(conflicts: seq<Conflict>): real {
    if conflicts == [] then 0.0
    else (match conflicts[0].severity case High => 0.25 case Medium => 0.15 case _ => 0.05) + Penalty(conflicts[1..])
  }

  function Certainty(policy: PolicyResult): real {
    if !policy.allowed || policy.status == AllPassed || policy.status == PolicyBlocked then 1.0 else 0.75
  }

  function CalculateConfidence(evidence: seq<Item>, conflicts: seq<Conflict>, policy: PolicyResult,
                               expected: seq<Source>): Breakdown {
    var completeness := Completeness(evidence, expected);
    var reliability := Mean(ReliabilityValues(evidence));
    var freshness := Mean(FreshnessValues(evidence));
    var penalty := if Penalty(conflicts) > 0.5 then 0.5 else Penalty(conflicts);
    var certainty := Certainty(policy);
    var final := 0.30 * completeness + 0.25 * reliability + 0.20 * freshness + 0.25 * certainty - penalty;
    Breakdown(Clamp(completeness), Clamp(reliability), Clamp(freshness), Clamp(penalty), Clamp(certainty), Clamp(final))
  }

  /** A fresh, fully reliable item never lowers a score that is computed for the same policy result. */
  lemma FreshItemNeverLowers(evidence: seq<Item>, item: Item, conflicts: seq<Conflict>, policy: PolicyResult,
                             expected: seq<Source>)
    requires item.freshness == Fresh && item.reliability == 1.0
    ensures CalculateConfidence(evidence + [item], conflicts, policy, expected).final
         >= CalculateConfidence(evidence, conflicts, policy, expected).final
  {
    ValuesOfAppend(evidence, item);
    MeanAppendOne(ReliabilityValues(evidence));
    MeanAppendOne(FreshnessValues(evidence));
    CompletenessGrows(evidence, item, expected);
  }

  lemma {:induction false} ValuesOfAppend(evidence: seq<Item>, item: Item)
    requires item.freshness == Fresh && item.reliability == 1.0
    ensures ReliabilityValues(evidence + [item]) == ReliabilityValues(evidence) + [1.0]
    ensures FreshnessValues(evidence + [item]) == FreshnessValues(evidence) + [1.0]
  {
    if evidence == [] {
      assert evidence + [item] == [item];
    } else {
      assert (evidence + [item])[1..] == evidence[1..] + [item];
      ValuesOfAppend(evidence[1..], item);
    }
  }

  lemma {:induction false} SumAppend(values: seq<real>, v: real)
    ensures Sum(values + [v]) == Sum(values) + v
  {
    if values == [] {
      assert values + [v] == [v];
    } else {
      assert (values + [v])[1..] == values[1..] + [v];
      SumAppend(values[1..], v);
    }
  }

  lemma {:induction false} SumAtMostLength(values: seq<real>)
    requires forall v <- values :: v <= 1.0
    ensures Sum(values) <= |values| as real
  {
    if values != [] {
      assert forall v <- values[1..] :: v in values;
      SumAtMostLength(values[1..]);
      assert values[0] in values && |values[1..]| as real == |values| as real - 1.0;
    }
  }

  lemma MeanAppendOne(values: seq<real>)
    requires forall v <- values :: v <= 1.0
    ensures Mean(values + [1.0]) >= Mean(values)
  {
    SumAppend(values, 1.0);
    SumAtMostLength(values);
    if values != [] {
      var n, q := |values| as real, Mean(values);
      assert q * n == Sum(values);
      RatioAtMost(Sum(values), n, 1.0);
      assert q * (n + 1.0) == q * n + q;
      RatioAtLeast(Sum(values) + 1.0, n + 1.0, q);
    }
  }

  lemma RatioAtLeast(x: real, d: real, q: real)
    requires d > 0.0 && q * d <= x
    ensures x / d >= q
  {
  }

  lemma RatioAtMost(x: real, d: real, q: real)
    requires d > 0.0 && x <= q * d
    ensures x / d <= q
  {
  }

  lemma CompletenessGrows(evidence: seq<Item>, item: Item, expected: seq<Source>)
    ensures Completeness(evidence + [item], expected) >= Completeness(evidence, expected)
  {
    var wanted := set s <- expected;
    if wanted != {} {
      var less, more := AvailableSources(evidence) * wanted, AvailableSources(evidence + [item]) * wanted;
      assert less <= more;
      SubsetCardinality(less, more);
      var n := |wanted| as real;
      RatioAtLeast(|more| as real, n, |less| as real / n);
    }
  }

  lemma SubsetCardinality<T>(a: set<T>, b: set<T>)
    requires a <= b
    ensures |a| <= |b|
  {
    assert b == a + (b - a);
  }

  lemma CompletenessIsFraction(evidence: seq<Item>, expected: seq<Source>)
    ensures 0.0 <= Completeness(evidence, expected) <= 1.0
  {
    var wanted := set s <- expected;
    if wanted != {} {
      SubsetCardinality(AvailableSources(evidence) * wanted, wanted);
      RatioAtMost(|AvailableSources(evidence) * wanted| as real, |wanted| as real, 1.0);
      RatioAtLeast(|AvailableSources(evidence) * wanted| as real, |wanted| as real, 0.0);
    }
  }

  lemma MeanIsAtMostOne(values: seq<real>)
    requires forall v <- values :: v <= 1.0
    ensures Mean(values) <= 1.0
  {
    SumAtMostLength(values);
    if values != [] {
      RatioAtMost(Sum(values), |values| as real, 1.0);
    }
  }

  lemma {:induction false} EveryConflictCosts(conflicts: seq<Conflict>)
    ensures Penalty(conflicts) >= 0.05 * |conflicts| as real
    ensures HasHigh(conflicts) ==> Penalty(conflicts) >= 0.25
  {
    if conflicts != [] {
      EveryConflictCosts(conflicts[1..]);
      if HasHigh(conflicts) && conflicts[0].severity != High {
        var c :| c in conflicts && c.severity == High;
        assert c in conflicts[1..];
      }
    }
  }

  /** Full confidence is reached exactly by complete, fully reliable, entirely fresh evidence without conflicts under a
      settled policy result; a high conflict costs at least a quarter. */
  lemma FullConfidenceIff(evidence: seq<Item>, conflicts: seq<Conflict>, policy: PolicyResult, expected: seq<Source>)
    ensures var final := CalculateConfidence(evidence, conflicts, policy, expected).final;
            && (final == 1.0 <==>
                  && Completeness(evidence, expected) == 1.0 && Mean(ReliabilityValues(evidence)) == 1.0
                  && Mean(FreshnessValues(evidence)) == 1.0 && conflicts == []
                  && (!policy.allowed || policy.status != NeedsContext))
            && (HasHigh(conflicts) ==> final <= 0.75)
  {
    hide Mean, Completeness, Penalty;
    CompletenessIsFraction(evidence, expected);
    MeanIsAtMostOne(ReliabilityValues(evidence));
    MeanIsAtMostOne(FreshnessValues(evidence));
    EveryConflictCosts(conflicts);
    NoConflictIsFree();
  }

  lemma NoConflictIsFree()
    ensures Penalty([]) == 0.0
  {
  }
}
