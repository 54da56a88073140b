// The ensemble coordinator: it asks every registered engine for an action
// kind and a confidence, turns the valid answers into votes, and aggregates
// the votes by confidence weight into one decision with a consensus score.

module Ensemble {
  import opened Types

  /** What one engine answered for the current snapshot: a kind and a confidence, or a failure. */
  datatype EngineResult = Ok(actionType: ActionType, confidence: real) | Fail

  /**
   * The vote an engine's answer becomes: none when the engine failed or when
   * its confidence does not validate as an action's confidence.
   */
  function VoteFrom(name: string, outcome: EngineResult): (vs: seq<EngineVote>)
    ensures |vs| <= 1
    ensures |vs| == 1 <==> outcome.Ok? && 0.0 <= outcome.confidence <= 1.0
    ensures |vs| == 1 ==> (vs[0].engineName == name && ValidEngineVote(vs[0])
      && vs[0].action.actionType == outcome.actionType && vs[0].action.size == 1.0
      && vs[0].confidence == outcome.confidence && vs[0].action.confidence == outcome.confidence)
  {
    match outcome
    case Fail => []
    case Ok(t, c) =>
      match NewAction(t, 1.0, c)
      case None => []
      case Some(a) => [EngineVote(name, a, c)]
  }

  /** The votes of all engines, in registration order; failed engines are skipped. */
  function CollectVotes(names: seq<string>, outcomes: seq<EngineResult>): (vs: seq<EngineVote>)
    requires |names| == |outcomes|
    ensures |vs| <= |names|
    ensures AllValid(vs)
  {
    if names == [] then []
    else
      var n := |names| - 1;
      CollectVotes(names[..n], outcomes[..n]) + VoteFrom(names[n], outcomes[n])
  }

  /** Collecting over one more engine appends that engine's vote, if any. */
  lemma CollectVotesStep(names: seq<string>, outcomes: seq<EngineResult>, i: nat)
    requires |names| == |outcomes| && i < |names|
    ensures CollectVotes(names[..i + 1], outcomes[..i + 1])
      == CollectVotes(names[..i], outcomes[..i]) + VoteFrom(names[i], outcomes[i])
  {
    assert names[..i + 1][..i] == names[..i];
    assert outcomes[..i + 1][..i] == outcomes[..i];
  }

  predicate AllValid(votes: seq<EngineVote>)
  {
    forall i :: 0 <= i < |votes| ==> ValidEngineVote(votes[i])
  }

  /** Every engine that answered with a valid confidence contributes exactly one vote. */
  function Accepted(outcomes: seq<EngineResult>): nat
  {
    if outcomes == [] then 0
    else
      var o := outcomes[|outcomes| - 1];
      Accepted(outcomes[..|outcomes| - 1]) + (if o.Ok? && 0.0 <= o.confidence <= 1.0 then 1 else 0)
  }

  lemma {:induction false} CollectVotesCount(names: seq<string>, outcomes: seq<EngineResult>)
    requires |names| == |outcomes|
    ensures |CollectVotes(names, outcomes)| == Accepted(outcomes)
    decreases |names|
  {
    if names != [] {
      var n := |names| - 1;
      CollectVotesCount(names[..n], outcomes[..n]);
    }
  }

  function VoteType(v: EngineVote): ActionType { v.action.actionType }

  // Reference definitions of the tally, stated over the whole vote list.

  /** Summed confidence of the votes for kind `a`. */
  function WeightOf(votes: seq<EngineVote>, a: ActionType): real
  {
    if votes == [] then 0.0
    else
      var v := votes[|votes| - 1];
      WeightOf(votes[..|votes| - 1], a) + (if VoteType(v) == a then v.confidence else 0.0)
  }

  /** Number of votes for kind `a`. */
  function CountOf(votes: seq<EngineVote>, a: ActionType): nat
  {
    if votes == [] then 0
    else CountOf(votes[..|votes| - 1], a) + (if VoteType(votes[|votes| - 1]) == a then 1 else 0)
  }

  /** Summed confidence of all votes. */
  function TotalConfidence(votes: seq<EngineVote>): real
  {
    if votes == [] then 0.0
    else TotalConfidence(votes[..|votes| - 1]) + votes[|votes| - 1].confidence
  }

  /** The kinds voted for, in order of first appearance (the order of the tally's keys). */
  function Appearance(votes: seq<EngineVote>): seq<ActionType>
  {
    if votes == [] then []
    else
      var p := Appearance(votes[..|votes| - 1]);
      var t := VoteType(votes[|votes| - 1]);
      if t in p then p else p + [t]
  }

  predicate Distinct(keys: seq<ActionType>)
  {
    forall i, j :: 0 <= i < j < |keys| ==> keys[i] != keys[j]
  }

  /** A kind appears in the tally exactly when somebody voted for it; no kind appears twice. */
  lemma {:induction false} AppearanceSpec(votes: seq<EngineVote>)
    ensures Distinct(Appearance(votes))
    ensures forall a :: a in Appearance(votes) <==> CountOf(votes, a) > 0
    decreases |votes|
  {
    if votes != [] {
      AppearanceSpec(votes[..|votes| - 1]);
    }
  }

  /** A kind nobody voted for has no weight. */
  lemma {:induction false} NoVotesNoWeight(votes: seq<EngineVote>, a: ActionType)
    requires CountOf(votes, a) == 0
    ensures WeightOf(votes, a) == 0.0
    decreases |votes|
  {
    if votes != [] {
      NoVotesNoWeight(votes[..|votes| - 1], a);
    }
  }

  /** With valid votes, a kind's weight lies between 0 and the total confidence. */
  lemma {:induction false} WeightBounds(votes: seq<EngineVote>, a: ActionType)
    requires AllValid(votes)
    ensures 0.0 <= WeightOf(votes, a) <= TotalConfidence(votes)
    ensures WeightOf(votes, a) <= CountOf(votes, a) as real
    ensures CountOf(votes, a) <= |votes|
    decreases |votes|
  {
    if votes != [] {
      var p := votes[..|votes| - 1];
      assert AllValid(p) by {
        forall i | 0 <= i < |p| ensures ValidEngineVote(p[i]) {
          assert p[i] == votes[i];
        }
      }
      assert ValidEngineVote(votes[|votes| - 1]);
      WeightBounds(p, a);
    }
  }

  /** When every vote is for `a`, all the weight and all the votes are `a`'s. */
  lemma {:induction false} UnanimousWeight(votes: seq<EngineVote>, a: ActionType)
    requires forall i :: 0 <= i < |votes| ==> VoteType(votes[i]) == a
    ensures WeightOf(votes, a) == TotalConfidence(votes)
    ensures CountOf(votes, a) == |votes|
    decreases |votes|
  {
    if votes != [] {
      var p := votes[..|votes| - 1];
      assert forall i :: 0 <= i < |p| ==> VoteType(p[i]) == a by {
        forall i | 0 <= i < |p| ensures VoteType(p[i]) == a {
          assert p[i] == votes[i];
        }
      }
      UnanimousWeight(p, a);
    }
  }

  // The tally as the source builds it: a dictionary from kind to weight, and
  // the maximum and sum taken over its keys in insertion order.

  /** The weight dictionary after all votes are counted. */
  function WeightMap(votes: seq<EngineVote>): (w: map<ActionType, real>)
    ensures forall a :: a in w <==> a in Appearance(votes)
    ensures forall a :: a in w ==> w[a] == WeightOf(votes, a)
  {
    map a | a in Appearance(votes) :: WeightOf(votes, a)
  }

  function SumOver(keys: seq<ActionType>, w: map<ActionType, real>): real
    requires forall k :: k in keys ==> k in w
  {
    if keys == [] then 0.0 else w[keys[0]] + SumOver(keys[1..], w)
  }

  /**
   * The index of the key the tally picks: the first key, in insertion order,
   * whose weight is maximal.
   */
  function FirstMaxIndex(keys: seq<ActionType>, w: map<ActionType, real>): (j: nat)
    requires keys != []
    requires forall k :: k in keys ==> k in w
    ensures j < |keys|
    ensures forall i :: 0 <= i < |keys| ==> w[keys[i]] <= w[keys[j]]
    ensures forall i :: 0 <= i < j ==> w[keys[i]] < w[keys[j]]
  {
    if |keys| == 1 then 0
    else
      var n := |keys| - 1;
      var b := FirstMaxIndex(keys[..n], w);
      if w[keys[n]] > w[keys[b]] then n else b
  }

  /** Adding one vote to the weights of distinct keys adds its confidence once, if its kind is a key. */
  lemma {:induction false} SumOverStep(keys: seq<ActionType>, votes: seq<EngineVote>, v: EngineVote)
    requires Distinct(keys)
    ensures SumOver(keys, WeightMapOn(keys, votes + [v]))
      == SumOver(keys, WeightMapOn(keys, votes)) + (if VoteType(v) in keys then v.confidence else 0.0)
    decreases |keys|
  {
    if keys != [] {
      var rest := keys[1..];
      assert (votes + [v])[..|votes + [v]| - 1] == votes;
      assert Distinct(rest) by {
        forall i, j | 0 <= i < j < |rest| ensures rest[i] != rest[j] {
          assert rest[i] == keys[i + 1] && rest[j] == keys[j + 1];
        }
      }
      SumOverStep(rest, votes, v);
      SumOverRestrict(rest, keys, votes + [v]);
      SumOverRestrict(rest, keys, votes);
      assert VoteType(v) in keys <==> VoteType(v) == keys[0] || VoteType(v) in rest;
      assert VoteType(v) == keys[0] ==> VoteType(v) !in rest;
    }
  }

  /** The weights of `keys` read from the votes. */
  function WeightMapOn(keys: seq<ActionType>, votes: seq<EngineVote>): (w: map<ActionType, real>)
    ensures forall a :: a in w <==> a in keys
    ensures forall a :: a in w ==> w[a] == WeightOf(votes, a)
  {
    map a | a in keys :: WeightOf(votes, a)
  }

  /** A sum only reads the map at its own keys. */
  lemma {:induction false} SumOverRestrict(keys: seq<ActionType>, wider: seq<ActionType>, votes: seq<EngineVote>)
    requires forall k :: k in keys ==> k in wider
    ensures SumOver(keys, WeightMapOn(keys, votes)) == SumOver(keys, WeightMapOn(wider, votes))
    decreases |keys|
  {
    if keys != [] {
      SumOverRestrict(keys[1..], wider, votes);
      SumOverRestrict(keys[1..], keys, votes);
    }
  }

  /** Summing the tally over its keys gives the total confidence of the votes. */
  lemma {:induction false} SumOverAppearance(votes: seq<EngineVote>)
    ensures SumOver(Appearance(votes), WeightMap(votes)) == TotalConfidence(votes)
    decreases |votes|
  {
    var keys := Appearance(votes);
    assert WeightMap(votes) == WeightMapOn(keys, votes);
    if votes != [] {
      var p := votes[..|votes| - 1];
      var v := votes[|votes| - 1];
      assert votes == p + [v];
      var pk := Appearance(p);
      SumOverAppearance(p);
      assert WeightMap(p) == WeightMapOn(pk, p);
      AppearanceSpec(p);
      AppearanceSpec(votes);
      SumOverStep(keys, p, v);
      if VoteType(v) in pk {
        assert keys == pk;
      } else {
        assert keys == pk + [VoteType(v)];
        CountIsZero(p, VoteType(v));
        NoVotesNoWeight(p, VoteType(v));
        SumOverSnoc(pk, VoteType(v), WeightMapOn(keys, p));
        SumOverRestrict(pk, keys, p);
      }
    }
  }

  lemma CountIsZero(votes: seq<EngineVote>, a: ActionType)
    requires a !in Appearance(votes)
    ensures CountOf(votes, a) == 0
  {
    AppearanceSpec(votes);
  }

  lemma {:induction false} SumOverSnoc(keys: seq<ActionType>, k: ActionType, w: map<ActionType, real>)
    requires forall x :: x in keys ==> x in w
    requires k in w
    ensures SumOver(keys + [k], w) == SumOver(keys, w) + w[k]
    decreases |keys|
  {
    if keys == [] {
      assert keys + [k] == [k];
    } else {
      assert (keys + [k])[1..] == keys[1..] + [k];
      SumOverSnoc(keys[1..], k, w);
    }
  }

  /** The audit record of the votes: one entry per engine name, the later vote winning. */
  function VoteLog(votes: seq<EngineVote>): (log: map<string, VoteRecord>)
    ensures forall name :: name in log <==> exists i :: 0 <= i < |votes| && votes[i].engineName == name
  {
    if votes == [] then map[]
    else
      var v := votes[|votes| - 1];
      var p := votes[..|votes| - 1];
      assert forall i :: 0 <= i < |p| ==> p[i] == votes[i];
      VoteLog(p)[v.engineName := VoteRecord(VoteType(v), v.confidence)]
  }

  /** An engine's entry in the audit record is its last vote. */
  lemma {:induction false} VoteLogKeepsLast(votes: seq<EngineVote>, i: nat)
    requires i < |votes|
    requires forall j :: i < j < |votes| ==> votes[j].engineName != votes[i].engineName
    ensures VoteLog(votes)[votes[i].engineName] == VoteRecord(VoteType(votes[i]), votes[i].confidence)
    decreases |votes|
  {
    if i < |votes| - 1 {
      var p := votes[..|votes| - 1];
      assert p[i] == votes[i];
      VoteLogKeepsLast(p, i);
    }
  }

  /** The agreement-adjusted consensus before the cap at 1. */
  function RawConsensus(weight: real, total: real, count: nat, n: nat): real
    requires n > 0
  {
    var share := if total > 0.0 then weight / total else 0.0;
    share * (0.7 + 0.3 * (count as real / n as real))
  }

  /** The cap at 1 never binds: a share of the weight times an agreement factor is at most 1. */
  lemma ConsensusBounds(weight: real, total: real, count: nat, n: nat)
    requires 0.0 <= weight <= total && 0 < count <= n
    ensures 0.0 <= RawConsensus(weight, total, count, n) <= 1.0
  {
    var share := if total > 0.0 then weight / total else 0.0;
    assert 0.0 <= share <= 1.0 by {
      if total > 0.0 {
        DivideMonotone(0.0, weight, total);
        DivideMonotone(weight, total, total);
      }
    }
    var agreement := count as real / n as real;
    assert 0.0 < agreement <= 1.0 by {
      DivideMonotone(count as real, n as real, n as real);
    }
    var factor := 0.7 + 0.3 * agreement;
    assert 0.0 <= factor <= 1.0;
    MultiplyMonotone(share, 1.0, factor);
    MultiplyMonotone(0.0, share, factor);
    assert RawConsensus(weight, total, count, n) == share * factor;
  }

  /** The decision when nobody voted. */
  const NoVoteDecision := Decision(Action(Hold, 0.0, None, 0.0, 1.0, map[]), 0.0, Blocked, [NoEngineVotes], map[])

  /**
   * Aggregation of a list of votes into one decision. With no votes the
   * ensemble holds, blocked. Otherwise it picks the kind with the largest
   * summed confidence (the first such kind to have been voted for, on ties),
   * scores it by its share of the total confidence scaled by the fraction of
   * engines that agree, and approves it with a unit size.
   */
  function Aggregate(votes: seq<EngineVote>): (d: Decision)
    requires AllValid(votes)
    ensures votes == [] ==> d == NoVoteDecision
    ensures votes != [] ==> d.status == Approved && d.reasons == [EnginesVoted(|votes|)]
    ensures votes != [] ==> d.action.size == 1.0 && d.action.confidence == d.consensusConfidence
    ensures votes != [] ==> CountOf(votes, d.action.actionType) > 0
    ensures votes != [] ==> forall a :: WeightOf(votes, a) <= WeightOf(votes, d.action.actionType)
    ensures votes != [] ==> d.consensusConfidence == RawConsensus(WeightOf(votes, d.action.actionType),
      TotalConfidence(votes), CountOf(votes, d.action.actionType), |votes|)
    ensures d.engineVotes == VoteLog(votes)
    ensures ValidDecision(d)
  {
    if votes == [] then NoVoteDecision
    else
      var keys := Appearance(votes);
      var w := WeightMap(votes);
      assert VoteType(votes[0]) in keys by {
        AppearanceSpec(votes);
        CountPositive(votes, 0);
      }
      var chosen := keys[FirstMaxIndex(keys, w)];
      var total := SumOver(keys, w);
      var consensus := Min(RawConsensus(w[chosen], total, CountOf(votes, chosen), |votes|), 1.0);
      SumOverAppearance(votes);
      AppearanceSpec(votes);
      WeightBounds(votes, chosen);
      ConsensusBounds(w[chosen], total, CountOf(votes, chosen), |votes|);
      assert forall a :: WeightOf(votes, a) <= w[chosen] by {
        forall a ensures WeightOf(votes, a) <= w[chosen] {
          if a !in keys {
            NoVotesNoWeight(votes, a);
            WeightBounds(votes, chosen);
          }
        }
      }
      Decision(Action(chosen, 1.0, None, consensus, 1.0, map[]), consensus, Approved,
        [EnginesVoted(|votes|)], VoteLog(votes))
  }

  /** Somebody voted for the kind of each vote. */
  lemma {:induction false} CountPositive(votes: seq<EngineVote>, i: nat)
    requires i < |votes|
    ensures CountOf(votes, VoteType(votes[i])) > 0
    decreases |votes|
  {
    if i < |votes| - 1 {
      var p := votes[..|votes| - 1];
      assert p[i] == votes[i];
      CountPositive(p, i);
    }
  }

  /** Among kinds with equal top weight, the one voted for first wins. */
  lemma TiesGoToFirstVoted(votes: seq<EngineVote>, i: nat)
    requires AllValid(votes) && votes != []
    requires i < |Appearance(votes)|
    requires WeightOf(votes, Appearance(votes)[i]) == WeightOf(votes, Aggregate(votes).action.actionType)
    ensures Aggregate(votes).action.actionType in Appearance(votes)[..i + 1]
  {
    var keys := Appearance(votes);
    var w := WeightMap(votes);
    AppearanceSpec(votes);
    CountPositive(votes, 0);
    var j := FirstMaxIndex(keys, w);
    assert Aggregate(votes).action.actionType == keys[j];
    assert j <= i;
    assert keys[..i + 1][j] == keys[j];
  }

  /** When every engine votes for the same kind with some confidence, the consensus is full. */
  lemma UnanimousConsensus(votes: seq<EngineVote>, a: ActionType)
    requires AllValid(votes) && votes != []
    requires forall i :: 0 <= i < |votes| ==> VoteType(votes[i]) == a
    requires TotalConfidence(votes) > 0.0
    ensures Aggregate(votes).action.actionType == a
    ensures Aggregate(votes).consensusConfidence == 1.0
  {
    UnanimousWeight(votes, a);
    UnanimousNoOther(votes, a);
    FullConsensus(TotalConfidence(votes), |votes|);
  }

  lemma FullConsensus(total: real, n: nat)
    requires total > 0.0 && n > 0
    ensures RawConsensus(total, total, n, n) == 1.0
  {
    assert total / total == 1.0;
    assert n as real / n as real == 1.0;
  }

  lemma {:induction false} UnanimousNoOther(votes: seq<EngineVote>, a: ActionType)
    requires forall i :: 0 <= i < |votes| ==> VoteType(votes[i]) == a
    ensures forall t :: CountOf(votes, t) > 0 ==> t == a
    decreases |votes|
  {
    if votes != [] {
      var p := votes[..|votes| - 1];
      assert forall i :: 0 <= i < |p| ==> VoteType(p[i]) == a by {
        forall i | 0 <= i < |p| ensures VoteType(p[i]) == a {
          assert p[i] == votes[i];
        }
      }
      UnanimousNoOther(p, a);
    }
  }

  /**
   * The tally loop: one pass over the votes accumulating, per kind, the summed
   * confidence and the vote count, keys kept in insertion order.
   */
  method TallyVotes(votes: seq<EngineVote>) returns (keys: seq<ActionType>, weights: map<ActionType, real>, counts: map<ActionType, nat>)
    ensures keys == Appearance(votes)
    ensures weights == WeightMap(votes)
    ensures forall a :: a in counts <==> a in keys
    ensures forall a :: a in counts ==> counts[a] == CountOf(votes, a)
  {
    keys := [];
    weights := map[];
    counts := map[];
    var i := 0;
    while i < |votes|
      invariant 0 <= i <= |votes|
      invariant keys == Appearance(votes[..i])
      invariant forall a :: a in weights <==> a in keys
      invariant forall a :: a in counts <==> a in keys
      invariant forall a :: a in weights ==> weights[a] == WeightOf(votes[..i], a)
      invariant forall a :: a in counts ==> counts[a] == CountOf(votes[..i], a)
    {
      var v := votes[i];
      assert votes[..i + 1][..i] == votes[..i];
      assert votes[..i + 1][i] == v;
      var t := VoteType(v);
      if t !in keys {
        CountIsZero(votes[..i], t);
        NoVotesNoWeight(votes[..i], t);
      }
      weights := weights[t := (if t in weights then weights[t] else 0.0) + v.confidence];
      counts := counts[t := (if t in counts then counts[t] else 0) + 1];
      if t !in keys {
        keys := keys + [t];
      }
      i := i + 1;
    }
    assert votes[..|votes|] == votes;
  }

  /** The aggregation step of the coordinator, computed with the tally loop. */
  method AggregateVotes(votes: seq<EngineVote>) returns (d: Decision)
    requires AllValid(votes)
    ensures d == Aggregate(votes)
  {
    if votes == [] {
      return NoVoteDecision;
    }
    var keys, weights, counts := TallyVotes(votes);
    AppearanceSpec(votes);
    CountPositive(votes, 0);
    var chosen := keys[FirstMaxIndex(keys, weights)];
    var total := SumOver(keys, weights);
    var consensus := Min(RawConsensus(weights[chosen], total, counts[chosen], |votes|), 1.0);
    d := Decision(Action(chosen, 1.0, None, consensus, 1.0, map[]), consensus, Approved,
      [EnginesVoted(|votes|)], VoteLog(votes));
  }

  /** The coordinator: an ordered list of registered engines, known by name. */
  class HyperEnsemble {
    var engines: seq<string>

    constructor(engines: seq<string>)
      ensures this.engines == engines
    {
      this.engines := engines;
    }

    /** Registers one more engine, after the existing ones. */
    method AddEngine(name: string)
      modifies this
      ensures engines == old(engines) + [name]
    {
      engines := engines + [name];
    }

    /**
     * Asks every engine in registration order (their answers are `outcomes`),
     * skips failures and invalid answers, and aggregates the rest.
     */
    method RunSync(outcomes: seq<EngineResult>) returns (d: Decision)
      requires |outcomes| == |engines|
      ensures d == Aggregate(CollectVotes(engines, outcomes))
    {
      var votes: seq<EngineVote> := [];
      var i := 0;
      while i < |engines|
        invariant 0 <= i <= |engines|
        invariant votes == CollectVotes(engines[..i], outcomes[..i])
      {
        CollectVotesStep(engines, outcomes, i);
        votes := votes + VoteFrom(engines[i], outcomes[i]);
        i := i + 1;
      }
      assert engines[..|engines|] == engines && outcomes[..|outcomes|] == outcomes;
      d := AggregateVotes(votes);
    }

    /**
     * Runs the ensemble and enforces a minimum consensus: the decision is
     * withheld (None) exactly when its consensus is below `minConfidence`.
     */
    method RunAndAssert(outcomes: seq<EngineResult>, minConfidence: real) returns (r: Option<Decision>)
      requires |outcomes| == |engines|
      ensures var d := Aggregate(CollectVotes(engines, outcomes));
        r == if d.consensusConfidence < minConfidence then None else Some(d)
    {
      var d := RunSync(outcomes);
      if d.consensusConfidence < minConfidence {
        return None;
      }
      return Some(d);
    }
  }

  /**
   * When no vote survives (every engine failed or answered out of range, or
   * there are none), the decision is the blocked hold at confidence 0, which
   * is never asserted at a positive threshold.
   */
  lemma NoVotesNeverPass(names: seq<string>, outcomes: seq<EngineResult>, minConfidence: real)
    requires |names| == |outcomes| && minConfidence > 0.0
    requires CollectVotes(names, outcomes) == []
    ensures Aggregate(CollectVotes(names, outcomes)) == NoVoteDecision
    ensures Aggregate(CollectVotes(names, outcomes)).consensusConfidence < minConfidence
  {
  }

  lemma {:induction false} AllFailNoVotes(names: seq<string>, outcomes: seq<EngineResult>)
    requires |names| == |outcomes|
    requires forall i :: 0 <= i < |outcomes| ==> outcomes[i].Fail?
    ensures CollectVotes(names, outcomes) == []
    decreases |names|
  {
    if names != [] {
      var n := |names| - 1;
      assert forall i :: 0 <= i < n ==> outcomes[..n][i] == outcomes[i];
      AllFailNoVotes(names[..n], outcomes[..n]);
    }
  }
}
