/** Weighted majority voting over labelled decisions. */
module Fusion {
  import opened Wrappers
  import opened Reals

  /** The label of one decision, a verdict, and its confidence. */
  datatype Vote = Vote(verdict: string, confidence: real)

  datatype Fused = Fused(verdict: string, confidence: real) | NoDecisions | WrongWeightCount

  function Weighted(v: Vote, weight: real): real {
    v.confidence * weight
  }

  /** The weighted votes for a verdict. */
  function Votes(ds: seq<Vote>, ws: seq<real>, verdict: string): real
    requires |ds| == |ws|
  {
    if ds == [] then 0.0
    else
      var n := |ds| - 1;
      Votes(ds[..n], ws[..n], verdict) + (if ds[n].verdict == verdict then Weighted(ds[n], ws[n]) else 0.0)
  }

  /** All weighted votes. */
  function AllVotes(ds: seq<Vote>, ws: seq<real>): real
    requires |ds| == |ws|
  {
    if ds == [] then 0.0 else AllVotes(ds[..|ds|-1], ws[..|ds|-1]) + Weighted(ds[|ds|-1], ws[|ds|-1])
  }

  /** The labels in the order of their first vote: the order of the vote table. */
  function Labels(ds: seq<Vote>): seq<string> {
    if ds == [] then []
    else
      var (before, verdict) := (Labels(ds[..|ds|-1]), ds[|ds|-1].verdict);
      if verdict in before then before else before + [verdict]
  }

  /** The winner has the most votes, and more than every verdict seen before it. */
  ghost predicate Wins(ds: seq<Vote>, ws: seq<real>, verdict: string)
    requires |ds| == |ws|
  {
    exists k :: 0 <= k < |Labels(ds)| && Labels(ds)[k] == verdict && Leads(ds, ws, k, |Labels(ds)|)
  }

  /** Label k leads the first n labels. */
  ghost predicate Leads(ds: seq<Vote>, ws: seq<real>, k: nat, n: nat)
    requires |ds| == |ws| && k < n <= |Labels(ds)|
  {
    var ls := Labels(ds);
    && (forall j :: 0 <= j < n ==> Votes(ds, ws, ls[j]) <= Votes(ds, ws, ls[k]))
    && (forall j :: 0 <= j < k ==> Votes(ds, ws, ls[j]) < Votes(ds, ws, ls[k]))
  }

  function Share(votes: real, total: real): real {
    if total > 0.0 then votes / total else 0.0
  }

  function Clamp(x: real): real {
    var low := if x < 1.0 then x else 1.0;
    if low > 0.0 then low else 0.0
  }

  lemma ClampedShare(votes: real, total: real)
    ensures 0.0 <= Clamp(Share(votes, total)) <= 1.0
    ensures total <= 0.0 ==> Clamp(Share(votes, total)) == 0.0
  {
  }

  function WeightsFor(ds: seq<Vote>, weights: Option<seq<real>>): seq<real> {
    if weights.Some? then weights.value else seq(|ds|, _ => 1.0)
  }

  /** `fuse_decisions`; its errors are results. */
  method FuseDecisions(ds: seq<Vote>, weights: Option<seq<real>>) returns (r: Fused)
    ensures ds == [] ==> r == NoDecisions
    ensures ds != [] && |WeightsFor(ds, weights)| != |ds| ==> r == WrongWeightCount
    ensures ds != [] && |WeightsFor(ds, weights)| == |ds| ==>
              var ws := WeightsFor(ds, weights);
              && r.Fused? && Wins(ds, ws, r.verdict)
              && r.confidence == Clamp(Share(Votes(ds, ws, r.verdict), Sum(ws)))
              && 0.0 <= r.confidence <= 1.0 && (Sum(ws) <= 0.0 ==> r.confidence == 0.0)
  {
    hide Votes, Labels, Sum, Share, Clamp, Wins;
    if ds == [] {
      return NoDecisions;
    }
    var ws := WeightsFor(ds, weights);
    if |ws| != |ds| {
      return WrongWeightCount;
    }
    var labels, votes := Tally(ds, ws);
    SomeLabel(ds);
    var best := 0;
    for j := 1 to |labels|
      invariant 0 <= best < j
      invariant Leads(ds, ws, best, j)
    {
      if votes[labels[j]] > votes[labels[best]] {
        best := j;
      }
    }
    var winner := labels[best];
    LeaderWins(ds, ws, best);
    ClampedShare(votes[winner], Sum(ws));
    return Fused(winner, Clamp(Share(votes[winner], Sum(ws))));
  }

  /** The vote table, and its keys in order. */
  method Tally(ds: seq<Vote>, ws: seq<real>) returns (labels: seq<string>, votes: map<string, real>)
    requires |ds| == |ws|
    ensures labels == Labels(ds)
    ensures forall l <- labels :: l in votes && votes[l] == Votes(ds, ws, l)
  {
    hide Votes, Labels, Weighted;
    labels, votes := [], map[];
    assert ds[..0] == [] && ws[..0] == [];
    NoLabels(ds[..0]);
    for i := 0 to |ds|
      invariant labels == Labels(ds[..i])
      invariant votes.Keys == set l | l in labels
      invariant forall l <- labels :: votes[l] == Votes(ds[..i], ws[..i], l)
    {
      var (d, w) := (ds[i], ws[i]);
      ghost var before := votes;
      forall l: string {
        TallyStep(ds, ws, i, l);
      }
      assert d.verdict !in labels ==> Votes(ds[..i], ws[..i], d.verdict) == 0.0 by {
        if d.verdict !in labels { NoVotes(ds[..i], ws[..i], d.verdict); }
      }
      votes := votes[d.verdict := (if d.verdict in votes then votes[d.verdict] else 0.0) + Weighted(d, w)];
      if d.verdict !in labels {
        labels := labels + [d.verdict];
      }
    }
    assert ds[..|ds|] == ds && ws[..|ws|] == ws;
  }

  lemma NoLabels(ds: seq<Vote>)
    requires ds == []
    ensures Labels(ds) == []
  {
  }

  lemma SomeLabel(ds: seq<Vote>)
    requires ds != []
    ensures Labels(ds) != []
  {
  }

  lemma LeaderWins(ds: seq<Vote>, ws: seq<real>, k: nat)
    requires |ds| == |ws| && k < |Labels(ds)| && Leads(ds, ws, k, |Labels(ds)|)
    ensures Wins(ds, ws, Labels(ds)[k])
  {
    hide Leads, Labels;
  }

  lemma {:induction false} TallyStep(ds: seq<Vote>, ws: seq<real>, i: nat, verdict: string)
    requires |ds| == |ws| && i < |ds|
    ensures Votes(ds[..i+1], ws[..i+1], verdict)
            == Votes(ds[..i], ws[..i], verdict) + (if ds[i].verdict == verdict then Weighted(ds[i], ws[i]) else 0.0)
    ensures Labels(ds[..i+1]) ==
              var before := Labels(ds[..i]); if ds[i].verdict in before then before else before + [ds[i].verdict]
  {
    hide Weighted;
    assert ds[..i+1][..i] == ds[..i] && ws[..i+1][..i] == ws[..i];
  }

  lemma {:induction false} NoVotes(ds: seq<Vote>, ws: seq<real>, verdict: string)
    requires |ds| == |ws| && verdict !in Labels(ds)
    ensures Votes(ds, ws, verdict) == 0.0
  {
    if ds != [] { NoVotes(ds[..|ds|-1], ws[..|ds|-1], verdict); }
  }

  predicate NoRepeats(labels: seq<string>) {
    forall i, j :: 0 <= i < j < |labels| ==> labels[i] != labels[j]
  }

  /** The table has a row for each verdict that is voted for, and only one. */
  lemma {:induction false} LabelsAreThoseVotedFor(ds: seq<Vote>, verdict: string)
    ensures verdict in Labels(ds) <==> exists i :: 0 <= i < |ds| && ds[i].verdict == verdict
    ensures NoRepeats(Labels(ds))
  {
    if ds != [] {
      var rest := ds[..|ds|-1];
      LabelsAreThoseVotedFor(rest, verdict);
      assert forall i :: 0 <= i < |rest| ==> ds[i] == rest[i];
      assert (exists i :: 0 <= i < |rest| && rest[i].verdict == verdict) ==>
          exists i :: 0 <= i < |ds| && ds[i].verdict == verdict;
    }
  }

  /** Each decision adds its confidence, times its weight, to its own verdict; without
      weights every decision weighs 1. */
  lemma VoteByVote(ds: seq<Vote>, ws: seq<real>, d: Vote, w: real, verdict: string)
    requires |ds| == |ws|
    ensures Votes(ds + [d], ws + [w], verdict) ==
              Votes(ds, ws, verdict) + (if d.verdict == verdict then d.confidence * w else 0.0)
    ensures |WeightsFor(ds, None)| == |ds| && forall i :: 0 <= i < |ds| ==> WeightsFor(ds, None)[i] == 1.0
    ensures Votes([], [], verdict) == 0.0 && WeightsFor(ds, Some(ws)) == ws
  {
    assert (ds + [d])[..|ds|] == ds && (ws + [w])[..|ws|] == ws;
  }

  /** A sole decision is fused to itself. */
  lemma SoleDecision(d: Vote, w: real)
    requires w > 0.0 && 0.0 <= d.confidence <= 1.0
    ensures Clamp(Share(Votes([d], [w], d.verdict), Sum([w]))) == d.confidence
  {
    VoteByVote([], [], d, w, d.verdict);
    assert [] + [d] == [d] && [] + [w] == [w];
    SumAppend([], w);
    assert Sum([w]) == w;
    var share := d.confidence * w / w;
    assert share * w == d.confidence * w;
    MulCancel(share, d.confidence, w);
    MulCancel(d.confidence, share, w);
  }

  // ---- Conservation and bounds ----------------------------------------------

  /** The votes of the first n of some labels. */
  function VotesOf(ds: seq<Vote>, ws: seq<real>, labels: seq<string>): real
    requires |ds| == |ws|
  {
    if labels == [] then 0.0 else VotesOf(ds, ws, labels[..|labels|-1]) + Votes(ds, ws, labels[|labels|-1])
  }

  lemma {:induction false} OneMoreVote(ds: seq<Vote>, ws: seq<real>, labels: seq<string>)
    requires |ds| == |ws| && ds != []
    requires NoRepeats(labels)
    ensures VotesOf(ds, ws, labels)
            == VotesOf(ds[..|ds|-1], ws[..|ds|-1], labels)
               + (if ds[|ds|-1].verdict in labels then Weighted(ds[|ds|-1], ws[|ds|-1]) else 0.0)
  {
    hide Weighted;
    if labels != [] {
      var (rest, last) := (labels[..|labels|-1], labels[|labels|-1]);
      OneMoreVote(ds, ws, rest);
      assert labels == rest + [last];
      assert last !in rest;
    }
  }

  lemma {:induction false} VotesOfAppend(ds: seq<Vote>, ws: seq<real>, labels: seq<string>, verdict: string)
    requires |ds| == |ws|
    ensures VotesOf(ds, ws, labels + [verdict]) == VotesOf(ds, ws, labels) + Votes(ds, ws, verdict)
  {
    hide Votes;
    assert (labels + [verdict])[..|labels|] == labels;
  }

  /** No vote is lost or counted for two labels. */
  lemma {:induction false} VotesAreConserved(ds: seq<Vote>, ws: seq<real>)
    requires |ds| == |ws|
    ensures VotesOf(ds, ws, Labels(ds)) == AllVotes(ds, ws)
  {
    if ds != [] {
      hide Votes, Weighted, VotesOf, NoRepeats;
      var (before, us, last) := (ds[..|ds|-1], ws[..|ds|-1], ds[|ds|-1].verdict);
      VotesAreConserved(before, us);
      LabelsAreThoseVotedFor(ds, last);
      OneMoreVote(ds, ws, Labels(ds));
      if last !in Labels(before) {
        VotesOfAppend(before, us, Labels(before), last);
        NoVotes(before, us, last);
      }
    }
  }

  /** Confidences are probabilities and weights are not negative. */
  predicate Fair(ds: seq<Vote>, ws: seq<real>) {
    && |ds| == |ws|
    && (forall i :: 0 <= i < |ds| ==> 0.0 <= ds[i].confidence <= 1.0)
    && (forall i :: 0 <= i < |ws| ==> ws[i] >= 0.0)
  }

  lemma WeightedBounds(v: Vote, w: real)
    requires 0.0 <= v.confidence <= 1.0 && w >= 0.0
    ensures 0.0 <= Weighted(v, w) <= w
  {
    ProductNonNegative(v.confidence, w);
    MulMonotone(v.confidence, 1.0, w);
  }

  lemma {:induction false} VotesWithinWeight(ds: seq<Vote>, ws: seq<real>, verdict: string)
    requires Fair(ds, ws)
    ensures 0.0 <= Votes(ds, ws, verdict) <= AllVotes(ds, ws) <= Sum(ws)
  {
    if ds != [] {
      hide Weighted;
      VotesWithinWeight(ds[..|ds|-1], ws[..|ds|-1], verdict);
      WeightedBounds(ds[|ds|-1], ws[|ds|-1]);
    }
  }

  /** The final clamp never changes the confidence of fair votes: a share of
      them is already a probability. */
  lemma ClampIsIdle(ds: seq<Vote>, ws: seq<real>, verdict: string)
    requires |ds| == |ws| && Fair(ds, ws)
    ensures var share := Share(Votes(ds, ws, verdict), Sum(ws));
            0.0 <= share <= 1.0 && Clamp(share) == share
  {
    hide Fair, Votes, Sum;
    VotesWithinWeight(ds, ws, verdict);
    ShareBounds(Votes(ds, ws, verdict), Sum(ws));
  }

  lemma ShareBounds(votes: real, total: real)
    requires 0.0 <= votes <= total
    ensures 0.0 <= Share(votes, total) <= 1.0
  {
    if total > 0.0 {
      var q := votes / total;
      assert q * total == votes;
      MulCancel(q, 1.0, total);
      MulCancel(0.0, q, total);
    }
  }

  lemma {:induction false} TwoLabelsShare(ds: seq<Vote>, ws: seq<real>, a: string, b: string)
    requires Fair(ds, ws) && a != b
    ensures Votes(ds, ws, a) + Votes(ds, ws, b) <= AllVotes(ds, ws)
  {
    if ds != [] {
      hide Weighted;
      TwoLabelsShare(ds[..|ds|-1], ws[..|ds|-1], a, b);
      WeightedBounds(ds[|ds|-1], ws[|ds|-1]);
    }
  }

  /** A verdict with more than half of the votes wins, and nothing else does. */
  lemma MajorityWins(ds: seq<Vote>, ws: seq<real>, verdict: string, winner: string)
    requires |ds| == |ws| && Fair(ds, ws) && 2.0 * Votes(ds, ws, verdict) > AllVotes(ds, ws)
    requires Wins(ds, ws, winner)
    ensures winner == verdict
  {
    hide Votes, AllVotes, Fair, Labels;
    var k :| 0 <= k < |Labels(ds)| && Labels(ds)[k] == winner && Leads(ds, ws, k, |Labels(ds)|);
    if winner != verdict {
      TwoLabelsShare(ds, ws, verdict, winner);
      VotesWithinWeight(ds, ws, verdict);
      assert Votes(ds, ws, winner) < Votes(ds, ws, verdict);
      NoVotesUnlessListed(ds, ws, verdict);
    }
  }

  lemma NoVotesUnlessListed(ds: seq<Vote>, ws: seq<real>, verdict: string)
    requires |ds| == |ws|
    ensures verdict !in Labels(ds) ==> Votes(ds, ws, verdict) == 0.0
  {
    if verdict !in Labels(ds) { NoVotes(ds, ws, verdict); }
  }
}
