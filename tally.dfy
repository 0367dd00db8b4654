/**
 * The ballot counting of backend/run_server.py: the sheriff election
 * (`run_sheriff_election`, one vote each) and the elimination vote
 * (`run_vote`, where the sheriff's ballot weighs 2). Both elect the target
 * with the strictly highest weight and elect nobody on an empty count or a
 * tie at the top.
 */
module Tally {
  import opened Wrappers
  import opened Seqs
  import opened Dicts

  /** Ballots in the order their voters first voted: voter id to target, `None` for an abstention. */
  type Ballots = Dict<Option<string>>

  /** The weight of a ballot: 2 for the voter whose ballot is doubled (the sheriff), 1 otherwise. */
  function VoterWeight(voter: string, doubled: Option<string>): nat {
    if Some(voter) == doubled then 2 else 1
  }

  /** What the ballot of `voter` for `target` adds to the total of `t`: nothing for an abstention or an empty target. */
  function Share(voter: string, target: Option<string>, doubled: Option<string>, t: string): nat {
    if Truthy(target) && target.value == t then VoterWeight(voter, doubled) else 0
  }

  /** Total weight of the first `n` ballots for `t`. */
  function WeightUpTo(bs: Ballots, n: nat, doubled: Option<string>, t: string): nat
    requires n <= |bs|
  {
    if n == 0 then 0 else WeightUpTo(bs, n - 1, doubled, t) + Share(bs[n - 1].0, bs[n - 1].1, doubled, t)
  }

  /** Total weight of the ballots for `t`. */
  function Weight(bs: Ballots, doubled: Option<string>, t: string): nat {
    WeightUpTo(bs, |bs|, doubled, t)
  }

  datatype TallyResult = NoVotes | Tie | Elected(target: string)

  /** `t` weighs more than every other target (and so more than nothing). */
  ghost predicate UniqueTop(bs: Ballots, doubled: Option<string>, t: string) {
    Weight(bs, doubled, t) > 0 && forall u :: u != t ==> Weight(bs, doubled, u) < Weight(bs, doubled, t)
  }

  /** `t` carries the highest weight. */
  ghost predicate IsTop(bs: Ballots, doubled: Option<string>, t: string) {
    forall u :: Weight(bs, doubled, u) <= Weight(bs, doubled, t)
  }

  /** The per-target totals `counts` of `run_vote` (a `Counter` for the sheriff election), in first-vote order. */
  method CountTargets(bs: Ballots, doubled: Option<string>) returns (counts: Dict<nat>)
    ensures DistinctKeys(counts)
    ensures forall t :: GetOr(counts, t, 0) == Weight(bs, doubled, t)
    ensures forall k :: 0 <= k < |counts| ==> counts[k].1 > 0 && Get(counts, counts[k].0) == Some(counts[k].1)
  {
    counts := [];
    var i := 0;
    while i < |bs|
      invariant 0 <= i <= |bs|
      invariant DistinctKeys(counts)
      invariant forall t :: GetOr(counts, t, 0) == WeightUpTo(bs, i, doubled, t)
      invariant forall t :: t in Keys(counts) ==> GetOr(counts, t, 0) > 0
    {
      var (voter, target) := bs[i];
      CountStep(bs, i, doubled, counts);
      counts := AddBallot(counts, voter, target, doubled);
      i := i + 1;
    }
    PositionsAgree(counts);
  }

  /** One more ballot counted: the totals stay one per target and positive, and now cover the first `i + 1` ballots. */
  lemma CountStep(bs: Ballots, i: int, doubled: Option<string>, counts: Dict<nat>)
    requires 0 <= i < |bs|
    requires DistinctKeys(counts)
    requires forall t :: GetOr(counts, t, 0) == WeightUpTo(bs, i, doubled, t)
    requires forall t :: t in Keys(counts) ==> GetOr(counts, t, 0) > 0
    ensures var c := AddBallot(counts, bs[i].0, bs[i].1, doubled);
      DistinctKeys(c) &&
      (forall t :: GetOr(c, t, 0) == WeightUpTo(bs, i + 1, doubled, t)) &&
      (forall t :: t in Keys(c) ==> GetOr(c, t, 0) > 0)
  {
    AddBallotDistinct(counts, bs[i].0, bs[i].1, doubled);
  }

  /**
   * One ballot added to the totals, skipped for an abstention: the ballot's share goes to its target and every other total
   * stays.
   */
  function AddBallot(counts: Dict<nat>, voter: string, target: Option<string>, doubled: Option<string>): (r: Dict<nat>)
    ensures forall t :: GetOr(r, t, 0) == GetOr(counts, t, 0) + Share(voter, target, doubled, t)
    ensures (forall t :: t in Keys(counts) ==> GetOr(counts, t, 0) > 0) ==> forall t :: t in Keys(r) ==> GetOr(r, t, 0) > 0
  {
    if Truthy(target) then
      var r := Put(counts, target.value, GetOr(counts, target.value, 0) + VoterWeight(voter, doubled));
      assert forall t :: t in Keys(r) ==> t in Keys(counts) || t == target.value;
      r
    else counts
  }

  /** Adding a ballot keeps one total per target. */
  lemma AddBallotDistinct(counts: Dict<nat>, voter: string, target: Option<string>, doubled: Option<string>)
    requires DistinctKeys(counts)
    ensures DistinctKeys(AddBallot(counts, voter, target, doubled))
  {
    if Truthy(target) {
      PutDistinct(counts, target.value, GetOr(counts, target.value, 0) + VoterWeight(voter, doubled));
    }
  }

  /** In a table with distinct keys and positive values, each position holds its key's value. */
  lemma PositionsAgree(counts: Dict<nat>)
    requires DistinctKeys(counts)
    requires forall t :: t in Keys(counts) ==> GetOr(counts, t, 0) > 0
    ensures forall k :: 0 <= k < |counts| ==> counts[k].1 > 0 && Get(counts, counts[k].0) == Some(counts[k].1)
  {
    forall k | 0 <= k < |counts| ensures counts[k].1 > 0 && Get(counts, counts[k].0) == Some(counts[k].1) {
      GetAt(counts, k);
      assert counts[k].0 == Keys(counts)[k];
    }
  }

  /** Two different positions of the table hold the top total. */
  ghost predicate SharedTop(counts: Dict<nat>, top: nat) {
    exists k1, k2 :: 0 <= k1 < k2 < |counts| && counts[k1].1 == top && counts[k2].1 == top
  }

  /**
   * The head of the totals sorted by weight, highest first, and whether the
   * second entry has the same weight as the first.
   */
  method Top(counts: Dict<nat>) returns (best: string, bestW: nat, tie: bool)
    requires forall k :: 0 <= k < |counts| ==> counts[k].1 > 0
    ensures |counts| == 0 ==> bestW == 0 && !tie
    ensures |counts| > 0 ==> exists k :: 0 <= k < |counts| && counts[k] == (best, bestW)
    ensures forall k :: 0 <= k < |counts| ==> counts[k].1 <= bestW
    ensures tie <==> SharedTop(counts, bestW)
  {
    best, bestW, tie := "", 0, false;
    var j := 0;
    while j < |counts|
      invariant 0 <= j <= |counts|
      invariant forall k :: 0 <= k < j ==> counts[k].1 <= bestW
      invariant j > 0 ==> exists k :: 0 <= k < j && counts[k] == (best, bestW)
      invariant j == 0 ==> bestW == 0 && !tie
      invariant tie <==> SharedTop(counts[..j], bestW)
    {
      var (t, w) := counts[j];
      assert counts[..j + 1][..j] == counts[..j];
      if w > bestW {
        best, bestW, tie := t, w, false;
      } else if w == bestW {
        var kb :| 0 <= kb < j && counts[kb] == (best, bestW);
        assert counts[..j + 1][kb] == counts[kb] && counts[..j + 1][j] == counts[j];
        tie := true;
      } else {
        assert SharedTop(counts[..j + 1], bestW) ==> SharedTop(counts[..j], bestW) by {
          if SharedTop(counts[..j + 1], bestW) {
            var k1, k2 :| 0 <= k1 < k2 < j + 1 && counts[..j + 1][k1].1 == bestW && counts[..j + 1][k2].1 == bestW;
            assert counts[..j][k1] == counts[k1] && counts[..j][k2] == counts[k2];
          }
        }
      }
      j := j + 1;
    }
    assert counts[..j] == counts;
  }

  /**
   * The outcome a count of `bs` must reach, stated by weights alone: nothing
   * weighs anything, one target weighs more than all others, or neither.
   */
  ghost function TallyOf(bs: Ballots, doubled: Option<string>): (r: TallyResult)
    ensures r == NoVotes <==> forall t :: Weight(bs, doubled, t) == 0
    ensures r.Elected? ==> UniqueTop(bs, doubled, r.target)
    ensures r.Elected? <==> exists t :: UniqueTop(bs, doubled, t)
  {
    if forall t :: Weight(bs, doubled, t) == 0 then NoVotes
    else if exists t :: UniqueTop(bs, doubled, t) then Elected(var t :| UniqueTop(bs, doubled, t); t)
    else Tie
  }

  /** At most one target weighs more than all others. */
  lemma UniqueTopUnique(bs: Ballots, doubled: Option<string>, t1: string, t2: string)
    requires UniqueTop(bs, doubled, t1) && UniqueTop(bs, doubled, t2)
    ensures t1 == t2
  {
  }

  /**
   * The outcome of a count: nothing counted, two targets sharing the top
   * weight, or the one target above all others.
   */
  method CountBallots(bs: Ballots, doubled: Option<string>) returns (r: TallyResult)
    ensures r == NoVotes <==> forall t :: Weight(bs, doubled, t) == 0
    ensures r.Elected? ==> UniqueTop(bs, doubled, r.target)
    ensures r == Tie ==> exists t1, t2 :: t1 != t2 && Weight(bs, doubled, t1) == Weight(bs, doubled, t2) > 0 && IsTop(bs, doubled, t1)
    ensures (exists t :: UniqueTop(bs, doubled, t)) ==> r.Elected?
    ensures r == TallyOf(bs, doubled)
  {
    var counts := CountTargets(bs, doubled);
    var best, bestW, tie := Top(counts);
    if |counts| == 0 {
      NoCounts(bs, doubled, counts);
      r := NoVotes;
    } else if tie {
      TiedCounts(bs, doubled, counts, bestW);
      r := Tie;
    } else {
      var kb :| 0 <= kb < |counts| && counts[kb] == (best, bestW);
      SoleTop(bs, doubled, counts, kb);
      r := Elected(best);
      UniqueTopUnique(bs, doubled, best, TallyOf(bs, doubled).target);
    }
  }

  /** An empty table of totals: no target carries any weight. */
  lemma NoCounts(bs: Ballots, doubled: Option<string>, counts: Dict<nat>)
    requires |counts| == 0
    requires forall u :: GetOr(counts, u, 0) == Weight(bs, doubled, u)
    ensures forall t :: Weight(bs, doubled, t) == 0
  {
    forall t ensures Weight(bs, doubled, t) == 0 {
      assert GetOr(counts, t, 0) == Weight(bs, doubled, t);
    }
  }

  /** Two positions sharing the top total: two targets tie at the top weight, and no target is above all others. */
  lemma TiedCounts(bs: Ballots, doubled: Option<string>, counts: Dict<nat>, bestW: nat)
    requires DistinctKeys(counts)
    requires forall u :: GetOr(counts, u, 0) == Weight(bs, doubled, u)
    requires forall k :: 0 <= k < |counts| ==> counts[k].1 > 0 && Get(counts, counts[k].0) == Some(counts[k].1)
    requires forall k :: 0 <= k < |counts| ==> counts[k].1 <= bestW
    requires SharedTop(counts, bestW)
    ensures exists t1, t2 :: t1 != t2 && Weight(bs, doubled, t1) == Weight(bs, doubled, t2) > 0 && IsTop(bs, doubled, t1)
    ensures forall t :: !UniqueTop(bs, doubled, t)
    ensures !forall t :: Weight(bs, doubled, t) == 0
  {
    var k1, k2 :| 0 <= k1 < k2 < |counts| && counts[k1].1 == bestW && counts[k2].1 == bestW;
    var t1, t2 := counts[k1].0, counts[k2].0;
    assert GetOr(counts, t1, 0) == bestW && GetOr(counts, t2, 0) == bestW;
    TopOfCounts(bs, doubled, counts, t1, bestW);
    NoUniqueTopOnTie(bs, doubled, t1, t2);
  }

  /** When no two positions share the top total, the target at the top position weighs more than every other. */
  lemma SoleTop(bs: Ballots, doubled: Option<string>, counts: Dict<nat>, kb: int)
    requires 0 <= kb < |counts|
    requires forall u :: GetOr(counts, u, 0) == Weight(bs, doubled, u)
    requires forall k :: 0 <= k < |counts| ==> counts[k].1 > 0 && Get(counts, counts[k].0) == Some(counts[k].1)
    requires forall k :: 0 <= k < |counts| ==> counts[k].1 <= counts[kb].1
    requires !SharedTop(counts, counts[kb].1)
    ensures UniqueTop(bs, doubled, counts[kb].0)
  {
    var best := counts[kb].0;
    var bestW := counts[kb].1;
    assert Weight(bs, doubled, best) == bestW;
    forall t | t != best ensures Weight(bs, doubled, t) < bestW {
      if t in Keys(counts) {
        var k := FirstIndex(Keys(counts), t);
        assert Get(counts, counts[k].0) == Some(counts[k].1);
        assert k != kb;
        assert k < kb ==> !(counts[kb].1 == bestW && counts[k].1 == bestW);
        assert kb < k ==> !(counts[kb].1 == bestW && counts[k].1 == bestW);
      }
    }
  }

  /** A per-target count table bounded by `w` bounds every weight by `w`. */
  lemma TopOfCounts(bs: Ballots, doubled: Option<string>, counts: Dict<nat>, t: string, w: nat)
    requires forall u :: GetOr(counts, u, 0) == Weight(bs, doubled, u)
    requires forall k :: 0 <= k < |counts| ==> counts[k].1 <= w
    requires forall k :: 0 <= k < |counts| ==> Get(counts, counts[k].0) == Some(counts[k].1)
    requires GetOr(counts, t, 0) == w
    ensures IsTop(bs, doubled, t)
  {
    forall u ensures Weight(bs, doubled, u) <= w {
      if u in Keys(counts) {
        var k := FirstIndex(Keys(counts), u);
        assert Get(counts, counts[k].0) == Some(counts[k].1);
      }
    }
  }

  /** Two different targets sharing the top weight leave no target above all others. */
  lemma NoUniqueTopOnTie(bs: Ballots, doubled: Option<string>, t1: string, t2: string)
    requires t1 != t2 && Weight(bs, doubled, t1) == Weight(bs, doubled, t2) && IsTop(bs, doubled, t1)
    ensures forall t :: !UniqueTop(bs, doubled, t)
  {
    forall t ensures !UniqueTop(bs, doubled, t) {
      var other := if t == t1 then t2 else t1;
      assert other != t && Weight(bs, doubled, t) <= Weight(bs, doubled, other);
    }
  }
}
