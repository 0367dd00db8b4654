/** Scapegoat selection of backend/agents/wolf/wolf_strategy.py. */
module WolfStrategy {
  import opened Wrappers
  import opened Dicts

  /** Scores that are easy to push onto a vote: strictly between 0.3 and 1.2. */
  predicate InBand(score: real) {
    0.3 < score < 1.2
  }

  /** The entries whose score is in the band, in table order. */
  function Candidates(scores: Dict<real>): (c: Dict<real>)
    ensures forall e :: e in c <==> e in scores && InBand(e.1)
  {
    if scores == [] then []
    else (if InBand(scores[0].1) then [scores[0]] else []) + Candidates(scores[1..])
  }

  /** The head of the candidates sorted by ascending score: the sort is stable, so the first of equal lowest scores. */
  function Lowest(c: Dict<real>): (r: (string, real))
    requires c != []
    ensures r in c
  {
    if |c| == 1 then c[0]
    else
      var m := Lowest(c[1..]);
      if m.1 < c[0].1 then m else c[0]
  }

  /** `choose_scapegoat`, applied to the items of the agent's suspicion table in insertion order. */
  function ChooseScapegoat(scores: Dict<real>): (r: Option<string>)
    ensures r.None? <==> forall i :: 0 <= i < |scores| ==> !InBand(scores[i].1)
    ensures r.Some? ==> exists i :: 0 <= i < |scores| && IsScapegoatAt(scores, i) && scores[i].0 == r.value
  {
    var c := Candidates(scores);
    if c == [] then
      assert forall i :: 0 <= i < |scores| ==> scores[i] !in c;
      None
    else
      LowestIsScapegoat(scores);
      Some(Lowest(c).0)
  }

  /**
   * The entry at `i` is in the band, no entry in the band scores lower, and
   * every entry in the band before it scores strictly higher.
   */
  ghost predicate IsScapegoatAt(scores: Dict<real>, i: int)
    requires 0 <= i < |scores|
  {
    && InBand(scores[i].1)
    && (forall j :: 0 <= j < |scores| && InBand(scores[j].1) ==> scores[i].1 <= scores[j].1)
    && (forall j :: 0 <= j < i && InBand(scores[j].1) ==> scores[i].1 < scores[j].1)
  }

  /** A scapegoat of the tail stays one when the head is out of the band or scores higher. */
  lemma ShiftScapegoat(scores: Dict<real>, i: nat)
    requires 0 < |scores| && i < |scores| - 1
    requires IsScapegoatAt(scores[1..], i)
    requires !InBand(scores[0].1) || scores[i + 1].1 < scores[0].1
    ensures IsScapegoatAt(scores, i + 1)
  {
    var rest := scores[1..];
    forall j | 0 <= j < |scores| && InBand(scores[j].1) ensures scores[i + 1].1 <= scores[j].1 {
      if j > 0 { assert scores[j] == rest[j - 1]; }
    }
    forall j | 0 <= j < i + 1 && InBand(scores[j].1) ensures scores[i + 1].1 < scores[j].1 {
      if j > 0 { assert scores[j] == rest[j - 1]; }
    }
  }

  /** The head is the scapegoat when it is in the band and scores no higher than any tail candidate. */
  lemma HeadScapegoat(scores: Dict<real>)
    requires 0 < |scores| && InBand(scores[0].1)
    requires forall e :: e in Candidates(scores[1..]) ==> scores[0].1 <= e.1
    ensures IsScapegoatAt(scores, 0)
  {
    forall j | 0 < j < |scores| && InBand(scores[j].1) ensures scores[0].1 <= scores[j].1 {
      assert scores[j] in Candidates(scores[1..]);
    }
  }

  lemma {:induction false} LowestIsScapegoat(scores: Dict<real>)
    requires Candidates(scores) != []
    ensures exists i :: 0 <= i < |scores| && IsScapegoatAt(scores, i) && scores[i] == Lowest(Candidates(scores))
  {
    var rest := scores[1..];
    var c := Candidates(scores);
    if !InBand(scores[0].1) {
      assert c == Candidates(rest);
      LowestIsScapegoat(rest);
      var i :| 0 <= i < |rest| && IsScapegoatAt(rest, i) && rest[i] == Lowest(Candidates(rest));
      ShiftScapegoat(scores, i);
    } else if Candidates(rest) == [] {
      assert c == [scores[0]];
      HeadScapegoat(scores);
    } else {
      assert c == [scores[0]] + Candidates(rest);
      assert c[1..] == Candidates(rest);
      LowestIsScapegoat(rest);
      var i :| 0 <= i < |rest| && IsScapegoatAt(rest, i) && rest[i] == Lowest(Candidates(rest));
      if rest[i].1 < scores[0].1 {
        ShiftScapegoat(scores, i);
      } else {
        forall e | e in Candidates(rest) ensures scores[0].1 <= e.1 {
          var k :| 0 <= k < |rest| && rest[k] == e;
        }
        HeadScapegoat(scores);
      }
    }
  }
}
