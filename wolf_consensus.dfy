/** The werewolves' kill consensus of backend/agents/wolf/wolf_consensus.py. */
module WolfConsensus {
  import opened Wrappers
  import opened Seqs

  /** One wolf's proposal `{"wolf": id, "kill": target}`; a missing or empty kill is falsy. */
  datatype Proposal = Proposal(wolf: string, kill: Option<string>)

  /** The non-empty kill proposals, in wolf order. */
  function Votes(rs: seq<Proposal>): (v: seq<string>)
    ensures |v| <= |rs|
    ensures forall x :: x in v <==> exists i :: 0 <= i < |rs| && rs[i].kill == Some(x) && x != ""
  {
    if rs == [] then []
    else (if Truthy(rs[0].kill) then [rs[0].kill.value] else []) + Votes(rs[1..])
  }

  /** Falsy proposals are dropped and the others keep their relative order. */
  lemma {:induction false} VotesOfConcat(a: seq<Proposal>, b: seq<Proposal>)
    ensures Votes(a + b) == Votes(a) + Votes(b)
  {
    if a == [] {
      assert a + b == b;
    } else {
      assert (a + b)[1..] == a[1..] + b;
      VotesOfConcat(a[1..], b);
    }
  }

  /** `lead` is as frequent as every vote in `v[..i]` and strictly more frequent than every vote before its first occurrence. */
  ghost predicate Leads(v: seq<string>, i: nat, lead: string)
    requires i <= |v| && lead in v
  {
    (forall j :: 0 <= j < i ==> Count(v, v[j]) <= Count(v, lead)) &&
    (forall j :: 0 <= j < FirstIndex(v, lead) ==> Count(v, v[j]) < Count(v, lead))
  }

  /**
   * A scan of `v[i..]` that keeps the current leader `lead` and replaces it
   * only by a strictly more frequent vote, so that among equally frequent
   * votes the one seen first stays in front.
   */
  function Leader(v: seq<string>, i: nat, lead: string): (r: string)
    requires 0 < i <= |v| && lead in v[..i] && Leads(v, i, lead)
    ensures r in v && Leads(v, |v|, r)
    decreases |v| - i
  {
    if i == |v| then
      lead
    else if Count(v, v[i]) > Count(v, lead) then
      LeadsTaken(v, i, lead);
      Leader(v, i + 1, v[i])
    else
      LeadsKept(v, i, lead);
      Leader(v, i + 1, lead)
  }

  /** A strictly more frequent vote at position `i` leads the first `i + 1` votes. */
  lemma LeadsTaken(v: seq<string>, i: nat, lead: string)
    requires i < |v| && lead in v && Leads(v, i, lead) && Count(v, v[i]) > Count(v, lead)
    ensures v[i] in v[..i + 1] && Leads(v, i + 1, v[i])
  {
    assert v[..i + 1][i] == v[i];
    assert FirstIndex(v, v[i]) <= i;
  }

  /** A vote at position `i` no more frequent than the leader leaves it leading the first `i + 1` votes. */
  lemma LeadsKept(v: seq<string>, i: nat, lead: string)
    requires i < |v| && lead in v[..i] && Leads(v, i, lead) && Count(v, v[i]) <= Count(v, lead)
    ensures lead in v[..i + 1] && Leads(v, i + 1, lead)
  {
    assert v[..i + 1] == v[..i] + [v[i]];
  }

  /** The most common vote, ties going to the one first seen. */
  function MostCommon(v: seq<string>): (r: string)
    requires v != []
    ensures r in v
    ensures forall x :: x in v ==> Count(v, x) <= Count(v, r)
    ensures forall x :: x in v && Count(v, x) == Count(v, r) ==> FirstIndex(v, r) <= FirstIndex(v, x)
  {
    assert v[0] in v[..1];
    var r := Leader(v, 1, v[0]);
    forall x | x in v ensures Count(v, x) <= Count(v, r) {
      var k := FirstIndex(v, x);
    }
    r
  }

  /**
   * `reach_kill_consensus`: the most proposed non-empty kill target, the
   * earliest proposed one among equally popular targets, or None when no wolf
   * proposed a target.
   */
  function ReachKillConsensus(rs: seq<Proposal>): (r: Option<string>)
    ensures r.None? <==> forall i :: 0 <= i < |rs| ==> !Truthy(rs[i].kill)
    ensures r.Some? ==> r.value != "" && exists i :: 0 <= i < |rs| && rs[i].kill == r
    ensures r.Some? ==> forall x :: Count(Votes(rs), x) <= Count(Votes(rs), r.value)
    ensures r.Some? ==> forall x :: x in Votes(rs) && Count(Votes(rs), x) == Count(Votes(rs), r.value) ==>
      FirstIndex(Votes(rs), r.value) <= FirstIndex(Votes(rs), x)
  {
    var v := Votes(rs);
    if v == [] then
      assert forall i :: 0 <= i < |rs| && Truthy(rs[i].kill) ==> rs[i].kill.value in v;
      None
    else
      var m := MostCommon(v);
      assert forall x :: x !in v ==> Count(v, x) == 0;
      Some(m)
  }
}
