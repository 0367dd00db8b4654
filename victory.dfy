/** The victory predicate of backend/game/victory.py over the engine's player records. */
module Victory {
  import opened Wrappers
  import opened Protocol

  /** A player record of backend/game/state.py. */
  datatype PlayerState = PlayerState(playerId: string, role: Role, alive: bool, revealed: bool)

  /** Number of living werewolves. */
  function LivingWolves(ps: seq<PlayerState>): nat {
    if ps == [] then 0
    else (if ps[0].alive && ps[0].role == Werewolf then 1 else 0) + LivingWolves(ps[1..])
  }

  /** Number of living players of any other role. */
  function LivingOthers(ps: seq<PlayerState>): nat {
    if ps == [] then 0
    else (if ps[0].alive && ps[0].role != Werewolf then 1 else 0) + LivingOthers(ps[1..])
  }

  /** The living players, in order. */
  function Living(ps: seq<PlayerState>): (r: seq<PlayerState>)
    ensures forall p :: p in r <==> p in ps && p.alive
  {
    if ps == [] then []
    else (if ps[0].alive then [ps[0]] else []) + Living(ps[1..])
  }

  /** `check_victory`: villagers win once no wolf lives; wolves win once they are at least as many as the rest. */
  function CheckVictory(ps: seq<PlayerState>): (r: Option<Outcome>)
    ensures r == Some(VillagersWin) <==> LivingWolves(ps) == 0
    ensures r == Some(WerewolvesWin) <==> 0 < LivingWolves(ps) && LivingWolves(ps) >= LivingOthers(ps)
    ensures r == None <==> 0 < LivingWolves(ps) < LivingOthers(ps)
    ensures r != Some(Draw)
  {
    var wolves := LivingWolves(ps);
    var others := LivingOthers(ps);
    if wolves == 0 then Some(VillagersWin)
    else if wolves >= others then Some(WerewolvesWin)
    else None
  }

  lemma {:induction false} LivingCounts(ps: seq<PlayerState>)
    ensures LivingWolves(Living(ps)) == LivingWolves(ps)
    ensures LivingOthers(Living(ps)) == LivingOthers(ps)
  {
    if ps != [] {
      LivingCounts(ps[1..]);
      var head := if ps[0].alive then [ps[0]] else [];
      assert Living(ps) == head + Living(ps[1..]);
      CountsSplit(head, Living(ps[1..]));
    }
  }

  lemma {:induction false} CountsSplit(a: seq<PlayerState>, b: seq<PlayerState>)
    ensures LivingWolves(a + b) == LivingWolves(a) + LivingWolves(b)
    ensures LivingOthers(a + b) == LivingOthers(a) + LivingOthers(b)
  {
    if a != [] {
      assert (a + b)[1..] == a[1..] + b;
      CountsSplit(a[1..], b);
    } else {
      assert a + b == b;
    }
  }

  /** Dead players never influence the result: only the living ones are looked at. */
  lemma DeadPlayersIgnored(a: seq<PlayerState>, b: seq<PlayerState>)
    requires Living(a) == Living(b)
    ensures CheckVictory(a) == CheckVictory(b)
  {
    LivingCounts(a);
    LivingCounts(b);
  }

  /** With nobody alive, the villagers are declared the winners. */
  lemma {:induction false} NobodyAliveIsVillagersWin(ps: seq<PlayerState>)
    requires forall i :: 0 <= i < |ps| ==> !ps[i].alive
    ensures CheckVictory(ps) == Some(VillagersWin)
  {
    if ps != [] {
      NobodyAliveIsVillagersWin(ps[1..]);
    }
  }

  /** Killing the living player at index `i` lowers exactly one of the two counts by one. */
  lemma {:induction false} KillCounts(ps: seq<PlayerState>, i: nat)
    requires i < |ps| && ps[i].alive
    ensures var qs := ps[i := ps[i].(alive := false)];
      if ps[i].role == Werewolf then
        LivingWolves(qs) == LivingWolves(ps) - 1 && LivingOthers(qs) == LivingOthers(ps)
      else
        LivingWolves(qs) == LivingWolves(ps) && LivingOthers(qs) == LivingOthers(ps) - 1
  {
    var qs := ps[i := ps[i].(alive := false)];
    if i > 0 {
      assert qs[1..] == ps[1..][i - 1 := ps[i].(alive := false)];
      KillCounts(ps[1..], i - 1);
    } else {
      assert qs[1..] == ps[1..];
    }
  }

  /** Once the wolves have won, killing one more non-wolf cannot undo it. */
  lemma WolfWinSurvivesVillagerDeath(ps: seq<PlayerState>, i: nat)
    requires i < |ps| && ps[i].alive && ps[i].role != Werewolf
    requires CheckVictory(ps) == Some(WerewolvesWin)
    ensures CheckVictory(ps[i := ps[i].(alive := false)]) == Some(WerewolvesWin)
  {
    KillCounts(ps, i);
  }

  /** Killing the last living wolf hands the game to the villagers. */
  lemma LastWolfDeathIsVillagersWin(ps: seq<PlayerState>, i: nat)
    requires i < |ps| && ps[i].alive && ps[i].role == Werewolf
    requires LivingWolves(ps) == 1
    ensures CheckVictory(ps[i := ps[i].(alive := false)]) == Some(VillagersWin)
  {
    KillCounts(ps, i);
  }
}
