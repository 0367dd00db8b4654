/**
 * The seat list and role table of backend/run_server.py (`PLAYERS`, `ROLES`)
 * and the pure rules over them: the living ids, `mark_dead`, `check_win` and
 * the default night targets `choose_*_target`.
 */
module Roster {
  import opened Wrappers
  import opened Seqs
  import opened Protocol
  import opened Victory

  function Ids(roster: seq<Seat>): (ids: seq<string>)
    ensures |ids| == |roster|
    ensures forall i :: 0 <= i < |roster| ==> ids[i] == roster[i].id
  {
    seq(|roster|, i requires 0 <= i < |roster| => roster[i].id)
  }

  /** Some living seat carries the id. */
  ghost predicate SeatAlive(roster: seq<Seat>, id: string) {
    exists i :: 0 <= i < |roster| && roster[i].alive && roster[i].id == id
  }

  /** Seat i is the first living seat. */
  ghost predicate FirstLiving(roster: seq<Seat>, i: int) {
    0 <= i < |roster| && roster[i].alive && forall j :: 0 <= j < i ==> !roster[j].alive
  }

  /** Seat i is the last living seat. */
  ghost predicate LastLiving(roster: seq<Seat>, i: int) {
    0 <= i < |roster| && roster[i].alive && forall j :: i < j < |roster| ==> !roster[j].alive
  }

  /**
   * `living_player_ids`: the ids of the living seats, in seat order: the list
   * starts with the first living seat's id and ends with the last one's.
   */
  function LivingIds(roster: seq<Seat>): (ids: seq<string>)
    ensures |ids| <= |roster|
    ensures forall id :: id in ids <==> SeatAlive(roster, id)
    ensures forall i {:trigger FirstLiving(roster, i)} :: FirstLiving(roster, i) ==> ids != [] && ids[0] == roster[i].id
    ensures forall i {:trigger LastLiving(roster, i)} :: LastLiving(roster, i) ==> ids != [] && ids[|ids| - 1] == roster[i].id
  {
    if roster == [] then []
    else
      var rest := LivingIds(roster[1..]);
      assert forall i :: 1 <= i < |roster| ==> roster[i] == roster[1..][i - 1];
      var ids := (if roster[0].alive then [roster[0].id] else []) + rest;
      LivingEnds(roster, rest);
      ids
  }

  /** The ends of the living ids of a seat list, from those of its tail. */
  lemma LivingEnds(roster: seq<Seat>, rest: seq<string>)
    requires roster != []
    requires forall id :: id in rest <==> SeatAlive(roster[1..], id)
    requires forall i {:trigger FirstLiving(roster[1..], i)} :: FirstLiving(roster[1..], i) ==> rest != [] && rest[0] == roster[1..][i].id
    requires forall i {:trigger LastLiving(roster[1..], i)} :: LastLiving(roster[1..], i) ==> rest != [] && rest[|rest| - 1] == roster[1..][i].id
    ensures var ids := (if roster[0].alive then [roster[0].id] else []) + rest;
      forall i {:trigger FirstLiving(roster, i)} :: FirstLiving(roster, i) ==> ids != [] && ids[0] == roster[i].id
    ensures var ids := (if roster[0].alive then [roster[0].id] else []) + rest;
      forall i {:trigger LastLiving(roster, i)} :: LastLiving(roster, i) ==> ids != [] && ids[|ids| - 1] == roster[i].id
  {
    var ids := (if roster[0].alive then [roster[0].id] else []) + rest;
    forall i | FirstLiving(roster, i) ensures ids != [] && ids[0] == roster[i].id {
      if i > 0 {
        assert FirstLiving(roster[1..], i - 1);
      }
    }
    forall i | LastLiving(roster, i) ensures ids != [] && ids[|ids| - 1] == roster[i].id {
      if i > 0 {
        assert LastLiving(roster[1..], i - 1);
      } else if rest != [] {
        assert SeatAlive(roster[1..], rest[0]) by { assert rest[0] in rest; }
      }
    }
  }

  /** The role of a seat, none for an id the role table lacks. */
  function RoleOf(roles: map<string, Role>, pid: string): Option<Role> {
    if pid in roles then Some(roles[pid]) else None
  }

  /** The seat to mark dead: the first seat with the id. */
  ghost predicate FirstWithId(roster: seq<Seat>, id: string, i: int) {
    0 <= i < |roster| && roster[i].id == id && forall j :: 0 <= j < i ==> roster[j].id != id
  }

  /**
   * `mark_dead`: the first seat carrying the id becomes dead; every other seat,
   * and every seat when no seat carries the id, is left as it was.
   */
  function KillFirst(roster: seq<Seat>, id: string): (r: seq<Seat>)
    ensures |r| == |roster| && Ids(r) == Ids(roster)
    ensures forall i :: 0 <= i < |roster| ==>
      r[i] == (if FirstWithId(roster, id, i) then roster[i].(alive := false) else roster[i])
  {
    if id in Ids(roster) then
      var k := FirstIndex(Ids(roster), id);
      var r := roster[k := roster[k].(alive := false)];
      assert Ids(r) == Ids(roster);
      assert forall i :: 0 <= i < |roster| ==> (FirstWithId(roster, id, i) <==> i == k);
      r
    else
      assert forall i :: 0 <= i < |roster| ==> Ids(roster)[i] != id;
      roster
  }

  /** With distinct ids, the seat `mark_dead(id)` changes is the one carrying `id`. */
  lemma KillFirstAt(roster: seq<Seat>, id: string, i: int)
    requires NoDup(Ids(roster)) && 0 <= i < |roster|
    ensures KillFirst(roster, id)[i] == if roster[i].id == id then roster[i].(alive := false) else roster[i]
  {
    assert forall j :: 0 <= j < i ==> Ids(roster)[j] != Ids(roster)[i];
  }

  /** With distinct ids, `mark_dead(id)` removes exactly `id` from the living ids. */
  lemma KillFirstLiving(roster: seq<Seat>, id: string)
    requires NoDup(Ids(roster))
    ensures forall x :: x in LivingIds(KillFirst(roster, id)) <==> x in LivingIds(roster) && x != id
  {
    var r := KillFirst(roster, id);
    forall x | x in LivingIds(r)
      ensures x in LivingIds(roster) && x != id
    {
      assert SeatAlive(r, x);
      var i :| 0 <= i < |r| && r[i].alive && r[i].id == x;
      KillFirstAt(roster, id, i);
      assert SeatAlive(roster, x);
    }
    forall x | x in LivingIds(roster) && x != id
      ensures x in LivingIds(r)
    {
      assert SeatAlive(roster, x);
      var i :| 0 <= i < |roster| && roster[i].alive && roster[i].id == x;
      KillFirstAt(roster, id, i);
      assert SeatAlive(r, x);
    }
  }

  /** `mark_dead` applied to each id in turn. */
  function KillAll(roster: seq<Seat>, ids: seq<string>): (r: seq<Seat>)
    ensures |r| == |roster| && Ids(r) == Ids(roster)
  {
    if ids == [] then roster else KillFirst(KillAll(roster, ids[..|ids| - 1]), ids[|ids| - 1])
  }

  /** With distinct seat ids, killing a list of ids removes exactly those ids from the living ids. */
  lemma {:induction false} KillAllLiving(roster: seq<Seat>, ids: seq<string>)
    requires NoDup(Ids(roster))
    ensures forall x :: x in LivingIds(KillAll(roster, ids)) <==> x in LivingIds(roster) && x !in ids
  {
    if ids != [] {
      var init := ids[..|ids| - 1];
      KillAllLiving(roster, init);
      KillFirstLiving(KillAll(roster, init), ids[|ids| - 1]);
      assert ids == init + [ids[|ids| - 1]];
    }
  }

  /** The ids `ROLES` assigns the werewolf role. */
  function Wolves(roles: map<string, Role>): (w: set<string>)
    ensures forall pid :: pid in w <==> RoleOf(roles, pid) == Some(Werewolf)
  {
    set pid | pid in roles && roles[pid] == Werewolf
  }

  /** The set of living ids. */
  function LivingSet(roster: seq<Seat>): set<string> {
    if roster == [] then {}
    else (if roster[0].alive then {roster[0].id} else {}) + LivingSet(roster[1..])
  }

  /** The set holds exactly the living ids. */
  lemma {:induction false} LivingSetIds(roster: seq<Seat>)
    ensures forall id :: id in LivingSet(roster) <==> id in LivingIds(roster)
  {
    if roster != [] {
      LivingSetIds(roster[1..]);
    }
  }

  /** The id of the first seat is not among the later living ids when ids are distinct. */
  lemma HeadNotInRest(roster: seq<Seat>)
    requires roster != [] && NoDup(Ids(roster))
    ensures roster[0].id !in LivingIds(roster[1..])
  {
    assert forall i :: 0 <= i < |roster[1..]| ==> roster[1..][i].id == Ids(roster)[i + 1];
  }

  /**
   * `check_win` over sets of ids: villagers win once no living id is a wolf,
   * wolves win once the living wolves are at least as many as the other living ids.
   */
  function CheckWin(roster: seq<Seat>, roles: map<string, Role>): Option<Outcome> {
    var alive := LivingSet(roster);
    var wolves := Wolves(roles);
    if alive * wolves == {} then Some(VillagersWin)
    else if |alive * wolves| >= |alive - wolves| then Some(WerewolvesWin)
    else None
  }

  /**
   * The three answers of `check_win`: villagers exactly when no living id is
   * a wolf, wolves exactly when living wolves are at least as many as the
   * other living ids, no result otherwise; never a draw.
   */
  lemma CheckWinCases(roster: seq<Seat>, roles: map<string, Role>)
    ensures CheckWin(roster, roles) == Some(VillagersWin) <==> forall id :: id in LivingIds(roster) ==> RoleOf(roles, id) != Some(Werewolf)
    ensures CheckWin(roster, roles) == Some(WerewolvesWin) <==>
      LivingSet(roster) * Wolves(roles) != {} && |LivingSet(roster) * Wolves(roles)| >= |LivingSet(roster) - Wolves(roles)|
    ensures CheckWin(roster, roles) == None <==> 0 < |LivingSet(roster) * Wolves(roles)| < |LivingSet(roster) - Wolves(roles)|
    ensures CheckWin(roster, roles) != Some(Draw)
  {
    var alive := LivingSet(roster);
    var wolves := Wolves(roles);
    LivingSetIds(roster);
    if alive * wolves != {} {
      var w :| w in alive * wolves;
      assert w in LivingIds(roster) && RoleOf(roles, w) == Some(Werewolf);
    }
  }

  /** The engine's player records for the session's seats; a seat without a role counts as a villager. */
  function Join(roster: seq<Seat>, roles: map<string, Role>): (ps: seq<PlayerState>)
    ensures |ps| == |roster|
    ensures forall i :: 0 <= i < |roster| ==>
      ps[i] == PlayerState(roster[i].id, RoleOf(roles, roster[i].id).GetOr(Villager), roster[i].alive, false)
  {
    seq(|roster|, i requires 0 <= i < |roster| =>
      PlayerState(roster[i].id, RoleOf(roles, roster[i].id).GetOr(Villager), roster[i].alive, false))
  }

  /** Splitting a disjoint union splits the wolf and non-wolf counts. */
  lemma SplitCounts(h: set<string>, l: set<string>, w: set<string>)
    requires h !! l
    ensures |(h + l) * w| == |h * w| + |l * w|
    ensures |(h + l) - w| == |h - w| + |l - w|
  {
    assert (h + l) * w == h * w + l * w;
    assert (h + l) - w == (h - w) + (l - w);
  }

  /** The first seat's share of the living wolf and non-wolf counts. */
  lemma HeadCounts(roster: seq<Seat>, roles: map<string, Role>)
    requires roster != []
    ensures var head: set<string> := if roster[0].alive then {roster[0].id} else {};
      LivingWolves(Join(roster, roles)) == |head * Wolves(roles)| + LivingWolves(Join(roster[1..], roles)) &&
      LivingOthers(Join(roster, roles)) == |head - Wolves(roles)| + LivingOthers(Join(roster[1..], roles))
  {
    assert Join(roster, roles)[1..] == Join(roster[1..], roles);
    var s := roster[0];
    if s.alive {
      if s.id in Wolves(roles) {
        assert {s.id} * Wolves(roles) == {s.id};
        assert {s.id} - Wolves(roles) == {};
      } else {
        assert {s.id} * Wolves(roles) == {};
        assert {s.id} - Wolves(roles) == {s.id};
      }
    }
  }

  lemma TailDistinct(roster: seq<Seat>)
    requires roster != [] && NoDup(Ids(roster))
    ensures NoDup(Ids(roster[1..]))
  {
    assert Ids(roster[1..]) == Ids(roster)[1..];
  }

  /** The first seat's living id, if any, and the rest's living ids are disjoint and make up all living ids. */
  lemma LivingSetSplit(roster: seq<Seat>)
    requires roster != [] && NoDup(Ids(roster))
    ensures var head: set<string> := if roster[0].alive then {roster[0].id} else {};
      head !! LivingSet(roster[1..]) && LivingSet(roster) == head + LivingSet(roster[1..])
  {
    HeadNotInRest(roster);
    LivingSetIds(roster[1..]);
  }

  /** With distinct seat ids, the set-based counts of `check_win` equal the counts of `check_victory`. */
  lemma {:induction false} LivingSetCounts(roster: seq<Seat>, roles: map<string, Role>)
    requires NoDup(Ids(roster))
    ensures |LivingSet(roster) * Wolves(roles)| == LivingWolves(Join(roster, roles))
    ensures |LivingSet(roster) - Wolves(roles)| == LivingOthers(Join(roster, roles))
  {
    if roster != [] {
      TailDistinct(roster);
      LivingSetCounts(roster[1..], roles);
      var head: set<string> := if roster[0].alive then {roster[0].id} else {};
      LivingSetSplit(roster);
      SplitCounts(head, LivingSet(roster[1..]), Wolves(roles));
      HeadCounts(roster, roles);
    } else {
      assert LivingSet(roster) == {};
      assert Join(roster, roles) == [];
    }
  }

  /** `check_win` on the session's seats agrees with `check_victory` on the corresponding records. */
  lemma CheckWinIsCheckVictory(roster: seq<Seat>, roles: map<string, Role>)
    requires NoDup(Ids(roster))
    ensures CheckWin(roster, roles) == CheckVictory(Join(roster, roles))
  {
    LivingSetCounts(roster, roles);
  }

  /** The first living seat that passes the role test. */
  ghost predicate FirstLivingWhere(roster: seq<Seat>, roles: map<string, Role>, role: Role, want: bool, i: int) {
    0 <= i < |roster| && roster[i].alive && (RoleOf(roles, roster[i].id) == Some(role)) == want &&
    forall j :: 0 <= j < i ==> !(roster[j].alive && (RoleOf(roles, roster[j].id) == Some(role)) == want)
  }

  /** The living ids whose role is `role` (`want`) or is not `role` (`!want`), in seat order. */
  function LivingWhere(roster: seq<Seat>, roles: map<string, Role>, role: Role, want: bool): (ids: seq<string>)
    ensures ids == [] <==> forall i :: 0 <= i < |roster| ==> !(roster[i].alive && (RoleOf(roles, roster[i].id) == Some(role)) == want)
    ensures ids != [] ==> exists i :: FirstLivingWhere(roster, roles, role, want, i) && ids[0] == roster[i].id
  {
    if roster == [] then []
    else
      var rest := LivingWhere(roster[1..], roles, role, want);
      if roster[0].alive && (RoleOf(roles, roster[0].id) == Some(role)) == want then
        assert FirstLivingWhere(roster, roles, role, want, 0);
        [roster[0].id] + rest
      else
        assert forall i :: 1 <= i < |roster| ==> roster[i] == roster[1..][i - 1];
        assert rest != [] ==> exists i :: FirstLivingWhere(roster, roles, role, want, i) && rest[0] == roster[i].id by {
          if rest != [] {
            var k :| FirstLivingWhere(roster[1..], roles, role, want, k) && rest[0] == roster[1..][k].id;
            assert FirstLivingWhere(roster, roles, role, want, k + 1);
          }
        }
        rest
  }

  function Head(ids: seq<string>): Option<string> {
    if ids == [] then None else Some(ids[0])
  }

  /** `choose_wolf_target`: the first living seat that is not a werewolf. */
  function ChooseWolfTarget(roster: seq<Seat>, roles: map<string, Role>): (r: Option<string>)
    ensures r.None? <==> forall i :: 0 <= i < |roster| ==> !(roster[i].alive && RoleOf(roles, roster[i].id) != Some(Werewolf))
    ensures r.Some? ==> exists i :: FirstLivingWhere(roster, roles, Werewolf, false, i) && r == Some(roster[i].id)
  {
    Head(LivingWhere(roster, roles, Werewolf, false))
  }

  /** `choose_seer_target`: the first living seat that is not the seer. */
  function ChooseSeerTarget(roster: seq<Seat>, roles: map<string, Role>): (r: Option<string>)
    ensures r.None? <==> forall i :: 0 <= i < |roster| ==> !(roster[i].alive && RoleOf(roles, roster[i].id) != Some(Seer))
    ensures r.Some? ==> exists i :: FirstLivingWhere(roster, roles, Seer, false, i) && r == Some(roster[i].id)
  {
    Head(LivingWhere(roster, roles, Seer, false))
  }

  /** `choose_witch_poison_target`: the first living werewolf. */
  function ChooseWitchPoisonTarget(roster: seq<Seat>, roles: map<string, Role>): (r: Option<string>)
    ensures r.None? <==> forall i :: 0 <= i < |roster| ==> !(roster[i].alive && RoleOf(roles, roster[i].id) == Some(Werewolf))
    ensures r.Some? ==> exists i :: FirstLivingWhere(roster, roles, Werewolf, true, i) && r == Some(roster[i].id)
  {
    Head(LivingWhere(roster, roles, Werewolf, true))
  }

  /**
   * `choose_guard_target`: the last living seat, or the first one when the
   * last is the previous night's guard target and someone else lives.
   */
  function ChooseGuardTarget(roster: seq<Seat>, lastGuard: Option<string>): (r: Option<string>)
    ensures r.None? <==> LivingIds(roster) == []
    ensures r.Some? ==> r.value in LivingIds(roster)
    ensures r.Some? ==> r.value == LivingIds(roster)[|LivingIds(roster)| - 1] || r.value == LivingIds(roster)[0]
    ensures r.Some? && |LivingIds(roster)| == 1 ==> r.value == LivingIds(roster)[0]
    ensures var alive := LivingIds(roster);
      alive != [] && (Some(alive[|alive| - 1]) != lastGuard || |alive| == 1) ==> r == Some(alive[|alive| - 1])
    ensures var alive := LivingIds(roster);
      |alive| > 1 && Some(alive[|alive| - 1]) == lastGuard ==> r == Some(alive[0])
  {
    var alive := LivingIds(roster);
    if alive == [] then None
    else
      var target := alive[|alive| - 1];
      if Some(target) == lastGuard && |alive| > 1 then Some(alive[0]) else Some(target)
  }

  lemma {:induction false} LivingIdsDistinct(roster: seq<Seat>)
    requires NoDup(Ids(roster))
    ensures NoDup(LivingIds(roster))
  {
    if roster != [] {
      assert Ids(roster[1..]) == Ids(roster)[1..];
      LivingIdsDistinct(roster[1..]);
      HeadNotInRest(roster);
    }
  }

  /** With distinct ids and two or more living seats, the default guard never repeats the previous target. */
  lemma GuardDefaultAvoidsRepeat(roster: seq<Seat>, lastGuard: Option<string>)
    requires NoDup(Ids(roster)) && |LivingIds(roster)| > 1
    ensures ChooseGuardTarget(roster, lastGuard) != lastGuard
  {
    LivingIdsDistinct(roster);
  }
}
