/**
 * The night resolution of backend/run_server.py (`run_night`): which
 * submitted night actions are accepted, the default targets, the one-shot
 * potions, the guard's block and the list of deaths.
 */
module Night {
  import opened Wrappers
  import opened Seqs
  import opened Dicts
  import opened Protocol
  import opened Roster

  /** A stored night action `{"actionType", "target"}`; the action type is never empty. */
  datatype NightAction = NightAction(actionType: string, target: Option<string>)

  /** The five choices a night can make. */
  datatype Kind = WolfKill | SeerCheck | GuardProtect | WitchSave | WitchPoison

  /**
   * Whether the action stored for `pid` is accepted as the night's `kind`
   * choice: the submitter must hold the matching role, the action type must
   * match, and the target must pass that choice's check (a wolf target is a
   * living non-werewolf, a seer target a living seat other than the seer, a
   * guard target any living seat, a poison target a living seat other than the
   * witch; a save has no target).
   */
  predicate Accepts(kind: Kind, pid: string, a: NightAction, roster: seq<Seat>, roles: map<string, Role>) {
    var role := RoleOf(roles, pid);
    var living := a.target.Some? && a.target.value in LivingIds(roster);
    match kind
    case WolfKill => role == Some(Werewolf) && a.actionType == "WEREWOLF" && living && RoleOf(roles, a.target.value) != Some(Werewolf)
    case SeerCheck => role == Some(Seer) && a.actionType == "SEER" && living && a.target.value != pid
    case GuardProtect => role == Some(Guard) && a.actionType == "GUARD" && living
    case WitchSave => role == Some(Witch) && a.actionType == "WITCH_SAVE"
    case WitchPoison => role == Some(Witch) && a.actionType == "WITCH_POISON" && living && a.target.value != pid
  }

  /** The last accepted action of a kind: later accepted submissions overwrite earlier ones. */
  function LastAccepted(acts: Dict<NightAction>, kind: Kind, roster: seq<Seat>, roles: map<string, Role>): (r: Option<NightAction>)
    ensures r.None? <==> forall i :: 0 <= i < |acts| ==> !Accepts(kind, acts[i].0, acts[i].1, roster, roles)
    ensures r.Some? ==> exists i :: 0 <= i < |acts| && acts[i].1 == r.value && Accepts(kind, acts[i].0, r.value, roster, roles) &&
                                  (forall j :: i < j < |acts| ==> !Accepts(kind, acts[j].0, acts[j].1, roster, roles))
  {
    if acts == [] then None
    else
      var init := acts[..|acts| - 1];
      var (pid, a) := acts[|acts| - 1];
      if Accepts(kind, pid, a, roster, roles) then Some(a)
      else
        assert forall i :: 0 <= i < |init| ==> init[i] == acts[i];
        LastAccepted(init, kind, roster, roles)
  }

  function TargetOf(a: Option<NightAction>): Option<string> {
    if a.None? then None else a.value.target
  }

  /** The choices the submitted actions make, before defaults and potions. */
  datatype Choices = Choices(wolf: Option<string>, seer: Option<string>, guard: Option<string>, save: bool, poison: Option<string>)

  /** The choices `run_night`'s pass over `night_actions` leaves; each target it keeps passed its check. */
  function Submitted(acts: Dict<NightAction>, roster: seq<Seat>, roles: map<string, Role>): (c: Choices)
    ensures c.wolf.Some? ==> c.wolf.value in LivingIds(roster) && RoleOf(roles, c.wolf.value) != Some(Werewolf)
    ensures c.seer.Some? ==> c.seer.value in LivingIds(roster)
    ensures c.guard.Some? ==> c.guard.value in LivingIds(roster)
    ensures c.poison.Some? ==> c.poison.value in LivingIds(roster)
  {
    Choices(TargetOf(LastAccepted(acts, WolfKill, roster, roles)),
            TargetOf(LastAccepted(acts, SeerCheck, roster, roles)),
            TargetOf(LastAccepted(acts, GuardProtect, roster, roles)),
            LastAccepted(acts, WitchSave, roster, roles).Some?,
            TargetOf(LastAccepted(acts, WitchPoison, roster, roles)))
  }

  /** The seer never checks, and the witch never poisons, their own seat. */
  lemma NoSelfTarget(acts: Dict<NightAction>, roster: seq<Seat>, roles: map<string, Role>)
    ensures var c := Submitted(acts, roster, roles);
      c.seer.Some? ==> exists i :: 0 <= i < |acts| && Accepts(SeerCheck, acts[i].0, acts[i].1, roster, roles) &&
                                  acts[i].1.target == c.seer && acts[i].0 != c.seer.value
    ensures var c := Submitted(acts, roster, roles);
      c.poison.Some? ==> exists i :: 0 <= i < |acts| && Accepts(WitchPoison, acts[i].0, acts[i].1, roster, roles) &&
                                    acts[i].1.target == c.poison && acts[i].0 != c.poison.value
  {
    var seer := LastAccepted(acts, SeerCheck, roster, roles);
    var poison := LastAccepted(acts, WitchPoison, roster, roles);
  }

  /**
   * A choice is left unset (and later defaulted) exactly when no submission
   * of its kind was accepted; the save is chosen exactly when the witch asked
   * for it.
   */
  lemma UnsetWithoutSubmission(acts: Dict<NightAction>, roster: seq<Seat>, roles: map<string, Role>)
    ensures var c := Submitted(acts, roster, roles);
      c.wolf.None? <==> forall i :: 0 <= i < |acts| ==> !Accepts(WolfKill, acts[i].0, acts[i].1, roster, roles)
    ensures var c := Submitted(acts, roster, roles);
      c.seer.None? <==> forall i :: 0 <= i < |acts| ==> !Accepts(SeerCheck, acts[i].0, acts[i].1, roster, roles)
    ensures var c := Submitted(acts, roster, roles);
      c.guard.None? <==> forall i :: 0 <= i < |acts| ==> !Accepts(GuardProtect, acts[i].0, acts[i].1, roster, roles)
    ensures Submitted(acts, roster, roles).save <==>
      exists i :: 0 <= i < |acts| && RoleOf(roles, acts[i].0) == Some(Witch) && acts[i].1.actionType == "WITCH_SAVE"
  {
    var wolf := LastAccepted(acts, WolfKill, roster, roles);
    var seer := LastAccepted(acts, SeerCheck, roster, roles);
    var guard := LastAccepted(acts, GuardProtect, roster, roles);
    var save := LastAccepted(acts, WitchSave, roster, roles);
  }

  /** What the night resolves to. */
  datatype NightResult = NightResult(
    wolf: Option<string>, seer: Option<string>, guard: Option<string>,
    save: bool, poison: Option<string>, deaths: seq<string>,
    saveLeft: bool, poisonLeft: bool)

  /** One more stored action: each kind's choice becomes that action's when it accepts it, and stays otherwise. */
  lemma SubmittedStep(acts: Dict<NightAction>, i: int, roster: seq<Seat>, roles: map<string, Role>)
    requires 0 <= i < |acts|
    ensures var c, pid, a := Submitted(acts[..i], roster, roles), acts[i].0, acts[i].1;
      Submitted(acts[..i + 1], roster, roles) ==
        Choices(if Accepts(WolfKill, pid, a, roster, roles) then a.target else c.wolf,
                if Accepts(SeerCheck, pid, a, roster, roles) then a.target else c.seer,
                if Accepts(GuardProtect, pid, a, roster, roles) then a.target else c.guard,
                c.save || Accepts(WitchSave, pid, a, roster, roles),
                if Accepts(WitchPoison, pid, a, roster, roles) then a.target else c.poison)
  {
    assert acts[..i + 1][..i] == acts[..i];
  }

  /**
   * The night's deaths, each once: the wolf's target unless the save was
   * honoured or the guard protected it, then the poisoned seat whatever the
   * guard did.
   */
  function Deaths(wolf: Option<string>, guard: Option<string>, save: bool, poison: Option<string>): (ds: seq<string>)
    ensures |ds| <= 2 && (|ds| == 2 ==> ds[0] != ds[1])
    ensures forall x :: x in ds <==>
      (wolf == Some(x) && x != "" && !save && wolf != guard) || (poison == Some(x) && x != "")
    ensures Truthy(wolf) && !save && wolf != guard ==> ds[0] == wolf.value
  {
    var w := if Truthy(wolf) && !save && wolf != guard then [wolf.value] else [];
    w + (if Truthy(poison) && poison.value !in w then [poison.value] else [])
  }

  /** The night's raw death list, before duplicates are dropped: the wolf's target first, then the poisoned seat. */
  function RawDeaths(wolf: Option<string>, guard: Option<string>, save: bool, poison: Option<string>): (ds: seq<string>)
    ensures |ds| <= 2
    ensures forall x :: x in ds <==>
      (wolf == Some(x) && x != "" && !save && wolf != guard) || (poison == Some(x) && x != "")
    ensures Truthy(wolf) && !save && wolf != guard ==> ds[0] == wolf.value
    ensures Truthy(poison) ==> ds[|ds| - 1] == poison.value
  {
    (if Truthy(wolf) && !save && wolf != guard then [wolf.value] else []) +
    (if Truthy(poison) then [poison.value] else [])
  }

  /** A single name is its own deduplication. */
  lemma DedupOne(a: string)
    ensures Dedup([a]) == [a]
  {
    assert [a][..0] == [];
  }

  /** Two names deduplicate to one when they are the same. */
  lemma DedupPair(a: string, b: string)
    ensures Dedup([a, b]) == if a == b then [a] else [a, b]
  {
    DedupOne(a);
    assert [a, b][..1] == [a];
  }

  /** The night's raw death list case by case: the unguarded, unsaved wolf target, then the poisoned seat. */
  lemma RawDeathsCases(wolf: Option<string>, guard: Option<string>, save: bool, poison: Option<string>)
    ensures var killed := Truthy(wolf) && !save && wolf != guard;
      RawDeaths(wolf, guard, save, poison) ==
        if killed && Truthy(poison) then [wolf.value, poison.value]
        else if killed then [wolf.value]
        else if Truthy(poison) then [poison.value]
        else []
  {
    if Truthy(wolf) && !save && wolf != guard && Truthy(poison) {
      assert [wolf.value] + [poison.value] == [wolf.value, poison.value];
    }
  }

  /** The deaths are the raw list with duplicates dropped, first occurrence kept, as `list(dict.fromkeys(...))` does. */
  lemma DeathsDedup(wolf: Option<string>, guard: Option<string>, save: bool, poison: Option<string>)
    ensures Deaths(wolf, guard, save, poison) == Dedup(RawDeaths(wolf, guard, save, poison))
  {
    RawDeathsCases(wolf, guard, save, poison);
    if Truthy(wolf) && !save && wolf != guard {
      if Truthy(poison) {
        DedupPair(wolf.value, poison.value);
      } else {
        DedupOne(wolf.value);
      }
    } else if Truthy(poison) {
      DedupOne(poison.value);
    }
  }

  /**
   * The rest of `run_night` once the submissions are known: unset targets take
   * their defaults, the guard target becomes the next `last_guard_target`, a
   * save or poison is honoured only while its potion remains and honouring it
   * uses the potion up, and the deaths are listed once each.
   */
  function ResolveNight(c: Choices, roster: seq<Seat>, roles: map<string, Role>, lastGuard: Option<string>,
                        saveLeft: bool, poisonLeft: bool): (r: NightResult)
    ensures c.wolf.Some? ==> r.wolf == c.wolf
    ensures c.wolf.None? ==> r.wolf == ChooseWolfTarget(roster, roles)
    ensures c.seer.Some? ==> r.seer == c.seer
    ensures c.seer.None? ==> r.seer == ChooseSeerTarget(roster, roles)
    ensures c.guard.Some? ==> r.guard == c.guard
    ensures c.guard.None? ==> r.guard == ChooseGuardTarget(roster, lastGuard)
    ensures r.save <==> c.save && saveLeft
    ensures r.saveLeft <==> saveLeft && !r.save
    ensures Truthy(r.poison) ==> poisonLeft && r.poison == c.poison
    ensures Truthy(c.poison) && poisonLeft ==> r.poison == c.poison
    ensures r.poisonLeft <==> poisonLeft && !Truthy(r.poison)
    ensures r.deaths == Deaths(r.wolf, r.guard, r.save, r.poison)
  {
    var d := WithDefaults(c, roster, roles, lastGuard);
    var p := UsePotions(c.save, c.poison, saveLeft, poisonLeft);
    NightResult(d.wolf, d.seer, d.guard, p.save, p.poison, Deaths(d.wolf, d.guard, p.save, p.poison),
                p.saveLeft, p.poisonLeft)
  }

  /** An unset wolf, seer or guard target is replaced by its default choice. */
  function WithDefaults(c: Choices, roster: seq<Seat>, roles: map<string, Role>, lastGuard: Option<string>): (d: Choices)
    ensures c.wolf.Some? ==> d.wolf == c.wolf
    ensures c.wolf.None? ==> d.wolf == ChooseWolfTarget(roster, roles)
    ensures c.seer.Some? ==> d.seer == c.seer
    ensures c.seer.None? ==> d.seer == ChooseSeerTarget(roster, roles)
    ensures c.guard.Some? ==> d.guard == c.guard
    ensures c.guard.None? ==> d.guard == ChooseGuardTarget(roster, lastGuard)
    ensures d.save == c.save && d.poison == c.poison
  {
    c.(wolf := if c.wolf.None? then ChooseWolfTarget(roster, roles) else c.wolf,
       seer := if c.seer.None? then ChooseSeerTarget(roster, roles) else c.seer,
       guard := if c.guard.None? then ChooseGuardTarget(roster, lastGuard) else c.guard)
  }

  /** The potions after a night: what was honoured and what is left. */
  datatype Potions = Potions(save: bool, poison: Option<string>, saveLeft: bool, poisonLeft: bool)

  /**
   * A requested save or poison is honoured only while its potion is left, and
   * honouring it uses the potion up.
   */
  function UsePotions(save: bool, poison: Option<string>, saveLeft: bool, poisonLeft: bool): (p: Potions)
    ensures p.save <==> save && saveLeft
    ensures p.saveLeft <==> saveLeft && !p.save
    ensures Truthy(p.poison) ==> poisonLeft && p.poison == poison
    ensures Truthy(poison) && poisonLeft ==> p.poison == poison
    ensures p.poisonLeft <==> poisonLeft && !Truthy(p.poison)
  {
    var honouredSave := save && saveLeft;
    var honouredPoison := if Truthy(poison) && !poisonLeft then None else poison;
    Potions(honouredSave, honouredPoison, saveLeft && !honouredSave, poisonLeft && !Truthy(honouredPoison))
  }

  /** The public summary of a resolved night. */
  function Summary(r: NightResult): NightSummary {
    NightSummary(r.wolf.Some?, r.seer.Some?, r.guard.Some?, r.save, r.poison.Some?)
  }
}
