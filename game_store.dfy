/**
 * The browser client's game store (fronted/src/store/gameStore.ts): a state
 * object whose fields the store actions overwrite, and the reducer
 * `applyServerMessage` that maps each server message onto those actions.
 * JavaScript objects used as dictionaries (`votes`, `voteCounts`, `roleMap`,
 * `reviews`) are maps; `undefined` is `None`.
 */
module GameStore {
  import opened Wrappers
  import opened Seqs
  import opened Protocol
  import opened Roster

  /** A chat line `{playerId, text}`. */
  datatype Message = Message(playerId: string, text: string)

  // ---------------------------------------------------------------------
  // addVote: the vote table and its histogram
  // ---------------------------------------------------------------------

  /** The voters whose current vote is `t`. */
  function Voters(votes: map<string, string>, t: string): set<string> {
    set v | v in votes && votes[v] == t
  }

  /** `voteCounts[t]`, read as 0 when absent. */
  function Tally(counts: map<string, int>, t: string): int {
    if t in counts then counts[t] else 0
  }

  /**
   * `voteCounts` is the histogram of `votes`: each target's count is its
   * number of voters, no count is zero, and no voter holds an empty target
   * (which `addVote` could count but never withdraw).
   */
  ghost predicate IsHistogram(votes: map<string, string>, counts: map<string, int>) {
    (forall v :: v in votes ==> votes[v] != "") &&
    (forall t :: t in counts ==> counts[t] > 0) &&
    (forall t :: Tally(counts, t) == |Voters(votes, t)|)
  }

  /**
   * The count of a withdrawn target: one less, never below 0, with an absent
   * count read as 1; an entry that reaches 0 is deleted.
   */
  function Withdraw(counts: map<string, int>, previous: string): (r: map<string, int>)
    ensures forall t :: t != previous ==> Tally(r, t) == Tally(counts, t)
    ensures Tally(counts, previous) >= 1 ==> Tally(r, previous) == Tally(counts, previous) - 1
    ensures previous in r ==> r[previous] > 0
  {
    var c := if Tally(counts, previous) != 0 then Tally(counts, previous) else 1;
    var n := if c - 1 < 0 then 0 else c - 1;
    if n == 0 then counts - {previous} else counts[previous := n]
  }

  /** The count of the new target goes up by one, an absent count read as 0. */
  function Add(counts: map<string, int>, to: string): (r: map<string, int>)
    ensures Tally(r, to) == Tally(counts, to) + 1
    ensures forall t :: t != to ==> Tally(r, t) == Tally(counts, t)
  {
    counts[to := Tally(counts, to) + 1]
  }

  /** The counts once the voter's previous vote, when it is a non-empty target, is withdrawn. */
  function Retract(votes: map<string, string>, counts: map<string, int>, from: string): map<string, int> {
    if from in votes && votes[from] != "" then Withdraw(counts, votes[from]) else counts
  }

  /** The new `voteCounts` of `addVote(from, to)`: the previous vote is retracted, then `to` gains one. */
  function Recount(votes: map<string, string>, counts: map<string, int>, from: string, to: string): map<string, int> {
    Add(Retract(votes, counts, from), to)
  }

  /** Recasting one vote moves its voter from the old target's voters to the new target's. */
  lemma VotersAfter(votes: map<string, string>, from: string, to: string, t: string)
    ensures Voters(votes[from := to], t) == (Voters(votes, t) - {from}) + (if t == to then {from} else {})
  {
  }

  /** Retracting the voter's vote leaves each target counting its other voters. */
  lemma RetractTally(votes: map<string, string>, counts: map<string, int>, from: string, t: string)
    requires IsHistogram(votes, counts)
    ensures Tally(Retract(votes, counts, from), t) == |Voters(votes, t) - {from}|
  {
    if from in votes && votes[from] == t {
      assert from in Voters(votes, t);
    } else {
      assert Voters(votes, t) - {from} == Voters(votes, t);
    }
  }

  /** After the recount each target counts its voters in the new vote table. */
  lemma RecountTally(votes: map<string, string>, counts: map<string, int>, from: string, to: string, t: string)
    requires IsHistogram(votes, counts)
    ensures Tally(Recount(votes, counts, from, to), t) == |Voters(votes[from := to], t)|
  {
    RetractTally(votes, counts, from, t);
    VotersAfter(votes, from, to, t);
    if t == to {
      assert from !in Voters(votes, t) - {from};
    }
  }

  /** `addVote` keeps `voteCounts` the histogram of `votes`, for any non-empty target. */
  lemma RecountKeepsHistogram(votes: map<string, string>, counts: map<string, int>, from: string, to: string)
    requires IsHistogram(votes, counts) && to != ""
    ensures IsHistogram(votes[from := to], Recount(votes, counts, from, to))
  {
    var r := Recount(votes, counts, from, to);
    var mid := Retract(votes, counts, from);
    forall t
      ensures Tally(r, t) == |Voters(votes[from := to], t)|
    {
      RecountTally(votes, counts, from, to, t);
    }
    forall t | t in r
      ensures r[t] > 0
    {
      if t != to {
        assert t in mid;
      }
    }
  }

  /** The empty tables are a histogram: `clearVotes` and the resets establish it. */
  lemma EmptyHistogram()
    ensures IsHistogram(map[], map[])
  {
    forall t
      ensures Tally(map[], t) == |Voters(map[], t)|
    {
      assert Voters(map[], t) == {};
    }
  }

  // ---------------------------------------------------------------------
  // markDead
  // ---------------------------------------------------------------------

  /** The seats with every seat of the given id marked dead, in the same order. */
  function MarkDeadIn(players: seq<Seat>, id: string): (r: seq<Seat>)
    ensures |r| == |players|
    ensures forall i :: 0 <= i < |r| ==>
      r[i].id == players[i].id && r[i].name == players[i].name && (r[i].alive <==> players[i].alive && players[i].id != id)
  {
    seq(|players|, i requires 0 <= i < |players| => if players[i].id == id then players[i].(alive := false) else players[i])
  }

  /** With distinct ids the client marks the same seat dead as the server's `mark_dead`. */
  lemma MarkDeadInIsKillFirst(players: seq<Seat>, id: string)
    requires NoDup(Ids(players))
    ensures MarkDeadIn(players, id) == KillFirst(players, id)
  {
    forall i | 0 <= i < |players|
      ensures MarkDeadIn(players, id)[i] == KillFirst(players, id)[i]
    {
      KillFirstAt(players, id, i);
    }
  }

  // ---------------------------------------------------------------------
  // addMessage's text cleaning: every "undefined", in any letter case, removed, then the ends trimmed
  // ---------------------------------------------------------------------

  /** The characters `String.prototype.trim` removes: white space and line terminators. */
  predicate IsJsSpace(c: char) {
    c == '\t' || c == '\n' || c == '\U{000B}' || c == '\U{000C}' || c == '\r' || c == ' ' ||
    c == '\U{00A0}' || c == '\U{1680}' || ('\U{2000}' <= c <= '\U{200A}') ||
    c == '\U{2028}' || c == '\U{2029}' || c == '\U{202F}' || c == '\U{205F}' || c == '\U{3000}' || c == '\U{FEFF}'
  }

  /**
   * `c` matches the upper-case ASCII letter `u` under the `i` flag. Without
   * the `u` flag only the ASCII letters fold onto ASCII letters.
   */
  predicate FoldsTo(c: char, u: char)
    requires 'A' <= u <= 'Z'
  {
    c == u || c as int == u as int + 32
  }

  const Undefined: string := "UNDEFINED"

  /** The nine characters spell `undefined` in any mix of cases. */
  predicate IsUndefined(w: string) {
    |w| == 9 && forall k :: 0 <= k < 9 ==> FoldsTo(w[k], Undefined[k])
  }

  /** The word `undefined`, in any case, starts at position `i`. */
  predicate MatchAt(s: string, i: int) {
    0 <= i && i + 9 <= |s| && IsUndefined(s[i..i + 9])
  }

  /** Removal of "undefined" in any letter case: matches removed left to right, each scan resuming after the match. */
  function StripUndefined(s: string): (r: string)
    ensures |r| <= |s|
    ensures |s| < 9 ==> r == s
  {
    if s == [] then []
    else if MatchAt(s, 0) then StripUndefined(s[9..])
    else [s[0]] + StripUndefined(s[1..])
  }

  /** A match one place further in `s` is a match in `s` without its first character. */
  lemma MatchShift(s: string, i: int)
    requires 1 <= i <= |s|
    ensures MatchAt(s, i) <==> MatchAt(s[1..], i - 1)
  {
    if i + 9 <= |s| {
      assert s[i..i + 9] == s[1..][i - 1..i - 1 + 9];
    }
  }

  /** Without an occurrence of the word nothing is removed. */
  lemma {:induction false} NoMatchKeeps(s: string)
    requires forall i :: 0 <= i < |s| ==> !MatchAt(s, i)
    ensures StripUndefined(s) == s
  {
    if s != [] {
      assert !MatchAt(s, 0);
      forall i | 0 <= i < |s| - 1
        ensures !MatchAt(s[1..], i)
      {
        MatchShift(s, i + 1);
      }
      NoMatchKeeps(s[1..]);
    }
  }

  /** An occurrence of the word anywhere makes the text shorter. */
  lemma {:induction false} MatchShrinks(s: string, i: int)
    requires 0 <= i < |s| && MatchAt(s, i)
    ensures |StripUndefined(s)| < |s|
  {
    if !MatchAt(s, 0) {
      MatchShift(s, i);
      MatchShrinks(s[1..], i - 1);
    }
  }

  /** The text is left alone exactly when the word does not occur in it. */
  lemma StripUndefinedKeeps(s: string)
    ensures StripUndefined(s) == s <==> forall i :: 0 <= i < |s| ==> !MatchAt(s, i)
  {
    if forall i :: 0 <= i < |s| ==> !MatchAt(s, i) {
      NoMatchKeeps(s);
    } else {
      var i :| 0 <= i < |s| && MatchAt(s, i);
      MatchShrinks(s, i);
    }
  }

  ghost predicate AllSpaces(s: string) {
    forall k :: 0 <= k < |s| ==> IsJsSpace(s[k])
  }

  /** The text without its leading white space. */
  function TrimStart(s: string): string {
    if s != [] && IsJsSpace(s[0]) then TrimStart(s[1..]) else s
  }

  /** The text without its trailing white space. */
  function TrimEnd(s: string): string {
    if s != [] && IsJsSpace(s[|s| - 1]) then TrimEnd(s[..|s| - 1]) else s
  }

  /** Trimming: the text without its leading and trailing white space. */
  function Trim(s: string): string {
    TrimEnd(TrimStart(s))
  }

  /** `TrimStart` removes a white-space prefix and nothing else, and stops at the first other character. */
  lemma {:induction false} TrimStartFacts(s: string)
    ensures var r := TrimStart(s);
      |r| <= |s| && r == s[|s| - |r|..] && AllSpaces(s[..|s| - |r|]) && (r == [] || !IsJsSpace(r[0]))
  {
    if s != [] && IsJsSpace(s[0]) {
      TrimStartFacts(s[1..]);
      var r := TrimStart(s[1..]);
      assert s[1..][|s| - 1 - |r|..] == s[|s| - |r|..];
      assert s[..|s| - |r|] == [s[0]] + s[1..][..|s| - 1 - |r|];
    }
  }

  /** `TrimEnd` removes a white-space suffix and nothing else, and stops at the last other character. */
  lemma {:induction false} TrimEndFacts(s: string)
    ensures var r := TrimEnd(s);
      |r| <= |s| && r == s[..|r|] && AllSpaces(s[|r|..]) && (r == [] || !IsJsSpace(r[|r| - 1]))
  {
    if s != [] && IsJsSpace(s[|s| - 1]) {
      var init := s[..|s| - 1];
      TrimEndFacts(init);
      var r := TrimEnd(init);
      assert init[..|r|] == s[..|r|];
      assert s[|r|..] == init[|r|..] + [s[|s| - 1]];
    }
  }

  /**
   * Trimming leaves the text between a white-space prefix and a white-space
   * suffix, and the result neither starts nor ends with white space.
   */
  lemma TrimFacts(s: string)
    ensures var r := Trim(s);
      (r == [] || (!IsJsSpace(r[0]) && !IsJsSpace(r[|r| - 1]))) &&
      exists i :: 0 <= i <= |s| - |r| && s[i..i + |r|] == r && AllSpaces(s[..i]) && AllSpaces(s[i + |r|..])
  {
    var t := TrimStart(s);
    TrimStartFacts(s);
    TrimEndFacts(t);
    var r := TrimEnd(t);
    var i := |s| - |t|;
    assert s[i..i + |r|] == t[..|r|];
    assert s[i + |r|..] == t[|r|..];
    if r != [] {
      assert r[0] == t[0];
    }
  }

  /** Trimming twice trims no more than once. */
  lemma TrimIdempotent(s: string)
    ensures Trim(Trim(s)) == Trim(s)
  {
    var r := Trim(s);
    TrimFacts(s);
    if r != [] {
      assert TrimStart(r) == r;
      assert TrimEnd(r) == r;
    }
  }

  /** The text `addMessage` stores. */
  function CleanText(text: string): string {
    Trim(StripUndefined(text))
  }

  // ---------------------------------------------------------------------
  // PHASE: the message list keeps only the system's messages
  // ---------------------------------------------------------------------

  const System: string := "SYSTEM"

  /** The system messages, in their order. */
  function KeepSystem(ms: seq<Message>): (r: seq<Message>)
    ensures |r| <= |ms|
    ensures forall m :: m in r <==> m in ms && m.playerId == System
  {
    if ms == [] then []
    else (if ms[0].playerId == System then [ms[0]] else []) + KeepSystem(ms[1..])
  }

  /** The filter works message by message, so it keeps the order of the messages it keeps. */
  lemma {:induction false} KeepSystemAppend(a: seq<Message>, b: seq<Message>)
    ensures KeepSystem(a + b) == KeepSystem(a) + KeepSystem(b)
  {
    if a == [] {
      assert a + b == b;
    } else {
      assert (a + b)[0] == a[0];
      assert (a + b)[1..] == a[1..] + b;
      KeepSystemAppend(a[1..], b);
    }
  }

  // ---------------------------------------------------------------------
  // NIGHT_SKILL and NIGHT_ACTION_ACK
  // ---------------------------------------------------------------------

  /** The skill the message names, or else the role's own: the seer checks, the guard guards, wolves kill, the witch poisons. */
  function FallbackSkill(skill: Option<Skill>, role: Option<Role>): (r: Option<Skill>)
    ensures skill.Some? ==> r == skill
    ensures r.None? <==> skill.None? && (role.None? || role == Some(Villager))
  {
    if skill.Some? then skill
    else
      match role
      case Some(Seer) => Some(Check)
      case Some(Guard) => Some(GuardSkill)
      case Some(Werewolf) => Some(WerewolfSkill)
      case Some(Witch) => Some(Poison)
      case _ => None
  }

  /** The message's `ok` flag when present; otherwise whether its status is "ok", unknown when it has no status. */
  function AckOk(ok: Option<bool>, status: Option<string>): (r: Option<bool>)
    ensures ok.Some? ==> r == ok
    ensures r.None? <==> ok.None? && !Truthy(status)
    ensures ok.None? && Truthy(status) ==> (r == Some(true) <==> status == Some("ok"))
  {
    if ok.Some? then ok
    else if Truthy(status) then Some(status.value == "ok")
    else None
  }

  /** The default rejection text "行动被拒绝" ("action rejected"). */
  const Rejected: string := "\U{884C}\U{52A8}\U{88AB}\U{62D2}\U{7EDD}"

  /** "你的身份：" ("your role: "), the prefix of the system message announcing the role. */
  const RolePrefix: string := "\U{4F60}\U{7684}\U{8EAB}\U{4EFD}\U{FF1A}"

  // ---------------------------------------------------------------------
  // The store state and what each action makes of it
  // ---------------------------------------------------------------------

  /** Who is thinking and who is speaking. */
  datatype Turn = Turn(thinkingPlayer: Option<string>, speakingPlayer: Option<string>)

  /** The vote table, its histogram, and whether voting is open. */
  datatype Ballots = Ballots(votes: map<string, string>, voteCounts: map<string, int>, votingOpen: bool)

  /** The player's role and the status of their night action. */
  datatype NightAction = NightAction(
    role: Option<Role>,
    nightSkill: Option<Skill>,
    nightTarget: Option<string>,
    nightActionPending: bool,
    nightActionSubmitted: bool,
    nightActionError: Option<string>)

  /** The replay data and the replay cursor. */
  datatype Replay = Replay(
    replayTimeline: Option<seq<Entry>>,
    finalRoles: Option<seq<FinalRole>>,
    result: Option<Outcome>,
    reviews: Option<map<string, Review>>,
    replayIndex: int,
    replaying: bool)

  /**
   * The data fields of `GameState`, grouped as its declaration groups them;
   * `undefined` is `None`.
   */
  datatype GameState = GameState(
    players: seq<Seat>,
    selfId: Option<string>,
    roleMap: Option<map<string, Role>>,
    phase: Phase,
    turn: Turn,
    messages: seq<Message>,
    ballots: Ballots,
    night: NightAction,
    replay: Replay)

  const NoTurn: Turn := Turn(None, None)
  const NoBallots: Ballots := Ballots(map[], map[], false)
  const NoNightAction: NightAction := NightAction(None, None, None, false, false, None)

  /** The state the store is created with. */
  const Initial: GameState :=
    GameState([], None, None, Night, NoTurn, [], NoBallots, NoNightAction, Replay(None, None, None, None, 0, false))

  /** What every action keeps: the counts are the histogram of the votes, and the replay cursor is not negative. */
  ghost predicate Inv(s: GameState) {
    IsHistogram(s.ballots.votes, s.ballots.voteCounts) && s.replay.replayIndex >= 0
  }

  /** `setSpeaking`. */
  function Speaking(s: GameState, playerId: Option<string>): GameState {
    s.(turn := Turn(None, playerId))
  }

  /** `addMessage`. */
  function Messaged(s: GameState, playerId: string, text: string): GameState {
    s.(messages := s.messages + [Message(playerId, CleanText(text))], turn := s.turn.(speakingPlayer := Some(playerId)))
  }

  /** `markDead`. */
  function Killed(s: GameState, playerId: string): GameState {
    s.(players := MarkDeadIn(s.players, playerId))
  }

  /** `addVote`. */
  function Voted(s: GameState, from: string, to: string): GameState {
    s.(ballots := s.ballots.(votes := s.ballots.votes[from := to],
                             voteCounts := Recount(s.ballots.votes, s.ballots.voteCounts, from, to)))
  }

  /** `clearVotes`. */
  function Cleared(s: GameState): GameState {
    s.(ballots := s.ballots.(votes := map[], voteCounts := map[]))
  }

  /** A night action not yet chosen, pending, submitted or refused; the role is kept. */
  function FreshNight(n: NightAction): NightAction {
    n.(nightSkill := None, nightTarget := None, nightActionPending := false, nightActionSubmitted := false,
       nightActionError := None)
  }

  /** `startReplay`. */
  function ReplayStarted(s: GameState): GameState {
    s.(players := [], selfId := None, phase := Night, messages := [], turn := NoTurn,
       ballots := Ballots(map[], map[], false), night := NightAction(None, None, None, false, false, None),
       replay := s.replay.(replaying := true, replayIndex := 0))
  }

  /** `stopReplay`. */
  function ReplayStopped(s: GameState): GameState {
    s.(replay := s.replay.(replaying := false, replayIndex := 0))
  }

  /** `stepReplay`. */
  function Stepped(s: GameState): GameState {
    s.(replay := s.replay.(replayIndex := s.replay.replayIndex + 1))
  }

  /** `INIT`: outside a replay a fresh table with the new roster, during a replay only the roster. */
  function Inited(s: GameState, players: seq<Seat>, selfId: string): GameState {
    if !s.replay.replaying then
      s.(players := players, selfId := Some(selfId), phase := Night, roleMap := None, messages := [],
         ballots := Ballots(map[], map[], false), night := NightAction(None, None, None, false, false, None),
         turn := Turn(None, None),
         replay := s.replay.(replayTimeline := None, finalRoles := None, result := None, reviews := None))
    else
      s.(players := players, selfId := Some(selfId))
  }

  /** `PHASE`: the new phase with a fresh turn, then empty vote tables when voting starts. */
  function Phased(s: GameState, p: Phase): GameState {
    var t := s.(phase := p, turn := NoTurn, night := FreshNight(s.night),
                ballots := s.ballots.(votingOpen := p == Vote),
                messages := if p == Night then KeepSystem(s.messages) else s.messages);
    if p == Vote then Cleared(t) else t
  }

  /** `VOTE_END`. */
  function VoteClosed(s: GameState): GameState {
    s.(ballots := s.ballots.(votingOpen := false), turn := NoTurn)
  }

  /** `ROLE`: the role is set and announced in a system message. */
  function RoleTold(s: GameState, r: Role): GameState {
    Messaged(s.(night := s.night.(role := Some(r))), System, RolePrefix + RoleName(r))
  }

  /** `NIGHT_SKILL`. */
  function SkillOffered(s: GameState, skillRole: Option<Role>, skill: Option<Skill>): GameState {
    s.(night := s.night.(role := if skillRole.Some? then skillRole else s.night.role,
                         nightSkill := FallbackSkill(skill, skillRole),
                         nightActionPending := false, nightActionSubmitted := false, nightActionError := None))
  }

  /** `NIGHT_ACTION_ACK`: a summary ends the wait, then a verdict, when there is one, settles the status. */
  function Acked(s: GameState, summary: Option<NightSummary>, ok: Option<bool>, status: Option<string>,
                 message: Option<string>): GameState {
    var n := if summary.Some? then s.night.(nightActionPending := false) else s.night;
    match AckOk(ok, status)
    case None => s.(night := n)
    case Some(true) =>
      s.(night := n.(nightActionPending := false, nightActionSubmitted := true, nightActionError := None))
    case Some(false) =>
      s.(night := n.(nightActionPending := false, nightActionSubmitted := false,
                     nightActionError := Some(if Truthy(message) then message.value else Rejected)))
  }

  /** `REPLAY_DATA`: the replay data is stored, then the replay starts. */
  function ReplayLoaded(s: GameState, timeline: seq<Entry>, reviews: map<string, Review>,
                        finalRoles: Option<seq<FinalRole>>, result: Option<Outcome>): GameState {
    ReplayStarted(s.(replay := s.replay.(replayTimeline := Some(timeline), reviews := Some(reviews),
                                         finalRoles := finalRoles, result := result)))
  }

  /** `REVIEW`. */
  function Reviewed(s: GameState, data: map<string, Review>): GameState {
    s.(replay := s.replay.(reviews := Some(s.replay.reviews.GetOr(map[]) + data)))
  }

  // ---------------------------------------------------------------------
  // What the actions promise together
  // ---------------------------------------------------------------------

  /**
   * `PHASE`: the phase is set, voting is open exactly in the vote phase, the
   * turn and the night action are reset, the night keeps only the system
   * messages, and the vote phase starts from empty tables; the roster, the
   * role and the replay are untouched.
   */
  lemma PhasedFacts(s: GameState, p: Phase)
    ensures var r := Phased(s, p);
      r.phase == p && (r.ballots.votingOpen <==> p == Vote) &&
      r.turn == NoTurn && r.night == FreshNight(s.night) && r.night.role == s.night.role &&
      (p == Night ==> r.messages == KeepSystem(s.messages)) &&
      (p != Night ==> r.messages == s.messages) &&
      (p == Vote ==> r.ballots.votes == map[] && r.ballots.voteCounts == map[]) &&
      (p != Vote ==> r.ballots.votes == s.ballots.votes && r.ballots.voteCounts == s.ballots.voteCounts) &&
      r.players == s.players && r.replay == s.replay
  {
  }

  /**
   * `NIGHT_ACTION_ACK`: an accepted action is submitted with no error; a
   * refused one is not submitted and carries the server's message, or the
   * default text when that is missing or empty; either way nothing is
   * pending. Without a verdict only a summary ends the wait, and submitted
   * and error are unchanged.
   */
  lemma AckedFacts(s: GameState, summary: Option<NightSummary>, ok: Option<bool>, status: Option<string>,
                   message: Option<string>)
    ensures var r := Acked(s, summary, ok, status, message).night;
      (AckOk(ok, status) == Some(true) ==> !r.nightActionPending && r.nightActionSubmitted && r.nightActionError == None) &&
      (AckOk(ok, status) == Some(false) ==>
         !r.nightActionPending && !r.nightActionSubmitted &&
         r.nightActionError == Some(if Truthy(message) then message.value else Rejected)) &&
      (AckOk(ok, status) == None ==>
         r.nightActionSubmitted == s.night.nightActionSubmitted && r.nightActionError == s.night.nightActionError &&
         (r.nightActionPending <==> s.night.nightActionPending && summary.None?)) &&
      r.nightSkill == s.night.nightSkill && r.role == s.night.role
  {
  }

  /**
   * `NIGHT_SKILL`: the offered role replaces the held one only when present;
   * the offered skill, or else the one the offered role implies, becomes the
   * night skill; the action status starts afresh.
   */
  lemma SkillOfferedFacts(s: GameState, skillRole: Option<Role>, skill: Option<Skill>)
    ensures var r := SkillOffered(s, skillRole, skill).night;
      (skillRole.Some? ==> r.role == skillRole) && (skillRole.None? ==> r.role == s.night.role) &&
      r.nightSkill == FallbackSkill(skill, skillRole) &&
      !r.nightActionPending && !r.nightActionSubmitted && r.nightActionError == None
  {
  }

  /**
   * `REPLAY_DATA`: the replay runs from cursor 0 over the initial table, with
   * the new timeline, reviews, final roles and result.
   */
  lemma ReplayLoadedFacts(s: GameState, timeline: seq<Entry>, reviews: map<string, Review>,
                          finalRoles: Option<seq<FinalRole>>, result: Option<Outcome>)
    ensures ReplayLoaded(s, timeline, reviews, finalRoles, result) ==
      Initial.(roleMap := s.roleMap, replay := Replay(Some(timeline), finalRoles, result, Some(reviews), 0, true))
  {
  }

  /** `addMessage` appends exactly one message, with the cleaned text, and makes the sender the speaker. */
  lemma MessagedFacts(s: GameState, playerId: string, text: string)
    ensures var r := Messaged(s, playerId, text);
      |r.messages| == |s.messages| + 1 && r.messages[..|s.messages|] == s.messages &&
      r.messages[|s.messages|] == Message(playerId, CleanText(text)) && r.turn.speakingPlayer == Some(playerId)
  {
  }

  /** `REVIEW`: the new reviews win over the ones already held, which are otherwise kept. */
  lemma ReviewedFacts(s: GameState, data: map<string, Review>)
    ensures var r := Reviewed(s, data).replay.reviews;
      var held := s.replay.reviews;
      r.Some? &&
      (forall k :: k in r.value <==> k in data || (held.Some? && k in held.value)) &&
      (forall k :: k in data ==> r.value[k] == data[k]) &&
      (forall k :: k !in data && held.Some? && k in held.value ==> r.value[k] == held.value[k])
  {
  }

  /** `addVote` keeps the invariant whenever the new target is not empty. */
  lemma VotedInv(s: GameState, from: string, to: string)
    requires Inv(s) && to != ""
    ensures Inv(Voted(s, from, to))
  {
    RecountKeepsHistogram(s.ballots.votes, s.ballots.voteCounts, from, to);
  }

  /** `INIT` outside a replay is the initial store with the new roster, whatever came before (bar the cursor). */
  lemma InitedFresh(s: GameState, players: seq<Seat>, selfId: string)
    requires !s.replay.replaying
    ensures Inited(s, players, selfId) ==
      Initial.(players := players, selfId := Some(selfId), replay := Initial.replay.(replayIndex := s.replay.replayIndex))
  {
  }

  /** `INIT` during a replay only replaces the roster, so the replay is not disturbed. */
  lemma InitedDuringReplay(s: GameState, players: seq<Seat>, selfId: string)
    requires s.replay.replaying
    ensures Inited(s, players, selfId) == s.(players := players, selfId := Some(selfId))
  {
  }

  /**
   * `startReplay` always yields the initial table (no roster, no messages, no
   * votes, no role, no night action) with the replay data kept and the replay
   * running from cursor 0.
   */
  lemma ReplayStartedFresh(s: GameState)
    ensures ReplayStarted(s) ==
      Initial.(roleMap := s.roleMap, replay := s.replay.(replaying := true, replayIndex := 0))
  {
  }

  /** A `SPEECH` leaves one cleaned message more and, unlike `addMessage` alone, nobody marked as speaking. */
  lemma SpeechFacts(s: GameState, playerId: string, text: string)
    ensures var r := Speaking(Messaged(s, playerId, text), None);
      r.messages == s.messages + [Message(playerId, CleanText(text))] && r.turn == NoTurn
  {
  }

  /** A second `PHASE` night filter removes nothing more: the kept messages are all system messages. */
  lemma {:induction false} KeepSystemIdempotent(ms: seq<Message>)
    ensures KeepSystem(KeepSystem(ms)) == KeepSystem(ms)
  {
    if ms != [] {
      var head := if ms[0].playerId == System then [ms[0]] else [];
      KeepSystemAppend(head, KeepSystem(ms[1..]));
      KeepSystemIdempotent(ms[1..]);
      if ms[0].playerId == System {
        assert KeepSystem(head) == head by {
          assert head[1..] == [];
        }
      }
    }
  }

  /** Stepping the replay forward before stopping it makes no difference to the stopped state. */
  lemma StopAfterSteps(s: GameState)
    ensures ReplayStopped(Stepped(s)) == ReplayStopped(s)
  {
  }

  // ---------------------------------------------------------------------
  // The store
  // ---------------------------------------------------------------------

  /**
   * `useGameStore`. The store holds one state object; every `set` swaps in a
   * copy with the given fields overwritten, which is what the record
   * updates below do.
   */
  class Store {
    var state: GameState

    ghost predicate Valid()
      reads this
    {
      Inv(state)
    }

    /** The store as created. */
    constructor ()
      ensures state == Initial && Valid()
    {
      state := Initial;
      EmptyHistogram();
    }

    /** `setRole`. */
    method SetRole(r: Role)
      modifies this
      ensures state == old(state).(night := old(state).night.(role := Some(r)))
    {
      state := state.(night := state.night.(role := Some(r)));
    }

    /** `setPlayers`. */
    method SetPlayers(ps: seq<Seat>, id: string)
      modifies this
      ensures state == old(state).(players := ps, selfId := Some(id))
    {
      state := state.(players := ps, selfId := Some(id));
    }

    /** `setRoleMap`. */
    method SetRoleMap(roles: map<string, Role>)
      modifies this
      ensures state == old(state).(roleMap := Some(roles))
    {
      state := state.(roleMap := Some(roles));
    }

    /** `setThinking`. */
    method SetThinking(playerId: Option<string>)
      modifies this
      ensures state == old(state).(turn := old(state).turn.(thinkingPlayer := playerId))
    {
      state := state.(turn := state.turn.(thinkingPlayer := playerId));
    }

    /** `setSpeaking`. */
    method SetSpeaking(playerId: Option<string>)
      modifies this
      ensures state == Speaking(old(state), playerId)
    {
      state := state.(turn := Turn(None, playerId));
    }

    /** `addMessage`. */
    method AddMessage(playerId: string, text: string)
      modifies this
      ensures state == Messaged(old(state), playerId, text)
    {
      var cleaned := Trim(StripUndefined(text));
      state := state.(messages := state.messages + [Message(playerId, cleaned)],
                      turn := state.turn.(speakingPlayer := Some(playerId)));
    }

    /** `markDead`. */
    method MarkDead(playerId: string)
      modifies this
      ensures state == Killed(old(state), playerId)
    {
      state := state.(players := MarkDeadIn(state.players, playerId));
    }

    /** `addVote`: the counts stay the histogram of the votes for every non-empty target. */
    method AddVote(from: string, to: string)
      modifies this
      ensures state == Voted(old(state), from, to)
      ensures old(Valid()) && to != "" ==> Valid()
    {
      if Inv(state) && to != "" {
        VotedInv(state, from, to);
      }
      var b := state.ballots;
      var counts := Retract(b.votes, b.voteCounts, from);
      counts := counts[to := Tally(counts, to) + 1];
      state := state.(ballots := b.(votes := b.votes[from := to], voteCounts := counts));
    }

    /** `clearVotes`. */
    method ClearVotes()
      modifies this
      ensures state == Cleared(old(state))
      ensures old(Valid()) ==> Valid()
    {
      state := state.(ballots := state.ballots.(votes := map[], voteCounts := map[]));
      EmptyHistogram();
    }

    /** `startReplay`. */
    method StartReplay()
      modifies this
      ensures state == ReplayStarted(old(state))
      ensures Valid()
    {
      state := state.(players := [], selfId := None, phase := Night, messages := [],
                      turn := Turn(None, None), ballots := Ballots(map[], map[], false),
                      night := NightAction(None, None, None, false, false, None),
                      replay := state.replay.(replaying := true, replayIndex := 0));
      EmptyHistogram();
    }

    /** `stopReplay`. */
    method StopReplay()
      modifies this
      ensures state == ReplayStopped(old(state))
      ensures old(Valid()) ==> Valid()
    {
      state := state.(replay := state.replay.(replaying := false, replayIndex := 0));
    }

    /** `stepReplay`. */
    method StepReplay()
      modifies this
      ensures state == Stepped(old(state))
      ensures old(Valid()) ==> Valid()
    {
      state := state.(replay := state.replay.(replayIndex := state.replay.replayIndex + 1));
    }

    /** `INIT`: a fresh table with the new roster, or during a replay only the roster. */
    method OnInit(ps: seq<Seat>, id: string)
      modifies this
      ensures state == Inited(old(state), ps, id)
      ensures old(Valid()) ==> Valid()
    {
      if !state.replay.replaying {
        state := state.(players := ps, selfId := Some(id), phase := Night, roleMap := None, messages := [],
                        ballots := Ballots(map[], map[], false),
                        night := NightAction(None, None, None, false, false, None),
                        turn := Turn(None, None),
                        replay := state.replay.(replayTimeline := None, finalRoles := None, result := None,
                                                reviews := None));
        EmptyHistogram();
      } else {
        SetPlayers(ps, id);
      }
    }

    /** `PHASE`: the new phase with a fresh turn, then the votes are cleared when voting starts. */
    method OnPhase(p: Phase)
      modifies this
      ensures state == Phased(old(state), p)
      ensures old(Valid()) ==> Valid()
    {
      var n := state.night;
      state := state.(phase := p, turn := Turn(None, None),
                      night := n.(nightTarget := None, nightSkill := None, nightActionPending := false,
                                  nightActionSubmitted := false, nightActionError := None),
                      ballots := state.ballots.(votingOpen := p == Vote),
                      messages := if p == Night then KeepSystem(state.messages) else state.messages);
      if p == Vote {
        ClearVotes();
      }
    }

    /** `SPEECH`: the message is added, then nobody is marked as speaking. */
    method OnSpeech(pid: string, text: string)
      modifies this
      ensures state == Speaking(Messaged(old(state), pid, text), None)
    {
      AddMessage(pid, text);
      SetSpeaking(None);
    }

    /** `VOTE_END`. */
    method OnVoteEnd()
      modifies this
      ensures state == VoteClosed(old(state))
    {
      state := state.(ballots := state.ballots.(votingOpen := false), turn := Turn(None, None));
    }

    /** `ROLE`: the role is set, then announced. */
    method OnRole(r: Role)
      modifies this
      ensures state == RoleTold(old(state), r)
    {
      SetRole(r);
      AddMessage(System, RolePrefix + RoleName(r));
    }

    /** `NIGHT_SKILL`. */
    method OnNightSkill(r: Option<Role>, k: Option<Skill>)
      modifies this
      ensures state == SkillOffered(old(state), r, k)
    {
      var held := state.night.role;
      state := state.(night := state.night.(role := if r.Some? then r else held, nightSkill := FallbackSkill(k, r),
                                            nightActionPending := false, nightActionSubmitted := false,
                                            nightActionError := None));
    }

    /** `NIGHT_ACTION_ACK`: a summary ends the wait, then a verdict, when there is one, settles the status. */
    method OnNightActionAck(summary: Option<NightSummary>, ok: Option<bool>, status: Option<string>,
                            message: Option<string>)
      modifies this
      ensures state == Acked(old(state), summary, ok, status, message)
    {
      if summary.Some? {
        state := state.(night := state.night.(nightActionPending := false));
      }
      var verdict := AckOk(ok, status);
      if verdict == Some(true) {
        state := state.(night := state.night.(nightActionPending := false, nightActionSubmitted := true,
                                              nightActionError := None));
      } else if verdict == Some(false) {
        var text := if Truthy(message) then message.value else Rejected;
        state := state.(night := state.night.(nightActionPending := false, nightActionSubmitted := false,
                                              nightActionError := Some(text)));
      }
    }

    /** `REPLAY_DATA`: the replay data is stored, then the replay starts. */
    method OnReplayData(t: seq<Entry>, rv: map<string, Review>, fr: Option<seq<FinalRole>>, res: Option<Outcome>)
      modifies this
      ensures state == ReplayLoaded(old(state), t, rv, fr, res)
      ensures Valid()
    {
      state := state.(replay := state.replay.(replayTimeline := Some(t), reviews := Some(rv), finalRoles := fr,
                                              result := res));
      StartReplay();
    }

    /** `REVIEW`. */
    method OnReview(data: map<string, Review>)
      modifies this
      ensures state == Reviewed(old(state), data)
    {
      var held := if state.replay.reviews.Some? then state.replay.reviews.value else map[];
      state := state.(replay := state.replay.(reviews := Some(held + data)));
    }

    /** The messages about the table: the roster, the phase, the role map, deaths and the replay. */
    method ApplyTableMessage(msg: Msg)
      requires msg.InitMsg? || msg.PhaseMsg? || msg.RoleMapMsg? || msg.Death? || msg.ReplayData? || msg.ReviewMsg?
      modifies this
      ensures msg.InitMsg? ==> state == Inited(old(state), msg.players, msg.selfId)
      ensures msg.PhaseMsg? ==> state == Phased(old(state), msg.phase)
      ensures msg.RoleMapMsg? ==> state == old(state).(roleMap := Some(msg.roles))
      ensures msg.Death? ==> state == Killed(old(state), msg.playerId)
      ensures msg.ReplayData? ==> state == ReplayLoaded(old(state), msg.timeline, msg.reviews, msg.finalRoles, msg.result)
      ensures msg.ReviewMsg? ==> state == Reviewed(old(state), msg.data)
      ensures old(Valid()) ==> Valid()
    {
      match msg
      case InitMsg(ps, id) => OnInit(ps, id);
      case PhaseMsg(p) => OnPhase(p);
      case RoleMapMsg(roles) => SetRoleMap(roles);
      case Death(pid) => MarkDead(pid);
      case ReplayData(t, rv, fr, res) => OnReplayData(t, rv, fr, res);
      case ReviewMsg(data) => OnReview(data);
    }

    /** The messages about the talk and the vote. */
    method ApplyTalkMessage(msg: Msg)
      requires msg.Thinking? || msg.SpeechStart? || msg.Speech? || msg.VoteMsg? || msg.VoteEnd?
      modifies this
      ensures msg.Thinking? ==> state == old(state).(turn := old(state).turn.(thinkingPlayer := Some(msg.playerId)))
      ensures msg.SpeechStart? ==> state == Speaking(old(state), Some(msg.playerId))
      ensures msg.Speech? ==> state == Speaking(Messaged(old(state), msg.playerId, msg.text), None)
      ensures msg.VoteMsg? ==> state == Voted(old(state), msg.from, msg.to)
      ensures msg.VoteEnd? ==> state == VoteClosed(old(state))
      ensures old(Valid()) && !(msg.VoteMsg? && msg.to == "") ==> Valid()
    {
      match msg
      case Thinking(pid) => SetThinking(Some(pid));
      case SpeechStart(pid) => SetSpeaking(Some(pid));
      case Speech(pid, text) => OnSpeech(pid, text);
      case VoteMsg(from, to) => AddVote(from, to);
      case VoteEnd => OnVoteEnd();
    }

    /** The messages about the player's role and night action. */
    method ApplyNightMessage(msg: Msg)
      requires msg.RoleMsg? || msg.NightSkillMsg? || msg.NightActionAck?
      modifies this
      ensures msg.RoleMsg? ==> state == RoleTold(old(state), msg.role)
      ensures msg.NightSkillMsg? ==> state == SkillOffered(old(state), msg.skillRole, msg.skill)
      ensures msg.NightActionAck? ==> state == Acked(old(state), msg.summary, msg.ok, msg.status, msg.message)
      ensures old(Valid()) ==> Valid()
    {
      match msg
      case RoleMsg(_, r) => OnRole(r);
      case NightSkillMsg(r, k) => OnNightSkill(r, k);
      case NightActionAck(_, summary, ok, status, message) => OnNightActionAck(summary, ok, status, message);
    }

    /**
     * `applyServerMessage`: each message type moves the state as the
     * corresponding action says; the types the client does not handle change
     * nothing. Every message keeps the store valid except a vote for the
     * empty target.
     */
    method ApplyServerMessage(msg: Msg)
      modifies this
      ensures msg.InitMsg? ==> state == Inited(old(state), msg.players, msg.selfId)
      ensures msg.PhaseMsg? ==> state == Phased(old(state), msg.phase)
      ensures msg.Thinking? ==> state == old(state).(turn := old(state).turn.(thinkingPlayer := Some(msg.playerId)))
      ensures msg.SpeechStart? ==> state == Speaking(old(state), Some(msg.playerId))
      ensures msg.Speech? ==> state == Speaking(Messaged(old(state), msg.playerId, msg.text), None)
      ensures msg.VoteMsg? ==> state == Voted(old(state), msg.from, msg.to)
      ensures msg.VoteEnd? ==> state == VoteClosed(old(state))
      ensures msg.Death? ==> state == Killed(old(state), msg.playerId)
      ensures msg.RoleMsg? ==> state == RoleTold(old(state), msg.role)
      ensures msg.RoleMapMsg? ==> state == old(state).(roleMap := Some(msg.roles))
      ensures msg.NightSkillMsg? ==> state == SkillOffered(old(state), msg.skillRole, msg.skill)
      ensures msg.NightActionAck? ==> state == Acked(old(state), msg.summary, msg.ok, msg.status, msg.message)
      ensures msg.ReplayData? ==> state == ReplayLoaded(old(state), msg.timeline, msg.reviews, msg.finalRoles, msg.result)
      ensures msg.ReviewMsg? ==> state == Reviewed(old(state), msg.data)
      ensures msg.SheriffVoteMsg? || msg.VoteTie? || msg.SheriffNone? || msg.SheriffTie? || msg.SheriffMsg? || msg.Other? ==>
        state == old(state)
      ensures old(Valid()) && !(msg.VoteMsg? && msg.to == "") ==> Valid()
    {
      if msg.InitMsg? || msg.PhaseMsg? || msg.RoleMapMsg? || msg.Death? || msg.ReplayData? || msg.ReviewMsg? {
        ApplyTableMessage(msg);
      } else if msg.Thinking? || msg.SpeechStart? || msg.Speech? || msg.VoteMsg? || msg.VoteEnd? {
        ApplyTalkMessage(msg);
      } else if msg.RoleMsg? || msg.NightSkillMsg? || msg.NightActionAck? {
        ApplyNightMessage(msg);
      }
    }
  }
}
