/**
 * The game session of backend/run_server.py: the `GAME` record together with
 * the seats (`PLAYERS`), the role table (`ROLES`) and the set of seats with a
 * live connection. Sending an event is an append to the timeline; private
 * messages, sleeps and sockets are not part of the model. Client messages that
 * arrive while a phase waits for input are given to each phase as a sequence.
 */
module Session {
  import opened Wrappers
  import opened Seqs
  import opened Dicts
  import opened Protocol
  import opened Roster
  import opened Night
  import opened Tally

  /** A decoded client message; `OtherIn` stands for unknown types and text that is not JSON. */
  datatype Inbound =
    | SpeechIn(text: string)
    | VoteIn(to: Option<string>)
    | SheriffVoteIn(to: Option<string>)
    | NightActionIn(actionType: Option<string>, target: Option<string>)
    | OtherIn

  /** A message from the connection of seat `from`. */
  datatype Post = Post(from: string, msg: Inbound)

  /** The messages that arrive while each phase of a round waits for input. */
  datatype RoundInbox = RoundInbox(night: seq<Post>, day: seq<Post>, sheriff: seq<Post>, vote: seq<Post>)

  const MaxRounds := 3
  const AiSpeech := "I want to hear everyone first."
  const CannedReviews := map["P2" := Review("Stay quiet early.", "Voted too fast.")]

  /** A ballot's target: "ABSTAIN" is stored as no target. */
  function VoteTarget(to: Option<string>): (t: Option<string>)
    ensures t != Some("ABSTAIN")
    ensures to != Some("ABSTAIN") ==> t == to
  {
    if to == Some("ABSTAIN") then None else to
  }

  /** The target a vote event shows: `to_id or "ABSTAIN"`. */
  function Shown(t: Option<string>): string {
    if Truthy(t) then t.value else "ABSTAIN"
  }

  /** The ballot a `VOTE` message casts. */
  function VoteBallot(m: Inbound): Option<Option<string>> {
    if m.VoteIn? then Some(VoteTarget(m.to)) else None
  }

  /** The ballot a `SHERIFF_VOTE` message casts. */
  function SheriffBallot(m: Inbound): Option<Option<string>> {
    if m.SheriffVoteIn? then Some(VoteTarget(m.to)) else None
  }

  /** The action a `NIGHT_ACTION` message submits: only one with a non-empty action type. */
  function ActionOf(m: Inbound): Option<NightAction> {
    if m.NightActionIn? && Truthy(m.actionType) then Some(NightAction(m.actionType.value, m.target)) else None
  }

  /** One message stored into a table under its sender, when `f` reads an entry from it. */
  function Recorded<V>(d: Dict<V>, p: Post, f: Inbound -> Option<V>): Dict<V> {
    match f(p.msg)
    case Some(v) => Put(d, p.from, v)
    case None => d
  }

  /** A sequence of messages stored one after the other. */
  function Record<V>(d: Dict<V>, inbox: seq<Post>, f: Inbound -> Option<V>): Dict<V> {
    if inbox == [] then d else Recorded(Record(d, inbox[..|inbox| - 1], f), inbox[|inbox| - 1], f)
  }

  /** Storing messages keeps one entry per sender. */
  lemma {:induction false} RecordDistinct<V>(d: Dict<V>, inbox: seq<Post>, f: Inbound -> Option<V>)
    requires DistinctKeys(d)
    ensures DistinctKeys(Record(d, inbox, f))
  {
    if inbox != [] {
      var prev := Record(d, inbox[..|inbox| - 1], f);
      var p := inbox[|inbox| - 1];
      RecordDistinct(d, inbox[..|inbox| - 1], f);
      if f(p.msg).Some? {
        PutDistinct(prev, p.from, f(p.msg).value);
      }
    }
  }

  /** Position `i` holds the sender's last message from which `f` reads an entry. */
  ghost predicate LatestFrom<V>(inbox: seq<Post>, f: Inbound -> Option<V>, pid: string, i: int) {
    0 <= i < |inbox| && inbox[i].from == pid && f(inbox[i].msg).Some? &&
    forall j :: i < j < |inbox| ==> inbox[j].from != pid || f(inbox[j].msg).None?
  }

  /** A table holds each sender's latest entry: a player who votes twice has only the second vote counted. */
  lemma {:induction false} RecordKeepsLatest<V>(d: Dict<V>, inbox: seq<Post>, f: Inbound -> Option<V>, pid: string, i: int)
    requires LatestFrom(inbox, f, pid, i)
    ensures Get(Record(d, inbox, f), pid) == f(inbox[i].msg)
  {
    var n := |inbox| - 1;
    var init := inbox[..n];
    if i < n {
      assert LatestFrom(init, f, pid, i);
      RecordKeepsLatest(d, init, f, pid, i);
    }
  }

  /** A player who sent no such message keeps the entry the table had before. */
  lemma {:induction false} RecordKeepsSilent<V>(d: Dict<V>, inbox: seq<Post>, f: Inbound -> Option<V>, pid: string)
    requires forall i :: 0 <= i < |inbox| && inbox[i].from == pid ==> f(inbox[i].msg).None?
    ensures Get(Record(d, inbox, f), pid) == Get(d, pid)
  {
    if inbox != [] {
      var init := inbox[..|inbox| - 1];
      assert forall i :: 0 <= i < |init| ==> init[i] == inbox[i];
      RecordKeepsSilent(d, init, f, pid);
    }
  }

  /** The public event one client message produces in a phase: speeches and votes are echoed, night actions are not. */
  function Echo(p: Post, phase: Phase): (es: seq<Msg>)
    ensures |es| <= 1
  {
    match p.msg
    case SpeechIn(text) => if phase == Day then [Speech(p.from, text)] else []
    case VoteIn(to) => if phase == Vote then [VoteMsg(p.from, Shown(VoteTarget(to)))] else []
    case SheriffVoteIn(to) => if phase == Sheriff then [SheriffVoteMsg(p.from, Shown(VoteTarget(to)))] else []
    case _ => []
  }

  /** The public events a sequence of client messages produces. */
  function Echoes(inbox: seq<Post>, phase: Phase): (es: seq<Msg>)
    ensures |es| <= |inbox|
  {
    if inbox == [] then [] else Echoes(inbox[..|inbox| - 1], phase) + Echo(inbox[|inbox| - 1], phase)
  }

  /** Outside the day, the sheriff election and the vote, nothing a client sends reaches the timeline. */
  lemma {:induction false} QuietPhases(inbox: seq<Post>, phase: Phase)
    requires phase != Day && phase != Sheriff && phase != Vote
    ensures Echoes(inbox, phase) == []
  {
    if inbox != [] {
      QuietPhases(inbox[..|inbox| - 1], phase);
    }
  }

  /** The seats of `ids`, in order, that have no connection: the ones the server plays itself. */
  function Unconnected(ids: seq<string>, connected: set<string>): (r: seq<string>)
    ensures |r| <= |ids|
  {
    if ids == [] then []
    else
      var init := Unconnected(ids[..|ids| - 1], connected);
      if ids[|ids| - 1] in connected then init else init + [ids[|ids| - 1]]
  }

  /** The server plays exactly the seats without a connection. */
  lemma {:induction false} UnconnectedMembers(ids: seq<string>, connected: set<string>)
    ensures forall x :: x in Unconnected(ids, connected) <==> x in ids && x !in connected
  {
    if ids != [] {
      var init := ids[..|ids| - 1];
      UnconnectedMembers(init, connected);
      assert forall x :: x in ids <==> x in init || x == ids[|ids| - 1];
    }
  }

  /** A seat without a connection extends the server-played seats by itself. */
  lemma UnconnectedAdd(ids: seq<string>, i: int, connected: set<string>)
    requires 0 <= i < |ids| && ids[i] !in connected
    ensures Unconnected(ids[..i + 1], connected) == Unconnected(ids[..i], connected) + [ids[i]]
  {
    assert ids[..i + 1][..i] == ids[..i];
  }

  /** A connected seat leaves the server-played seats as they were. */
  lemma UnconnectedSkip(ids: seq<string>, i: int, connected: set<string>)
    requires 0 <= i < |ids| && ids[i] in connected
    ensures Unconnected(ids[..i + 1], connected) == Unconnected(ids[..i], connected)
  {
    assert ids[..i + 1][..i] == ids[..i];
  }

  /** Every seat of `pids` casts the same ballot, in order. */
  function PutAll<V>(d: Dict<V>, pids: seq<string>, v: V): Dict<V> {
    if pids == [] then d else Put(PutAll(d, pids[..|pids| - 1], v), pids[|pids| - 1], v)
  }

  /** The server-played ballots keep one entry per seat. */
  lemma {:induction false} PutAllDistinct<V>(d: Dict<V>, pids: seq<string>, v: V)
    requires DistinctKeys(d)
    ensures DistinctKeys(PutAll(d, pids, v))
  {
    if pids != [] {
      PutAllDistinct(d, pids[..|pids| - 1], v);
      PutDistinct(PutAll(d, pids[..|pids| - 1], v), pids[|pids| - 1], v);
    }
  }

  /** After the server-played ballots, each of those seats holds the ballot, and every other seat keeps its entry. */
  lemma {:induction false} PutAllGet<V>(d: Dict<V>, pids: seq<string>, v: V, x: string)
    ensures Get(PutAll(d, pids, v), x) == if x in pids then Some(v) else Get(d, x)
  {
    if pids != [] {
      var init := pids[..|pids| - 1];
      PutAllGet(d, init, v, x);
      assert x in pids <==> x in init || x == pids[|pids| - 1];
    }
  }

  /** The vote events of the server-played seats. */
  function AiVoteEvents(pids: seq<string>, shown: string, sheriff: bool): (es: seq<Msg>)
    ensures |es| == |pids|
  {
    if pids == [] then []
    else
      var p := pids[|pids| - 1];
      AiVoteEvents(pids[..|pids| - 1], shown, sheriff) + [if sheriff then SheriffVoteMsg(p, shown) else VoteMsg(p, shown)]
  }

  /** One more server-played seat adds its ballot last. */
  lemma PutAllSnoc<V>(d: Dict<V>, pids: seq<string>, p: string, v: V)
    ensures PutAll(d, pids + [p], v) == Put(PutAll(d, pids, v), p, v)
  {
    assert (pids + [p])[..|pids|] == pids;
  }

  /** One more server-played seat adds its vote event last. */
  lemma AiVoteEventsSnoc(pids: seq<string>, p: string, shown: string, sheriff: bool)
    ensures AiVoteEvents(pids + [p], shown, sheriff) ==
      AiVoteEvents(pids, shown, sheriff) + [if sheriff then SheriffVoteMsg(p, shown) else VoteMsg(p, shown)]
  {
    assert (pids + [p])[..|pids|] == pids;
  }

  /** The three events of each server-played speech: thinking, speech start, and the fixed speech. */
  function AiSpeeches(pids: seq<string>): (es: seq<Msg>)
    ensures |es| == 3 * |pids|
  {
    if pids == [] then []
    else
      var p := pids[|pids| - 1];
      AiSpeeches(pids[..|pids| - 1]) + [Thinking(p), SpeechStart(p), Speech(p, AiSpeech)]
  }

  /** Each server-played seat speaks once, in seat order: its three events sit at positions 3k, 3k+1 and 3k+2. */
  lemma {:induction false} AiSpeechesAt(pids: seq<string>, k: int)
    requires 0 <= k < |pids|
    ensures AiSpeeches(pids)[3 * k] == Thinking(pids[k])
    ensures AiSpeeches(pids)[3 * k + 1] == SpeechStart(pids[k])
    ensures AiSpeeches(pids)[3 * k + 2] == Speech(pids[k], AiSpeech)
  {
    var init := pids[..|pids| - 1];
    if k < |init| {
      AiSpeechesAt(init, k);
      assert init[k] == pids[k];
    }
  }

  /** The `DEATH` events of a list of seats. */
  function DeathNotices(ids: seq<string>): (es: seq<Msg>)
    ensures |es| == |ids|
  {
    if ids == [] then [] else DeathNotices(ids[..|ids| - 1]) + [Death(ids[|ids| - 1])]
  }

  /** The event that closes a sheriff election. */
  function SheriffEvent(t: TallyResult): Msg {
    match t
    case NoVotes => SheriffNone
    case Tie => SheriffTie
    case Elected(p) => SheriffMsg(p)
  }

  /** The record once night `r` has begun and its actions `inbox` are stored. */
  function Opened(g: Game, r: int, inbox: seq<Post>): Game {
    g.(phase := Night, night := r, nightActions := Record([], inbox, ActionOf))
  }

  /** What the night resolves to for a record whose night actions are in. */
  function NightOutcome(g: Game, roles: map<string, Role>): NightResult {
    ResolveNight(Submitted(g.nightActions, g.roster, roles), g.roster, roles, g.lastGuardTarget, g.saveLeft, g.poisonLeft)
  }

  /** The record once the night is resolved: the guard target and the potions it leaves. */
  function Closed(g: Game, res: NightResult): Game {
    g.(lastGuardTarget := res.guard, saveLeft := res.saveLeft, poisonLeft := res.poisonLeft)
  }

  /** The public events of night `r`: the phase change and the acknowledgement. */
  function NightEvents(r: int, res: NightResult): seq<Msg> {
    [PhaseMsg(Night), NightActionAck(Some(r), Some(Summary(res)), None, None, None)]
  }

  /** The events of a day whose survivors are `alive`. */
  function DayEvents(deaths: seq<string>, alive: seq<string>, connected: set<string>, inbox: seq<Post>): seq<Msg> {
    [PhaseMsg(Day)] + DeathNotices(deaths) + AiSpeeches(Unconnected(alive, connected)) + Echoes(inbox, Day)
  }

  /** The events of a sheriff election among the living seats `alive`. */
  function SheriffEvents(alive: seq<string>, connected: set<string>, inbox: seq<Post>, tally: TallyResult): seq<Msg> {
    [PhaseMsg(Sheriff)] + AiVoteEvents(Unconnected(alive, connected), Shown(Head(alive)), true) +
      Echoes(inbox, Sheriff) + [SheriffEvent(tally)]
  }

  /** The events of a vote among the living seats `alive`, up to its result. */
  function VoteEvents(alive: seq<string>, connected: set<string>, inbox: seq<Post>, tally: TallyResult): seq<Msg> {
    [PhaseMsg(Vote)] + AiVoteEvents(Unconnected(alive, connected), Shown(Head(alive)), false) +
      Echoes(inbox, Vote) + (if tally == Tie then [VoteEnd, VoteTie] else [VoteEnd])
  }

  /** The `DEATH` event of an execution, if there is one. */
  function Execution(execute: Option<string>): seq<Msg> {
    if execute.Some? then [Death(execute.value)] else []
  }

  /** The sheriff ballots of an election among `alive`: the server-played seats' first, then the clients'. */
  function SheriffTable(alive: seq<string>, connected: set<string>, inbox: seq<Post>): Ballots {
    Record(PutAll([], Unconnected(alive, connected), Head(alive)), inbox, SheriffBallot)
  }

  /** The ballots of a vote among `alive`: the server-played seats' first, then the clients'. */
  function VoteTable(alive: seq<string>, connected: set<string>, inbox: seq<Post>): Ballots {
    Record(PutAll([], Unconnected(alive, connected), Head(alive)), inbox, VoteBallot)
  }

  /** The record after the night of round `r` and the day after it. */
  function AfterDay(g: Game, r: int, night: seq<Post>, roles: map<string, Role>): Game {
    var night0 := Opened(g, r, night);
    var res := NightOutcome(night0, roles);
    Closed(night0, res).(phase := Day, day := r + 1, roster := KillAll(g.roster, res.deaths))
  }

  /** The events of the night of round `r` and of the day after it. */
  function DayLog(g: Game, r: int, night: seq<Post>, day: seq<Post>, roles: map<string, Role>, connected: set<string>): seq<Msg> {
    var res := NightOutcome(Opened(g, r, night), roles);
    NightEvents(r, res) + DayEvents(res.deaths, LivingIds(KillAll(g.roster, res.deaths)), connected, day)
  }

  /** The record after the sheriff step of a round: an election is held only while there is no sheriff. */
  ghost function Elect(g: Game, connected: set<string>, inbox: seq<Post>): Game {
    if g.sheriffId.Some? then g
    else
      var table := SheriffTable(LivingIds(g.roster), connected, inbox);
      var t := TallyOf(table, None);
      g.(phase := Sheriff, sheriffVotes := table, sheriffId := if t.Elected? then Some(t.target) else None)
  }

  /** The events of the sheriff step of a round. */
  ghost function ElectLog(g: Game, connected: set<string>, inbox: seq<Post>): seq<Msg> {
    if g.sheriffId.Some? then []
    else
      var alive := LivingIds(g.roster);
      SheriffEvents(alive, connected, inbox, TallyOf(SheriffTable(alive, connected, inbox), None))
  }

  /** The record after a vote and the execution it names. */
  ghost function Eliminate(g: Game, connected: set<string>, inbox: seq<Post>): Game {
    var table := VoteTable(LivingIds(g.roster), connected, inbox);
    var t := TallyOf(table, g.sheriffId);
    g.(phase := Vote, votes := table, roster := if t.Elected? then KillFirst(g.roster, t.target) else g.roster)
  }

  /** The events of a vote and of the execution it names. */
  ghost function EliminateLog(g: Game, connected: set<string>, inbox: seq<Post>): seq<Msg> {
    var alive := LivingIds(g.roster);
    var t := TallyOf(VoteTable(alive, connected, inbox), g.sheriffId);
    VoteEvents(alive, connected, inbox, t) + Execution(if t.Elected? then Some(t.target) else None)
  }

  /** The record after round `r`: the sheriff step and the vote follow only a day that decides nothing. */
  ghost function AfterRound(g: Game, r: int, inbox: RoundInbox, roles: map<string, Role>, connected: set<string>): Game {
    var d := AfterDay(g, r, inbox.night, roles);
    if CheckWin(d.roster, roles).Some? then d
    else Eliminate(Elect(d, connected, inbox.sheriff), connected, inbox.vote)
  }

  /** The events of round `r`. */
  ghost function RoundLog(g: Game, r: int, inbox: RoundInbox, roles: map<string, Role>, connected: set<string>): seq<Msg> {
    var d := AfterDay(g, r, inbox.night, roles);
    DayLog(g, r, inbox.night, inbox.day, roles, connected) +
      if CheckWin(d.roster, roles).Some? then []
      else ElectLog(d, connected, inbox.sheriff) + EliminateLog(Elect(d, connected, inbox.sheriff), connected, inbox.vote)
  }

  /** The messages of round `r`; a round without its own inbox receives nothing. */
  function InboxAt(inboxes: seq<RoundInbox>, r: int): RoundInbox {
    if 0 <= r < |inboxes| then inboxes[r] else RoundInbox([], [], [], [])
  }

  /** The record after some rounds, their events and each round's win check. */
  datatype Played = Played(game: Game, events: seq<Msg>, checks: seq<Option<Outcome>>)

  /** The two events that end `game_loop` after the events `log`: the replay of their timeline, then the canned review. */
  function Ending(log: seq<Msg>): seq<Msg> {
    [ReplayData(Stamp(log), map[], None, None), ReviewMsg(CannedReviews)]
  }

  /** The record, the events and the win check of one round. */
  datatype RoundResult = RoundResult(game: Game, events: seq<Msg>, check: Option<Outcome>)

  /** Whether the rounds `p` ended with a win. */
  predicate Won(p: Played) {
    p.checks != [] && p.checks[|p.checks| - 1].Some?
  }

  /**
   * The rounds `k`, `k + 1`, ... before round `n`, played by `round` after the
   * rounds `p`: none once `p` is won or round `n` is reached.
   */
  ghost function Rounds(p: Played, k: nat, n: nat, round: (Game, nat) -> RoundResult): Played
    decreases n - k, 1
  {
    if k >= n || Won(p) then p else Next(p, k, n, round)
  }

  /** Round `k`, played by `round` after the rounds `p` and followed by its win check, then the rounds after it. */
  ghost function Next(p: Played, k: nat, n: nat, round: (Game, nat) -> RoundResult): Played
    requires k < n
    decreases n - k, 0
  {
    var o := round(p.game, k);
    Rounds(Played(o.game, p.events + o.events, p.checks + [o.check]), k + 1, n, round)
  }

  /** One round of `game_loop`, with the messages `inboxes` holds for it. */
  ghost function RoundOf(inboxes: seq<RoundInbox>, roles: map<string, Role>, connected: set<string>): (Game, nat) -> RoundResult {
    (g: Game, r: nat) =>
      var next := AfterRound(g, r, InboxAt(inboxes, r), roles, connected);
      RoundResult(next, RoundLog(g, r, InboxAt(inboxes, r), roles, connected), CheckWin(next.roster, roles))
  }

  /** The win check of `check_win` on a record. */
  function WinOf(roles: map<string, Role>): Game -> Option<Outcome> {
    (g: Game) => CheckWin(g.roster, roles)
  }

  /** The rounds of `game_loop` from the record `g`: at most `MaxRounds`, stopping at the first win. */
  ghost function Play(g: Game, inboxes: seq<RoundInbox>, roles: map<string, Role>, connected: set<string>): Played {
    Rounds(Played(g, [], []), 0, MaxRounds, RoundOf(inboxes, roles, connected))
  }

  /**
   * The sheriff step holds an election only while there is no sheriff, and
   * then elects exactly the target that outweighs every other; it never
   * changes the seats.
   */
  lemma ElectFacts(g: Game, connected: set<string>, inbox: seq<Post>)
    ensures g.sheriffId.Some? ==> Elect(g, connected, inbox) == g && ElectLog(g, connected, inbox) == []
    ensures var e := Elect(g, connected, inbox);
      g.sheriffId.None? ==>
        e.sheriffVotes == SheriffTable(LivingIds(g.roster), connected, inbox) &&
        (e.sheriffId.Some? <==> exists t :: UniqueTop(e.sheriffVotes, None, t)) &&
        (e.sheriffId.Some? ==> UniqueTop(e.sheriffVotes, None, e.sheriffId.value))
    ensures Elect(g, connected, inbox).roster == g.roster
  {
  }

  /**
   * A vote executes exactly the target that outweighs every other, the
   * sheriff's ballot counting twice, and kills nobody without one.
   */
  lemma EliminateFacts(g: Game, connected: set<string>, inbox: seq<Post>)
    ensures Eliminate(g, connected, inbox).votes == VoteTable(LivingIds(g.roster), connected, inbox)
    ensures var e := Eliminate(g, connected, inbox);
      forall t :: UniqueTop(e.votes, g.sheriffId, t) ==> e.roster == KillFirst(g.roster, t)
    ensures var e := Eliminate(g, connected, inbox);
      (forall t :: !UniqueTop(e.votes, g.sheriffId, t)) ==> e.roster == g.roster
  {
    var e := Eliminate(g, connected, inbox);
    forall t | UniqueTop(e.votes, g.sheriffId, t) ensures e.roster == KillFirst(g.roster, t) {
      UniqueTopUnique(e.votes, g.sheriffId, t, TallyOf(e.votes, g.sheriffId).target);
    }
  }

  /** A round moves the counters to night `r` and day `r + 1`, keeps a sheriff, and gives no potion back. */
  lemma RoundFacts(g: Game, r: int, inbox: RoundInbox, roles: map<string, Role>, connected: set<string>)
    ensures var n := AfterRound(g, r, inbox, roles, connected);
      n.night == r && n.day == r + 1 &&
      (g.sheriffId.Some? ==> n.sheriffId == g.sheriffId) &&
      (n.saveLeft ==> g.saveLeft) && (n.poisonLeft ==> g.poisonLeft)
  {
  }

  /**
   * A day that decides the game ends its round: neither a sheriff election
   * nor a vote follows. After a day that decides nothing, the round goes on
   * with the election's phase event while there is no sheriff, and with the
   * vote's otherwise.
   */
  lemma RoundStopsAtDayWin(g: Game, r: int, inbox: RoundInbox, roles: map<string, Role>, connected: set<string>)
    ensures var d := AfterDay(g, r, inbox.night, roles);
      CheckWin(d.roster, roles).Some? ==>
        AfterRound(g, r, inbox, roles, connected) == d &&
        RoundLog(g, r, inbox, roles, connected) == DayLog(g, r, inbox.night, inbox.day, roles, connected)
    ensures var d := AfterDay(g, r, inbox.night, roles);
      var days := DayLog(g, r, inbox.night, inbox.day, roles, connected);
      var all := RoundLog(g, r, inbox, roles, connected);
      CheckWin(d.roster, roles).None? ==>
        |all| > |days| && all[..|days|] == days &&
        all[|days|] == if g.sheriffId.None? then PhaseMsg(Sheriff) else PhaseMsg(Vote)
  {
    var d := AfterDay(g, r, inbox.night, roles);
    var days := DayLog(g, r, inbox.night, inbox.day, roles, connected);
    if CheckWin(d.roster, roles).Some? {
      assert days + [] == days;
    } else {
      var rest := ElectLog(d, connected, inbox.sheriff) + EliminateLog(Elect(d, connected, inbox.sheriff), connected, inbox.vote);
      assert RoundLog(g, r, inbox, roles, connected) == days + rest;
      assert rest[0] == if g.sheriffId.None? then PhaseMsg(Sheriff) else PhaseMsg(Vote);
    }
  }

  /**
   * After rounds that found no winner and before round `n`, the rest of the
   * game is round `k`, extending them by its events and its check, and then
   * the rounds after it.
   */
  lemma RoundsNext(p: Played, k: nat, n: nat, round: (Game, nat) -> RoundResult, o: RoundResult)
    requires k < n && !Won(p) && round(p.game, k) == o
    ensures Rounds(p, k, n, round) == Rounds(Played(o.game, p.events + o.events, p.checks + [o.check]), k + 1, n, round)
  {
  }

  /** Once the rounds are won, or round `n` is reached, no round is played. */
  lemma RoundsStop(p: Played, k: nat, n: nat, round: (Game, nat) -> RoundResult)
    requires k >= n || Won(p)
    ensures Rounds(p, k, n, round) == p
  {
  }

  /** What a round promises: its win check is the check of its record, it moves the counters by one, keeps a sheriff and gives no potion back. */
  ghost predicate RoundKeeps(round: (Game, nat) -> RoundResult, win: Game -> Option<Outcome>) {
    forall h: Game, k: nat ::
      round(h, k).check == win(round(h, k).game) &&
      round(h, k).game.night == k && round(h, k).game.day == k + 1 &&
      (h.sheriffId.Some? ==> round(h, k).game.sheriffId == h.sheriffId) &&
      (round(h, k).game.saveLeft ==> h.saveLeft) && (round(h, k).game.poisonLeft ==> h.poisonLeft)
  }

  /** Every round of `game_loop` keeps what a round promises. */
  lemma RoundOfKeeps(inboxes: seq<RoundInbox>, roles: map<string, Role>, connected: set<string>)
    ensures RoundKeeps(RoundOf(inboxes, roles, connected), WinOf(roles))
  {
    var round := RoundOf(inboxes, roles, connected);
    forall h: Game, k: nat
      ensures round(h, k).check == WinOf(roles)(round(h, k).game) &&
        round(h, k).game.night == k && round(h, k).game.day == k + 1 &&
        (h.sheriffId.Some? ==> round(h, k).game.sheriffId == h.sheriffId) &&
        (round(h, k).game.saveLeft ==> h.saveLeft) && (round(h, k).game.poisonLeft ==> h.poisonLeft)
    {
      RoundFacts(h, k, InboxAt(inboxes, k), roles, connected);
    }
  }

  /**
   * After `k` rounds that found no winner and before round `n`, the rounds
   * stop at the first win: at least one more round is played and at most up
   * to round `n`; every check but the last finds no winner, the last is the
   * check of the final record, and without a winner the rounds go on to
   * round `n`. The counters end at the last round played; a sheriff stays
   * and no potion comes back.
   */
  lemma {:induction false} RoundsFacts(p: Played, k: nat, n: nat, round: (Game, nat) -> RoundResult, win: Game -> Option<Outcome>)
    requires k < n && RoundKeeps(round, win)
    requires |p.checks| == k && forall j :: 0 <= j < k ==> p.checks[j].None?
    ensures var q := Rounds(p, k, n, round);
      k + 1 <= |q.checks| <= n &&
      (forall j :: 0 <= j < |q.checks| - 1 ==> q.checks[j].None?) &&
      q.checks[|q.checks| - 1] == win(q.game) &&
      (q.checks[|q.checks| - 1].None? ==> |q.checks| == n) &&
      q.game.day == |q.checks| && q.game.night == q.game.day - 1
    ensures var q := Rounds(p, k, n, round);
      (p.game.sheriffId.Some? ==> q.game.sheriffId == p.game.sheriffId) &&
      (q.game.saveLeft ==> p.game.saveLeft) && (q.game.poisonLeft ==> p.game.poisonLeft)
    decreases n - k
  {
    var o := round(p.game, k);
    var next := Played(o.game, p.events + o.events, p.checks + [o.check]);
    RoundsNext(p, k, n, round, o);
    if k + 1 < n && o.check.None? {
      RoundsFacts(next, k + 1, n, round, win);
    }
  }

  /**
   * The rounds of `game_loop` stop at the first win: at most three are
   * played, every check but the last finds no winner, the last is the check
   * of the final seats, and a game without a winner plays all three rounds.
   * A sheriff stays and no potion comes back.
   */
  lemma PlayFacts(g: Game, inboxes: seq<RoundInbox>, roles: map<string, Role>, connected: set<string>, game: Game, checks: seq<Option<Outcome>>)
    requires game == Play(g, inboxes, roles, connected).game && checks == Play(g, inboxes, roles, connected).checks
    ensures |checks| == game.day && 1 <= game.day <= MaxRounds && game.night == game.day - 1
    ensures forall j :: 0 <= j < |checks| - 1 ==> checks[j].None?
    ensures checks[|checks| - 1] == CheckWin(game.roster, roles)
    ensures checks[|checks| - 1].None? ==> game.day == MaxRounds
    ensures g.sheriffId.Some? ==> game.sheriffId == g.sheriffId
    ensures game.saveLeft ==> g.saveLeft
    ensures game.poisonLeft ==> g.poisonLeft
  {
    RoundOfKeeps(inboxes, roles, connected);
    RoundsFacts(Played(g, [], []), 0, MaxRounds, RoundOf(inboxes, roles, connected), WinOf(roles));
    assert WinOf(roles)(game) == CheckWin(game.roster, roles);
  }

  /** One more message is recorded after the ones before it. */
  lemma RecordStep<V>(d: Dict<V>, inbox: seq<Post>, i: int, f: Inbound -> Option<V>)
    requires 0 <= i < |inbox|
    ensures Record(d, inbox[..i + 1], f) == Recorded(Record(d, inbox[..i], f), inbox[i], f)
  {
    assert inbox[..i + 1][..i] == inbox[..i];
  }

  /** One more message's echo follows the echoes of the ones before it. */
  lemma EchoesStep(inbox: seq<Post>, i: int, phase: Phase)
    requires 0 <= i < |inbox|
    ensures Echoes(inbox[..i + 1], phase) == Echoes(inbox[..i], phase) + Echo(inbox[i], phase)
  {
    assert inbox[..i + 1][..i] == inbox[..i];
  }

  /** One more death is marked and announced after the ones before it. */
  lemma DeathStep(roster: seq<Seat>, deaths: seq<string>, i: int)
    requires 0 <= i < |deaths|
    ensures KillAll(roster, deaths[..i + 1]) == KillFirst(KillAll(roster, deaths[..i]), deaths[i])
    ensures DeathNotices(deaths[..i + 1]) == DeathNotices(deaths[..i]) + [Death(deaths[i])]
  {
    assert deaths[..i + 1][..i] == deaths[..i];
  }

  lemma Assoc(a: seq<Msg>, b: seq<Msg>, c: seq<Msg>)
    ensures a + b + c == a + (b + c)
  {
  }

  /** Four parts appended one after the other to a log are one appended block. */
  lemma Assoc4(log: seq<Msg>, a: seq<Msg>, b: seq<Msg>, c: seq<Msg>, d: seq<Msg>)
    ensures log + a + b + c + d == log + (a + b + c + d)
  {
    Assoc(log, a, b);
    Assoc(log, a + b, c);
    Assoc(log, a + b + c, d);
  }

  /** A round that leaves no result is followed by one more: all rounds but the last stay undecided. */
  lemma ChecksStep(checks: seq<Option<Outcome>>, next: Option<Outcome>)
    requires forall j :: 0 <= j < |checks| - 1 ==> checks[j].None?
    requires checks != [] ==> checks[|checks| - 1].None?
    ensures forall j :: 0 <= j < |checks| ==> (checks + [next])[j].None?
  {
  }

  /**
   * The timeline of a sequence of sent events: each event, in turn, is
   * appended stamped with its position as its tick.
   */
  function Stamp(log: seq<Msg>): (t: seq<Entry>)
    ensures |t| == |log|
  {
    if log == [] then [] else Stamp(log[..|log| - 1]) + [Entry(|log| - 1, log[|log| - 1])]
  }

  /** The entry at each position carries that position as its tick and the event sent at that position. */
  lemma {:induction false} StampAt(log: seq<Msg>)
    ensures forall i :: 0 <= i < |log| ==> Stamp(log)[i] == Entry(i, log[i])
  {
    if log != [] {
      var init := log[..|log| - 1];
      StampAt(init);
      assert forall i :: 0 <= i < |init| ==> init[i] == log[i];
    }
  }

  /** Sending more events never rewrites the timeline: the earlier timeline is a prefix of the later one. */
  lemma StampPrefix(log: seq<Msg>, more: seq<Msg>)
    ensures Stamp(log) <= Stamp(log + more)
  {
    StampAt(log);
    StampAt(log + more);
    assert Stamp(log + more)[..|log|] == Stamp(log);
  }

  /**
   * The part of the `GAME` record the game changes as it runs, with the seats
   * (`PLAYERS`), whose alive flags it changes: the phase, the vote and sheriff
   * vote tables, the sheriff, the night and day counters, the guard's last
   * target, the witch's potions and the night actions.
   */
  datatype Game = Game(
    roster: seq<Seat>, phase: Phase,
    votes: Ballots, sheriffVotes: Ballots, sheriffId: Option<string>,
    night: int, day: int, lastGuardTarget: Option<string>,
    saveLeft: bool, poisonLeft: bool, nightActions: Dict<NightAction>)

  /**
   * A running game: the game record, and the tick and timeline of the events
   * sent so far. Each method states the fields of the record it sets.
   */
  class Session {
    const roles: map<string, Role>
    const connected: set<string>
    var state: Game
    var tick: nat
    var timeline: seq<Entry>
    /** The events sent so far, in order; the timeline stamps them with their ticks. */
    ghost var log: seq<Msg>

    /** The tick counter counts the events sent, and the timeline is their stamped record. */
    ghost predicate Valid()
      reads this`tick, this`timeline, this`log
    {
      tick == |log| && timeline == Stamp(log)
    }

    /** The initial `GAME` record over the given seats, roles and connections. */
    constructor (roster: seq<Seat>, roles: map<string, Role>, connected: set<string>)
      ensures Valid() && log == [] && tick == 0 && timeline == []
      ensures this.roles == roles && this.connected == connected
      ensures state == Game(roster, Init, [], [], None, 0, 0, None, true, true, [])
    {
      this.roles := roles;
      this.connected := connected;
      state := Game(roster, Init, [], [], None, 0, 0, None, true, true, []);
      tick := 0;
      timeline := [];
      log := [];
    }

    /** `send_event`: the event is logged under the current tick, and the tick moves on by one. */
    method SendEvent(e: Msg)
      requires Valid()
      modifies this`tick, this`timeline, this`log
      ensures Valid()
      ensures log == old(log) + [e]
      ensures tick == old(tick) + 1 && timeline == old(timeline) + [Entry(old(tick), e)]
    {
      var t := tick;
      tick := t + 1;
      timeline := timeline + [Entry(t, e)];
      log := log + [e];
      assert log[..|log| - 1] == old(log);
    }

    /**
     * One client message: a speech in the day, a vote in the vote, a sheriff
     * vote in the sheriff election and a night action with a non-empty type in
     * the night are recorded (and, except for night actions, broadcast); any
     * other message in any phase changes nothing.
     */
    method HandleClientMessage(p: Post)
      requires Valid()
      modifies this`state, this`tick, this`timeline, this`log
      ensures Valid()
      ensures log == old(log) + Echo(p, state.phase)
      ensures state.phase == Vote ==> state.votes == Recorded(old(state.votes), p, VoteBallot)
      ensures state.phase != Vote ==> state.votes == old(state.votes)
      ensures state.phase == Sheriff ==> state.sheriffVotes == Recorded(old(state.sheriffVotes), p, SheriffBallot)
      ensures state.phase != Sheriff ==> state.sheriffVotes == old(state.sheriffVotes)
      ensures state.phase == Night ==> state.nightActions == Recorded(old(state.nightActions), p, ActionOf)
      ensures state.phase != Night ==> state.nightActions == old(state.nightActions)
      ensures state == old(state).(votes := state.votes, sheriffVotes := state.sheriffVotes,
        nightActions := state.nightActions)
    {
      var phase := state.phase;
      ghost var g0 := state;
      match p.msg {
        case SpeechIn(text) =>
          if phase == Day {
            SendEvent(Speech(p.from, text));
          }
        case VoteIn(to) =>
          if phase == Vote {
            var table := CastVote(p.from, to, false);
            state := state.(votes := table);
          }
          assert state == g0.(votes := state.votes);
        case SheriffVoteIn(to) =>
          if phase == Sheriff {
            var table := CastVote(p.from, to, true);
            state := state.(sheriffVotes := table);
          }
          assert state == g0.(sheriffVotes := state.sheriffVotes);
        case NightActionIn(actionType, target) =>
          if phase == Night && Truthy(actionType) {
            state := state.(nightActions := Put(state.nightActions, p.from, NightAction(actionType.value, target)));
          }
          assert state == g0.(nightActions := state.nightActions);
        case OtherIn =>
      }
    }

    /**
     * A vote or sheriff vote from `pid`: "ABSTAIN" is stored as no target and
     * the vote is broadcast; returns the updated table.
     */
    method CastVote(pid: string, to: Option<string>, sheriff: bool) returns (table: Ballots)
      requires Valid()
      modifies this`tick, this`timeline, this`log
      ensures Valid()
      ensures table == Put(if sheriff then old(state.sheriffVotes) else old(state.votes), pid, VoteTarget(to))
      ensures log == old(log) +
        [if sheriff then SheriffVoteMsg(pid, Shown(VoteTarget(to))) else VoteMsg(pid, Shown(VoteTarget(to)))]
    {
      var target := VoteTarget(to);
      table := Put(if sheriff then state.sheriffVotes else state.votes, pid, target);
      SendEvent(if sheriff then SheriffVoteMsg(pid, Shown(target)) else VoteMsg(pid, Shown(target)));
    }

    /** The messages that arrive while a phase waits, handled in arrival order. */
    method Deliver(inbox: seq<Post>)
      requires Valid()
      modifies this`state, this`tick, this`timeline, this`log
      ensures Valid()
      ensures log == old(log) + Echoes(inbox, state.phase)
      ensures state.phase == Vote ==> state.votes == Record(old(state.votes), inbox, VoteBallot)
      ensures state.phase != Vote ==> state.votes == old(state.votes)
      ensures state.phase == Sheriff ==> state.sheriffVotes == Record(old(state.sheriffVotes), inbox, SheriffBallot)
      ensures state.phase != Sheriff ==> state.sheriffVotes == old(state.sheriffVotes)
      ensures state.phase == Night ==> state.nightActions == Record(old(state.nightActions), inbox, ActionOf)
      ensures state.phase != Night ==> state.nightActions == old(state.nightActions)
      ensures state == old(state).(votes := state.votes, sheriffVotes := state.sheriffVotes,
        nightActions := state.nightActions)
    {
      var phase := state.phase;
      ghost var g0, log0 := state, log;
      var i := 0;
      while i < |inbox|
        invariant 0 <= i <= |inbox|
        invariant Valid()
        invariant log == log0 + Echoes(inbox[..i], phase)
        invariant phase == Vote ==> state.votes == Record(g0.votes, inbox[..i], VoteBallot)
        invariant phase != Vote ==> state.votes == g0.votes
        invariant phase == Sheriff ==> state.sheriffVotes == Record(g0.sheriffVotes, inbox[..i], SheriffBallot)
        invariant phase != Sheriff ==> state.sheriffVotes == g0.sheriffVotes
        invariant phase == Night ==> state.nightActions == Record(g0.nightActions, inbox[..i], ActionOf)
        invariant phase != Night ==> state.nightActions == g0.nightActions
        invariant state == g0.(votes := state.votes, sheriffVotes := state.sheriffVotes,
          nightActions := state.nightActions)
      {
        RecordStep(g0.votes, inbox, i, VoteBallot);
        RecordStep(g0.sheriffVotes, inbox, i, SheriffBallot);
        RecordStep(g0.nightActions, inbox, i, ActionOf);
        EchoesStep(inbox, i, phase);
        Assoc(log0, Echoes(inbox[..i], phase), Echo(inbox[i], phase));
        HandleClientMessage(inbox[i]);
        i := i + 1;
      }
      assert inbox[..i] == inbox;
    }

    /** `mark_dead`: the first seat with the id is marked dead. */
    method MarkDead(id: string)
      modifies this`state
      ensures log == old(log)
      ensures state == old(state).(roster := KillFirst(old(state.roster), id))
    {
      var seats := state.roster;
      var i := 0;
      while i < |seats|
        invariant 0 <= i <= |seats|
        invariant forall j :: 0 <= j < i ==> seats[j].id != id
      {
        if seats[i].id == id {
          assert FirstWithId(seats, id, i);
          state := state.(roster := seats[i := seats[i].(alive := false)]);
          return;
        }
        i := i + 1;
      }
    }

    /** The opening of `run_night`: the night begins with its action table cleared, and the actions sent meanwhile are stored. */
    method OpenNight(inbox: seq<Post>)
      requires Valid()
      modifies this`state, this`tick, this`timeline, this`log
      ensures Valid()
      ensures log == old(log) + [PhaseMsg(Night)]
      ensures state == old(state).(phase := Night, nightActions := Record([], inbox, ActionOf))
    {
      state := state.(phase := Night, nightActions := []);
      SendEvent(PhaseMsg(Night));
      Deliver(inbox);
      QuietPhases(inbox, Night);
    }

    /** The end of `run_night`: the guard target and potions the night leaves, and its public acknowledgement. */
    method ApplyNight(nightIdx: int, r: NightResult)
      requires Valid()
      modifies this`state, this`tick, this`timeline, this`log
      ensures Valid()
      ensures log == old(log) + [NightActionAck(Some(nightIdx), Some(Summary(r)), None, None, None)]
      ensures state == old(state).(lastGuardTarget := r.guard, saveLeft := r.saveLeft, poisonLeft := r.poisonLeft)
    {
      state := state.(lastGuardTarget := r.guard, saveLeft := r.saveLeft, poisonLeft := r.poisonLeft);
      SendEvent(NightActionAck(Some(nightIdx), Some(Summary(r)), None, None, None));
    }

    /**
     * The rest of `run_night`, once the night's actions are in: the
     * submissions are resolved against the potions and the previous guard
     * target, the night is acknowledged publicly and its deaths returned.
     */
    method CloseNight(nightIdx: int) returns (deaths: seq<string>)
      requires Valid()
      modifies this`state, this`tick, this`timeline, this`log
      ensures Valid()
      ensures var g := old(state);
        var r := ResolveNight(Submitted(g.nightActions, g.roster, roles), g.roster, roles, g.lastGuardTarget, g.saveLeft, g.poisonLeft);
        deaths == r.deaths &&
        log == old(log) + [NightActionAck(Some(nightIdx), Some(Summary(r)), None, None, None)] &&
        state == g.(lastGuardTarget := r.guard, saveLeft := r.saveLeft, poisonLeft := r.poisonLeft)
    {
      var g := state;
      var c := CollectSubmissions(g.nightActions, g.roster, roles);
      var r := ResolveNight(c, g.roster, roles, g.lastGuardTarget, g.saveLeft, g.poisonLeft);
      ApplyNight(nightIdx, r);
      deaths := r.deaths;
    }

    /** The first part of `run_day`: each of the night's deaths is marked and announced, in order. */
    method AnnounceDeaths(deaths: seq<string>)
      requires Valid()
      modifies this`state, this`tick, this`timeline, this`log
      ensures Valid()
      ensures log == old(log) + DeathNotices(deaths)
      ensures state == old(state).(roster := KillAll(old(state.roster), deaths))
    {
      ghost var g0, log0 := state, log;
      var i := 0;
      while i < |deaths|
        invariant 0 <= i <= |deaths|
        invariant Valid()
        invariant log == log0 + DeathNotices(deaths[..i])
        invariant state == g0.(roster := KillAll(g0.roster, deaths[..i]))
      {
        DeathStep(g0.roster, deaths, i);
        Assoc(log0, DeathNotices(deaths[..i]), [Death(deaths[i])]);
        MarkDead(deaths[i]);
        SendEvent(Death(deaths[i]));
        i := i + 1;
      }
      assert deaths[..i] == deaths;
    }

    /** The three events of one server-played speech. */
    method Speak(pid: string)
      requires Valid()
      modifies this`tick, this`timeline, this`log
      ensures Valid()
      ensures log == old(log) + [Thinking(pid), SpeechStart(pid), Speech(pid, AiSpeech)]
    {
      SendEvent(Thinking(pid));
      SendEvent(SpeechStart(pid));
      SendEvent(Speech(pid, AiSpeech));
    }

    /** The second part of `run_day`: every living seat without a connection speaks, in seat order. */
    method AiSpeak()
      requires Valid()
      modifies this`tick, this`timeline, this`log
      ensures Valid()
      ensures log == old(log) + AiSpeeches(Unconnected(LivingIds(state.roster), connected))
    {
      var alive := LivingIds(state.roster);
      ghost var g0, log0 := state, log;
      var i := 0;
      while i < |alive|
        invariant 0 <= i <= |alive|
        invariant Valid()
        invariant log == log0 + AiSpeeches(Unconnected(alive[..i], connected))
      {
        assert alive[..i + 1][..i] == alive[..i];
        var pid := alive[i];
        if pid !in connected {
          Speak(pid);
          Assoc(log0, AiSpeeches(Unconnected(alive[..i], connected)), [Thinking(pid), SpeechStart(pid), Speech(pid, AiSpeech)]);
        }
        i := i + 1;
      }
      assert alive[..i] == alive;
    }

    /**
     * `run_day`: the day opens, the night's deaths are marked and announced,
     * the server-played survivors speak, and the speeches sent meanwhile are
     * broadcast.
     */
    method RunDay(deaths: seq<string>, inbox: seq<Post>)
      requires Valid()
      modifies this`state, this`tick, this`timeline, this`log
      ensures Valid()
      ensures log == old(log) + [PhaseMsg(Day)] + DeathNotices(deaths) +
                                  AiSpeeches(Unconnected(LivingIds(state.roster), connected)) + Echoes(inbox, Day)
      ensures state == old(state).(phase := Day, roster := KillAll(old(state.roster), deaths))
    {
      state := state.(phase := Day);
      SendEvent(PhaseMsg(Day));
      AnnounceDeaths(deaths);
      AiSpeak();
      Deliver(inbox);
    }

    /** The ballots and vote events of the server-played seats among `alive`, each for `alive[0]`. */
    method AiBallots(alive: seq<string>, table0: Ballots, sheriff: bool) returns (table: Ballots)
      requires Valid()
      modifies this`tick, this`timeline, this`log
      ensures Valid()
      ensures table == PutAll(table0, Unconnected(alive, connected), Head(alive))
      ensures log == old(log) + AiVoteEvents(Unconnected(alive, connected), Shown(Head(alive)), sheriff)
    {
      table := table0;
      ghost var played: seq<string> := [];
      ghost var log0 := log;
      var i := 0;
      while i < |alive|
        invariant 0 <= i <= |alive|
        invariant played == Unconnected(alive[..i], connected)
        invariant Valid()
        invariant table == PutAll(table0, played, Head(alive))
        invariant log == log0 + AiVoteEvents(played, Shown(Head(alive)), sheriff)
      {
        var pid := alive[i];
        if pid !in connected {
          UnconnectedAdd(alive, i, connected);
          var target := Some(alive[0]);
          var e := if sheriff then SheriffVoteMsg(pid, Shown(target)) else VoteMsg(pid, Shown(target));
          AiVoteEventsSnoc(played, pid, Shown(target), sheriff);
          PutAllSnoc(table0, played, pid, target);
          Assoc(log0, AiVoteEvents(played, Shown(target), sheriff), [e]);
          table := Put(table, pid, target);
          SendEvent(e);
          played := played + [pid];
        } else {
          UnconnectedSkip(alive, i, connected);
        }
        i := i + 1;
      }
      assert alive[..i] == alive;
    }

    /**
     * The balloting of `run_sheriff_election`: the sheriff votes are cleared,
     * the server-played seats vote and then the clients' votes are taken.
     */
    method CollectSheriffVotes(inbox: seq<Post>)
      requires Valid()
      modifies this`state, this`tick, this`timeline, this`log
      ensures Valid()
      ensures var alive := LivingIds(state.roster);
        log == old(log) + [PhaseMsg(Sheriff)] +
          AiVoteEvents(Unconnected(alive, connected), Shown(Head(alive)), true) + Echoes(inbox, Sheriff)
      ensures var alive := LivingIds(state.roster);
        state == old(state).(phase := Sheriff,
          sheriffVotes := Record(PutAll([], Unconnected(alive, connected), Head(alive)), inbox, SheriffBallot))
    {
      state := state.(phase := Sheriff);
      SendEvent(PhaseMsg(Sheriff));
      var alive := LivingIds(state.roster);
      ghost var log1 := log;
      var table := AiBallots(alive, [], true);
      state := state.(sheriffVotes := table);
      ghost var log2 := log;
      assert log2 == log1 + AiVoteEvents(Unconnected(alive, connected), Shown(Head(alive)), true);
      Deliver(inbox);
      assert log == log2 + Echoes(inbox, Sheriff);
      assert state.sheriffVotes == Record(table, inbox, SheriffBallot);
    }

    /**
     * `run_sheriff_election`: after the balloting, an unweighted tally elects
     * a sheriff only when one target has strictly the most non-abstaining
     * votes, and the result is announced.
     */
    method RunSheriffElection(inbox: seq<Post>) returns (tally: TallyResult)
      requires Valid()
      modifies this`state, this`tick, this`timeline, this`log
      ensures Valid()
      ensures var alive := LivingIds(state.roster);
        state.sheriffVotes == Record(PutAll([], Unconnected(alive, connected), Head(alive)), inbox, SheriffBallot)
      ensures tally == NoVotes <==> forall t :: Weight(state.sheriffVotes, None, t) == 0
      ensures tally.Elected? ==> UniqueTop(state.sheriffVotes, None, tally.target)
      ensures (exists t :: UniqueTop(state.sheriffVotes, None, t)) ==> tally.Elected?
      ensures tally == TallyOf(state.sheriffVotes, None)
      ensures tally.Elected? ==> state.sheriffId == Some(tally.target)
      ensures !tally.Elected? ==> state.sheriffId == old(state.sheriffId)
      ensures var alive := LivingIds(state.roster);
        log == old(log) + [PhaseMsg(Sheriff)] +
          AiVoteEvents(Unconnected(alive, connected), Shown(Head(alive)), true) + Echoes(inbox, Sheriff) + [SheriffEvent(tally)]
      ensures state == old(state).(phase := Sheriff, sheriffVotes := state.sheriffVotes, sheriffId := state.sheriffId)
    {
      CollectSheriffVotes(inbox);
      tally := CountBallots(state.sheriffVotes, None);
      if tally.Elected? {
        state := state.(sheriffId := Some(tally.target));
      }
      SendEvent(SheriffEvent(tally));
    }

    /**
     * The balloting of `run_vote`: the votes are cleared, the server-played
     * seats vote and then the clients' votes are taken.
     */
    method CollectVotes(inbox: seq<Post>)
      requires Valid()
      modifies this`state, this`tick, this`timeline, this`log
      ensures Valid()
      ensures var alive := LivingIds(state.roster);
        log == old(log) + [PhaseMsg(Vote)] +
          AiVoteEvents(Unconnected(alive, connected), Shown(Head(alive)), false) + Echoes(inbox, Vote)
      ensures var alive := LivingIds(state.roster);
        state == old(state).(phase := Vote,
          votes := Record(PutAll([], Unconnected(alive, connected), Head(alive)), inbox, VoteBallot))
    {
      state := state.(phase := Vote);
      SendEvent(PhaseMsg(Vote));
      var alive := LivingIds(state.roster);
      ghost var log1 := log;
      var table := AiBallots(alive, [], false);
      state := state.(votes := table);
      ghost var log2 := log;
      assert log2 == log1 + AiVoteEvents(Unconnected(alive, connected), Shown(Head(alive)), false);
      Deliver(inbox);
      assert log == log2 + Echoes(inbox, Vote);
      assert state.votes == Record(table, inbox, VoteBallot);
    }

    /**
     * `run_vote`: after the balloting, the weighted tally, in which the
     * sheriff's vote counts twice, names a seat to execute only when one
     * target has strictly the greatest weight; a tie is announced.
     */
    method RunVote(inbox: seq<Post>) returns (execute: Option<string>, tally: TallyResult)
      requires Valid()
      modifies this`state, this`tick, this`timeline, this`log
      ensures Valid()
      ensures var alive := LivingIds(state.roster);
        state.votes == Record(PutAll([], Unconnected(alive, connected), Head(alive)), inbox, VoteBallot)
      ensures tally == NoVotes <==> forall t :: Weight(state.votes, state.sheriffId, t) == 0
      ensures tally.Elected? ==> UniqueTop(state.votes, state.sheriffId, tally.target)
      ensures (exists t :: UniqueTop(state.votes, state.sheriffId, t)) ==> tally.Elected?
      ensures tally == TallyOf(state.votes, state.sheriffId)
      ensures tally.Elected? ==> execute == Some(tally.target)
      ensures !tally.Elected? ==> execute == None
      ensures var alive := LivingIds(state.roster);
        tally != Tie ==>
          log == old(log) + [PhaseMsg(Vote)] +
            AiVoteEvents(Unconnected(alive, connected), Shown(Head(alive)), false) + Echoes(inbox, Vote) + [VoteEnd]
      ensures var alive := LivingIds(state.roster);
        tally == Tie ==>
          log == old(log) + [PhaseMsg(Vote)] +
            AiVoteEvents(Unconnected(alive, connected), Shown(Head(alive)), false) + Echoes(inbox, Vote) + [VoteEnd, VoteTie]
      ensures state == old(state).(phase := Vote, votes := state.votes)
    {
      CollectVotes(inbox);
      SendEvent(VoteEnd);
      if state.votes == [] {
        return None, NoVotes;
      }
      tally := CountBallots(state.votes, state.sheriffId);
      if tally == Tie {
        SendEvent(VoteTie);
      }
      execute := if tally.Elected? then Some(tally.target) else None;
    }

    /**
     * `game_loop`: the rounds of `Play`, at most three, each a night, a day
     * and, only when the day leaves no result, a sheriff election while there
     * is no sheriff and a vote; the loop stops at the first result. Without a
     * result the game is a draw. The game ends with the replay of the whole
     * timeline so far and the canned review. `checks` are the rounds' win
     * checks.
     */
    method GameLoop(inboxes: seq<RoundInbox>) returns (outcome: Outcome, ghost checks: seq<Option<Outcome>>)
      requires Valid()
      modifies this`state, this`tick, this`timeline, this`log
      ensures Valid()
      ensures var p := Play(old(state), inboxes, roles, connected);
        state == p.game && checks == p.checks &&
        log == old(log) + p.events + Ending(old(log) + p.events)
      ensures |checks| == state.day && 1 <= state.day <= MaxRounds && state.night == state.day - 1
      ensures forall j :: 0 <= j < |checks| - 1 ==> checks[j].None?
      ensures outcome == checks[|checks| - 1].GetOr(Draw)
      ensures outcome == CheckWin(state.roster, roles).GetOr(Draw)
      ensures outcome == Draw ==> state.day == MaxRounds
      ensures old(state.sheriffId).Some? ==> state.sheriffId == old(state.sheriffId)
      ensures state.saveLeft ==> old(state.saveLeft)
      ensures state.poisonLeft ==> old(state.poisonLeft)
    {
      var result;
      result, checks := PlayRounds(inboxes);
      outcome := result.GetOr(Draw);
      FinishGame();
      PlayFacts(old(state), inboxes, roles, connected, state, checks);
    }

    /**
     * The rounds of `game_loop`, up to the first result or the last round, as
     * `Play` gives them; returns the last round's win check and, as `checks`,
     * every round's.
     */
    method PlayRounds(inboxes: seq<RoundInbox>) returns (result: Option<Outcome>, ghost checks: seq<Option<Outcome>>)
      requires Valid()
      modifies this`state, this`tick, this`timeline, this`log
      ensures Valid()
      ensures var p := Play(old(state), inboxes, roles, connected);
        state == p.game && log == old(log) + p.events && checks == p.checks
      ensures result == CheckWin(state.roster, roles)
    {
      ghost var g0, log0 := state, log;
      ghost var round := RoundOf(inboxes, roles, connected);
      ghost var sent: seq<Msg> := [];
      result := None;
      checks := [];
      var r := 0;
      while r < MaxRounds && result.None?
        invariant 0 <= r <= MaxRounds && |checks| == r
        invariant (r == 0 ==> result.None?) && (r > 0 ==> result == CheckWin(state.roster, roles) && checks[r - 1] == result)
        invariant Valid() && log == log0 + sent
        invariant Rounds(Played(state, sent, checks), r, MaxRounds, round) == Rounds(Played(g0, [], []), 0, MaxRounds, round)
        invariant Won(Played(state, sent, checks)) == result.Some?
      {
        var inbox := InboxAt(inboxes, r);
        ghost var s0 := state;
        result := PlayRound(r, inbox);
        ghost var events := RoundLog(s0, r, inbox, roles, connected);
        assert round(s0, r) == RoundResult(state, events, result);
        RoundsNext(Played(s0, sent, checks), r, MaxRounds, round, RoundResult(state, events, result));
        Assoc(log0, sent, events);
        sent := sent + events;
        checks := checks + [result];
        r := r + 1;
      }
      RoundsStop(Played(state, sent, checks), r, MaxRounds, round);
    }

    /**
     * The night of round `r` and the day after it, up to the win check that
     * follows the day's deaths.
     */
    method NightAndDay(r: int, night: seq<Post>, day: seq<Post>) returns (result: Option<Outcome>)
      requires Valid()
      modifies this`state, this`tick, this`timeline, this`log
      ensures Valid()
      ensures state == AfterDay(old(state), r, night, roles)
      ensures log == old(log) + DayLog(old(state), r, night, day, roles, connected)
      ensures result == CheckWin(state.roster, roles)
    {
      ghost var s0, log0 := state, log;
      ghost var res := NightOutcome(Opened(s0, r, night), roles);
      var deaths := PlayNight(r, night);
      ghost var log1 := log;
      assert state.roster == s0.roster && deaths == res.deaths;
      result := PlayDay(r + 1, deaths, day);
      Assoc(log0, NightEvents(r, res), DayEvents(res.deaths, LivingIds(state.roster), connected, day));
    }

    /**
     * Round `r` of `game_loop`: a night, a day, and, only when the day leaves
     * no result, a sheriff election while there is no sheriff and a vote.
     */
    method PlayRound(r: int, inbox: RoundInbox) returns (result: Option<Outcome>)
      requires Valid()
      modifies this`state, this`tick, this`timeline, this`log
      ensures Valid()
      ensures state == AfterRound(old(state), r, inbox, roles, connected)
      ensures log == old(log) + RoundLog(old(state), r, inbox, roles, connected)
      ensures result == CheckWin(state.roster, roles)
    {
      ghost var s0, log0 := state, log;
      ghost var days := DayLog(s0, r, inbox.night, inbox.day, roles, connected);
      result := NightAndDay(r, inbox.night, inbox.day);
      ghost var d := state;
      if result.None? {
        var execute;
        ghost var sheriffTally, voteTally;
        result, execute, sheriffTally, voteTally := Verdict(inbox);
        ghost var e := ElectLog(d, connected, inbox.sheriff);
        ghost var v := EliminateLog(Elect(d, connected, inbox.sheriff), connected, inbox.vote);
        Assoc(log0 + days, e, v);
        Assoc(log0, days, e + v);
      } else {
        assert days + [] == days;
      }
    }

    /** The night of round `r`: its actions are taken and resolved; returns the night's deaths. */
    method PlayNight(r: int, inbox: seq<Post>) returns (deaths: seq<string>)
      requires Valid()
      modifies this`state, this`tick, this`timeline, this`log
      ensures Valid()
      ensures var g := Opened(old(state), r, inbox);
        var res := NightOutcome(g, roles);
        deaths == res.deaths && log == old(log) + NightEvents(r, res) && state == Closed(g, res)
      ensures state.saveLeft ==> old(state.saveLeft)
      ensures state.poisonLeft ==> old(state.poisonLeft)
    {
      ghost var log0, g := log, Opened(state, r, inbox);
      state := state.(night := r);
      OpenNight(inbox);
      assert state == g;
      ghost var log1 := log;
      deaths := CloseNight(r);
      assert log == log0 + NightEvents(r, NightOutcome(g, roles)) by {
        assert log1 == log0 + [PhaseMsg(Night)];
      }
    }

    /** Day `d`: the night's deaths are marked and announced, the day runs, and the win check follows it. */
    method PlayDay(d: int, deaths: seq<string>, inbox: seq<Post>) returns (result: Option<Outcome>)
      requires Valid()
      modifies this`state, this`tick, this`timeline, this`log
      ensures Valid()
      ensures state == old(state).(phase := Day, day := d, roster := KillAll(old(state.roster), deaths))
      ensures log == old(log) + DayEvents(deaths, LivingIds(state.roster), connected, inbox)
      ensures result == CheckWin(state.roster, roles)
    {
      ghost var log0 := log;
      state := state.(day := d);
      RunDay(deaths, inbox);
      Assoc4(log0, [PhaseMsg(Day)], DeathNotices(deaths), AiSpeeches(Unconnected(LivingIds(state.roster), connected)), Echoes(inbox, Day));
      result := CheckWin(state.roster, roles);
    }


    /** The sheriff election of a round, held only while there is no sheriff; `tally` is its result. */
    method ElectIfNone(inbox: seq<Post>) returns (ghost tally: Option<TallyResult>)
      requires Valid()
      modifies this`state, this`tick, this`timeline, this`log
      ensures Valid()
      ensures state == Elect(old(state), connected, inbox)
      ensures log == old(log) + ElectLog(old(state), connected, inbox)
      ensures tally.Some? <==> old(state.sheriffId).None?
      ensures tally.Some? ==> tally.value == TallyOf(state.sheriffVotes, None)
    {
      ghost var log0 := log;
      var alive := LivingIds(state.roster);
      if state.sheriffId.None? {
        var t := RunSheriffElection(inbox);
        tally := Some(t);
        Assoc4(log0, [PhaseMsg(Sheriff)], AiVoteEvents(Unconnected(alive, connected), Shown(Head(alive)), true),
          Echoes(inbox, Sheriff), [SheriffEvent(t)]);
      } else {
        tally := None;
      }
    }

    /** The execution a vote names, if any: the seat is marked dead and its death announced. */
    method Execute(execute: Option<string>)
      requires Valid()
      modifies this`state, this`tick, this`timeline, this`log
      ensures Valid()
      ensures log == old(log) + Execution(execute)
      ensures execute.Some? ==> state == old(state).(roster := KillFirst(old(state.roster), execute.value))
      ensures execute.None? ==> state == old(state)
    {
      if execute.Some? {
        MarkDead(execute.value);
        SendEvent(Death(execute.value));
      }
    }

    /** The vote of a round and the execution it names; `tally` is the vote's result. */
    method VoteAndExecute(inbox: seq<Post>) returns (execute: Option<string>, ghost tally: TallyResult)
      requires Valid()
      modifies this`state, this`tick, this`timeline, this`log
      ensures Valid()
      ensures state == Eliminate(old(state), connected, inbox)
      ensures log == old(log) + EliminateLog(old(state), connected, inbox)
      ensures tally == TallyOf(state.votes, state.sheriffId)
      ensures execute == if tally.Elected? then Some(tally.target) else None
    {
      ghost var log0 := log;
      ghost var alive := LivingIds(state.roster);
      execute, tally := RunVote(inbox);
      Assoc4(log0, [PhaseMsg(Vote)], AiVoteEvents(Unconnected(alive, connected), Shown(Head(alive)), false),
        Echoes(inbox, Vote), if tally == Tie then [VoteEnd, VoteTie] else [VoteEnd]);
      Execute(execute);
    }

    /**
     * The second half of a round: a sheriff election, only while there is no
     * sheriff (its result is `sheriffTally`), then a vote (`voteTally`) and
     * the execution it names, then the win check.
     */
    method Verdict(inbox: RoundInbox)
      returns (result: Option<Outcome>, execute: Option<string>, ghost sheriffTally: Option<TallyResult>, ghost voteTally: TallyResult)
      requires Valid()
      modifies this`state, this`tick, this`timeline, this`log
      ensures Valid()
      ensures state == Eliminate(Elect(old(state), connected, inbox.sheriff), connected, inbox.vote)
      ensures log == old(log) + ElectLog(old(state), connected, inbox.sheriff) +
        EliminateLog(Elect(old(state), connected, inbox.sheriff), connected, inbox.vote)
      ensures sheriffTally.Some? <==> old(state.sheriffId).None?
      ensures sheriffTally.Some? ==> sheriffTally.value == TallyOf(state.sheriffVotes, None)
      ensures voteTally == TallyOf(state.votes, state.sheriffId)
      ensures execute == if voteTally.Elected? then Some(voteTally.target) else None
      ensures result == CheckWin(state.roster, roles)
    {
      sheriffTally := ElectIfNone(inbox.sheriff);
      execute, voteTally := VoteAndExecute(inbox.vote);
      result := CheckWin(state.roster, roles);
    }

    /** The end of `game_loop`: the replay of the timeline so far, then the canned review. */
    method FinishGame()
      requires Valid()
      modifies this`tick, this`timeline, this`log
      ensures Valid()
      ensures log == old(log) + Ending(old(log))
    {
      var snapshot := timeline;
      SendEvent(ReplayData(snapshot, map[], None, None));
      SendEvent(ReviewMsg(CannedReviews));
    }
  }

  /** The pass of `run_night` over the stored night actions, with `ROLES` and the seats as parameters. */
  method CollectSubmissions(nightActions: Dict<NightAction>, roster: seq<Seat>, roles: map<string, Role>) returns (c: Choices)
    ensures c == Submitted(nightActions, roster, roles)
  {
    var alive := LivingIds(roster);
    var wolf, seer, guard, save, poison := None, None, None, false, None;
    var i := 0;
    while i < |nightActions|
      invariant 0 <= i <= |nightActions|
      invariant Choices(wolf, seer, guard, save, poison) == Submitted(nightActions[..i], roster, roles)
    {
      SubmittedStep(nightActions, i, roster, roles);
      var (pid, action) := nightActions[i];
      var role := RoleOf(roles, pid);
      var target := action.target;
      if role == Some(Werewolf) && action.actionType == "WEREWOLF" {
        if target.Some? && target.value in alive && RoleOf(roles, target.value) != Some(Werewolf) {
          wolf := target;
        }
      } else if role == Some(Seer) && action.actionType == "SEER" {
        if target.Some? && target.value in alive && target.value != pid {
          seer := target;
        }
      } else if role == Some(Guard) && action.actionType == "GUARD" {
        if target.Some? && target.value in alive {
          guard := target;
        }
      } else if role == Some(Witch) {
        if action.actionType == "WITCH_SAVE" {
          save := true;
        } else if action.actionType == "WITCH_POISON" {
          if target.Some? && target.value in alive && target.value != pid {
            poison := target;
          }
        }
      }
      i := i + 1;
    }
    assert nightActions[..i] == nightActions;
    c := Choices(wolf, seer, guard, save, poison);
  }
}
