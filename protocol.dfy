/**
 * Values shared by the game server and the browser client: roles, phases,
 * seats, the JSON messages the server emits (and the client consumes) and the
 * entries of the append-only timeline.
 */
module Protocol {
  import opened Wrappers

  datatype Role = Werewolf | Seer | Witch | Guard | Villager

  /** The phase strings of the server (`GAME["phase"]`) and the client store. */
  datatype Phase = Init | Night | Day | Sheriff | Vote | Ended

  /** A session seat (`{"id", "name", "alive"}`); the client's `Player` has the same shape. */
  datatype Seat = Seat(id: string, name: string, alive: bool)

  /** Game outcomes as strings in the source ("VILLAGERS_WIN", "WEREWOLVES_WIN", "DRAW"). */
  datatype Outcome = VillagersWin | WerewolvesWin | Draw

  /** The night skills the client can be told to use. */
  datatype Skill = Check | Save | Poison | GuardSkill | WerewolfSkill

  /** The public summary attached to the night acknowledgement. */
  datatype NightSummary = NightSummary(wolf: bool, seer: bool, guard: bool, witchSave: bool, witchPoison: bool)

  datatype Review = Review(overallStrategy: string, biggestMistake: string)

  datatype FinalRole = FinalRole(id: string, role: Role)

  /**
   * A JSON message `{type, ...fields}`. `Other(type)` stands for any message
   * whose type none of the known constructors covers; `Other("")` is a
   * message whose `type` is missing or empty.
   */
  datatype Msg =
    | InitMsg(players: seq<Seat>, selfId: string)
    | RoleMsg(playerId: string, role: Role)
    | RoleMapMsg(roles: map<string, Role>)
    | PhaseMsg(phase: Phase)
    | NightSkillMsg(skillRole: Option<Role>, skill: Option<Skill>)
    | NightActionAck(night: Option<int>, summary: Option<NightSummary>, ok: Option<bool>,
                     status: Option<string>, message: Option<string>)
    | Thinking(playerId: string)
    | SpeechStart(playerId: string)
    | Speech(playerId: string, text: string)
    | VoteMsg(from: string, to: string)
    | SheriffVoteMsg(from: string, to: string)
    | VoteEnd
    | VoteTie
    | Death(playerId: string)
    | SheriffNone
    | SheriffTie
    | SheriffMsg(playerId: string)
    | ReplayData(timeline: seq<Entry>, reviews: map<string, Review>,
                 finalRoles: Option<seq<FinalRole>>, result: Option<Outcome>)
    | ReviewMsg(data: map<string, Review>)
    | Other(kind: string)

  /** A timeline entry `{"tick", "event"}`. */
  datatype Entry = Entry(tick: int, event: Msg)

  function RoleName(r: Role): string {
    match r
    case Werewolf => "WEREWOLF"
    case Seer => "SEER"
    case Witch => "WITCH"
    case Guard => "GUARD"
    case Villager => "VILLAGER"
  }

  function PhaseName(p: Phase): string {
    match p
    case Init => "INIT"
    case Night => "NIGHT"
    case Day => "DAY"
    case Sheriff => "SHERIFF"
    case Vote => "VOTE"
    case Ended => "ENDED"
  }

  /** The `type` field of a message. */
  function TypeName(m: Msg): string {
    match m
    case InitMsg(_, _) => "INIT"
    case RoleMsg(_, _) => "ROLE"
    case RoleMapMsg(_) => "ROLE_MAP"
    case PhaseMsg(_) => "PHASE"
    case NightSkillMsg(_, _) => "NIGHT_SKILL"
    case NightActionAck(_, _, _, _, _) => "NIGHT_ACTION_ACK"
    case Thinking(_) => "THINKING"
    case SpeechStart(_) => "SPEECH_START"
    case Speech(_, _) => "SPEECH"
    case VoteMsg(_, _) => "VOTE"
    case SheriffVoteMsg(_, _) => "SHERIFF_VOTE"
    case VoteEnd => "VOTE_END"
    case VoteTie => "VOTE_TIE"
    case Death(_) => "DEATH"
    case SheriffNone => "SHERIFF_NONE"
    case SheriffTie => "SHERIFF_TIE"
    case SheriffMsg(_) => "SHERIFF"
    case ReplayData(_, _, _, _) => "REPLAY_DATA"
    case ReviewMsg(_) => "REVIEW"
    case Other(k) => k
  }
}
