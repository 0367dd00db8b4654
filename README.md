# Werewolf game rules, modelled in Dafny

This project models the rules core of a browser Werewolf game. The server runs
a fixed table of seats through nights, days, a sheriff election and
elimination votes, and records every public event on a timeline. The browser
client keeps a store of the game that each server message updates. The
project covers the following parts:

- **Session** (`session.dfy`, with `roster.dfy`, `night.dfy` and `tally.dfy`)
  models the game session of `backend/run_server.py`.
  - The `GAME` record, the seats (`PLAYERS`), the role table (`ROLES`) and the
    set of connected seats form a class `Session`. Its methods follow
    `send_event`, `handle_client_messages`, `mark_dead`, `run_night`,
    `run_day`, `run_sheriff_election`, `run_vote` and `game_loop`.
  - Sending an event appends it to the timeline under the current tick.
  - The pure rules are functions, and the methods are proved against them:
    the living ids, `check_win`, the default targets `choose_*_target`, the
    night resolution and the two ballot counts.
- **Victory** (`victory.py`) and **Engine** (`engine.py`) model the engine's
  win predicate, its phase cycle with the round counter, `kill_player`, and
  the wolves' night.
- **Wolf team.** `WolfConsensus` is the kill consensus, `WolfMemory` and
  `Channels` are the shared night log and its channel, and `WolfStrategy` is
  the scapegoat choice.
- **Memory** models an autonomous seat's memory: a bounded event log, its
  views, speeches, players, and a suspicion table with a stable descending
  sort.
- **GameStore** models the client store of `fronted/src/store/gameStore.ts`.
  It is a class whose state record each action and each server message
  replaces. Its invariant is that `voteCounts` is the histogram of `votes`.
- **ReplaySummary** models the replay panel's `formatEvent` and timeline
  text.
- **Shared modules.** `Protocol` holds the shared message and timeline types.
  `Dicts` is Python's insertion-ordered dictionary as an association list.
  `PySlice` is Python slicing with negative bounds. `Seqs` holds sequence
  helpers. `Wrappers` holds `Option`.

Several behaviours of the code are easy to misread, and the model follows the
code in each case:

- **Wolf target.** The night's wolf target is the last accepted wolf
  submission in the order the night actions were stored. No majority is taken
  among the wolves' submissions at the server.
- **Witch save.** A submitted save is honoured, and uses up the potion,
  whenever the potion remains. This holds even when the wolves' target was
  guarded or there is no target.
- **Dead senders.** Whether a sender is alive is not checked for night
  actions or votes.
- **Guard repeat.** The guard's rule against protecting the same seat twice
  in a row applies only to the default target. A guard's own submission may
  repeat.
- **Votes are not checked.** A human vote may name any id, living or not.
- **Unknown ids.** `mark_dead` of an unknown id changes nothing, but the
  `DEATH` event is still sent.
- **Server-played ballots.** A seat the server plays votes for the first
  living seat, in both the sheriff election and the vote.
- **Unweighted sheriff election.** The sheriff election counts one vote per
  ballot. Only the elimination vote doubles the sheriff's ballot.
- **No reset.** The `GAME` record is not reset between games.
- **Replay data.** The replay data sent at the end carries the timeline as it
  stood just before that event, and empty reviews.
- **Unsent result.** The game's final result (`result or "DRAW"`) is computed
  but never sent. The model returns it.
- **Client abstentions.** The client counts an `"ABSTAIN"` vote as a vote for
  a target named "ABSTAIN".

## Model

| member | source | states |
|---|---|---|
| Roster.LivingIds | backend/run_server.py:87-88 | an id is listed exactly when some living seat carries it; never more ids than seats; in seat order: the first living seat's id comes first and the last living seat's id last |
| Roster.LivingIdsDistinct | backend/run_server.py:87-88 | with distinct seat ids, the living ids are distinct |
| Roster.KillFirst | backend/run_server.py:91-95 | the first seat carrying the id becomes dead, every other seat and the order of ids are unchanged, and an unknown id changes nothing |
| Roster.KillFirstAt | backend/run_server.py:91-95 | with distinct ids, exactly the seat carrying the id is marked dead |
| Roster.KillFirstLiving | backend/run_server.py:91-95 | with distinct ids, `mark_dead(id)` removes exactly `id` from the living ids |
| Roster.KillAll | backend/run_server.py:336-337 | marking a list of ids dead keeps the seats and their ids |
| Roster.KillAllLiving | backend/run_server.py:336-337 | with distinct ids, the living ids afterwards are exactly the earlier ones not in the list |
| Roster.Wolves | backend/run_server.py:100 | an id is a wolf exactly when the role table gives it the werewolf role |
| Roster.LivingSetIds | backend/run_server.py:99 | the living set holds exactly the living ids |
| Roster.CheckWin | backend/run_server.py:98-108 | `check_win` over the living set and the wolf set: villagers win when no living id is a wolf, wolves win when the living wolves are at least as many as the other living ids, otherwise no result; its three cases are stated as equivalences by `CheckWinCases` |
| Roster.CheckWinCases | backend/run_server.py:98-108 | villagers win exactly when no living id is a wolf; wolves win exactly when at least one lives and they are at least as many as the other living ids; no result exactly when 0 < wolves < others; never a draw |
| Roster.LivingSetCounts | backend/run_server.py:98-102 | with distinct ids, the set counts of `check_win` equal the living wolf and non-wolf counts of `check_victory` |
| Roster.CheckWinIsCheckVictory | backend/run_server.py:98-108 | `check_win` over the seats agrees with the engine's `check_victory` over the same players |
| Roster.LivingWhere | backend/run_server.py:170-177 | empty exactly when no living seat passes the role test; otherwise its head is the first living seat that does |
| Roster.ChooseWolfTarget | backend/run_server.py:170-172 | none exactly when every living seat is a werewolf; otherwise the first living non-werewolf |
| Roster.ChooseSeerTarget | backend/run_server.py:175-177 | none exactly when every living seat is the seer; otherwise the first living non-seer |
| Roster.ChooseWitchPoisonTarget | backend/run_server.py:190-192 | none exactly when no werewolf lives; otherwise the first living werewolf |
| Roster.ChooseGuardTarget | backend/run_server.py:180-187 | none exactly when nobody lives; otherwise a living seat: the last living seat unless it was last night's guard target and someone else lives, and then the first living seat |
| Roster.GuardDefaultAvoidsRepeat | backend/run_server.py:180-187 | with distinct ids and two or more living seats, the default guard target differs from the previous guard target |
| Night.LastAccepted | backend/run_server.py:220-238 | none exactly when no stored action of the kind is accepted; otherwise an accepted action of that kind with no accepted one after it (later submissions overwrite) |
| Night.Submitted | backend/run_server.py:220-238 | every kept wolf target is a living non-werewolf, and every kept seer, guard and poison target is living |
| Night.NoSelfTarget | backend/run_server.py:227-238 | a kept seer target, and likewise a kept poison target, is the target of an accepted seer (witch poison) submission whose submitter is not that target |
| Night.UnsetWithoutSubmission | backend/run_server.py:220-245 | the wolf, seer and guard choices are unset (and later defaulted) exactly when no submission of that kind is accepted; the save is asked for exactly when the witch submitted one |
| Night.SubmittedStep | backend/run_server.py:220-238 | one more stored action sets each choice it is accepted for and leaves the others, which is the loop step of the pass |
| Session.CollectSubmissions | backend/run_server.py:214-238 | the loop over the stored night actions yields exactly the choices `Night.Submitted` describes |
| Night.WithDefaults | backend/run_server.py:240-245 | set targets are kept; unset wolf, seer and guard targets take `choose_wolf_target`, `choose_seer_target` and `choose_guard_target` |
| Night.UsePotions | backend/run_server.py:248-256 | a save or poison is honoured only while its potion remains, honouring it uses the potion up, and no potion ever comes back |
| Night.Deaths | backend/run_server.py:267-272 | at most two deaths, distinct when two: the wolf target exactly when it is set, not saved and not the guard's target, and the poison target whatever the guard did, the wolf's first |
| Night.RawDeaths | backend/run_server.py:267-272 | the deaths as appended, at most two: the wolf target exactly when it is set, not saved and not the guard's target, and the poison target whenever it is set; the wolf's first and the poison target last |
| Night.DeathsDedup | backend/run_server.py:329 | the listed deaths are the wolf and poison deaths as collected, with repeats removed in order of first occurrence |
| Night.ResolveNight | backend/run_server.py:240-272 | the night's result: the defaulted targets, the guard target to remember, the potions left, and the deaths, as the three members above state |
| Night.Summary | backend/run_server.py:275-285 | the public summary of the night's acknowledgement: whether a wolf, seer, guard and poison target were set, and whether the save was honoured |
| Tally.Weight | backend/run_server.py:411-417 | the total weight of the non-abstaining ballots for a target, the sheriff's ballot weighing 2 and every other 1; `CountTargets` proves the counting loop yields it |
| Tally.AddBallot | backend/run_server.py:413-417 | adding one ballot raises its target's total by the voter's weight (2 for the sheriff), skips an abstention, and keeps every other total |
| Tally.AddBallotDistinct | backend/run_server.py:417 | the totals keep one entry per target |
| Tally.CountTargets | backend/run_server.py:412-417 | the loop builds one positive total per voted target, each equal to the total weight of the ballots for it |
| Tally.Top | backend/run_server.py:422-423 | the head of the totals sorted by weight has the greatest weight, and a tie is reported exactly when two entries share that weight |
| Tally.TallyOf | backend/run_server.py:408-427 | the specification of a tally: nothing is counted exactly when no target has weight; a target is elected exactly when one outweighs all others, and it is that target; a tie otherwise |
| Tally.CountBallots | backend/run_server.py:408-427 | nothing is counted exactly when no target has weight; an elected target outweighs all others; a tie means two targets share the top weight; whenever one target outweighs all others, it is elected; the result is the tally `TallyOf` specifies |
| Tally.NoCounts | backend/run_server.py:419-420 | empty totals mean no target carries weight |
| Tally.TiedCounts | backend/run_server.py:423-425 | two entries sharing the top total mean two targets tie at the top and nobody is elected |
| Tally.SoleTop | backend/run_server.py:427 | an unshared top entry names the target that outweighs all others |
| Tally.NoUniqueTopOnTie | backend/run_server.py:423-425 | two targets sharing the top weight leave no target above all others |
| Session.VoteTarget | backend/run_server.py:141-143 | "ABSTAIN" is never stored as a target, and every other target is stored unchanged |
| Session.Shown | backend/run_server.py:148 | the target a vote event shows: a set, non-empty target itself, and "ABSTAIN" for no target or the empty one |
| Session.RecordDistinct | backend/run_server.py:140-167 | storing messages keeps one table entry per sender |
| Session.RecordKeepsLatest | backend/run_server.py:140-167 | a sender's entry is the one their latest such message gives (a second vote replaces the first) |
| Session.RecordKeepsSilent | backend/run_server.py:140-167 | a sender who sent no such message keeps the entry they had |
| Session.Echo | backend/run_server.py:132-167 | one client message produces at most one public event |
| Session.Echoes | backend/run_server.py:124-167 | a batch of client messages produces no more public events than messages |
| Session.QuietPhases | backend/run_server.py:132-167 | outside the day, the sheriff election and the vote, no client message reaches the timeline |
| Session.Unconnected | backend/run_server.py:341-343 | the server-played seats are no more than the seats considered |
| Session.UnconnectedMembers | backend/run_server.py:363-365 | the server plays exactly the considered seats that have no connection |
| Session.PutAllDistinct | backend/run_server.py:363-367 | the server-played ballots keep one entry per seat |
| Session.PutAllGet | backend/run_server.py:394-399 | after the server-played ballots each of those seats holds the ballot and every other seat keeps its entry |
| Session.AiVoteEvents | backend/run_server.py:401 | one vote event per server-played seat |
| Session.AiSpeeches | backend/run_server.py:340-353 | three events per server-played seat |
| Session.AiSpeechesAt | backend/run_server.py:341-353 | the k-th server-played seat's events are thinking, speech start and the fixed speech, at positions 3k to 3k+2 |
| Session.DeathNotices | backend/run_server.py:336-338 | one `DEATH` event per death |
| Session.SheriffEvent | backend/run_server.py:373-385 | the event closing an election: `SHERIFF_NONE` when nothing was counted, `SHERIFF_TIE` on a tie at the top, otherwise `SHERIFF` with the elected seat |
| Session.VoteEvents | backend/run_server.py:388-427 | the events of a vote: the VOTE phase event, one vote event per server-played seat showing the first living seat, the clients' echoed votes, `VOTE_END`, and `VOTE_TIE` only after a tie |
| Session.Stamp | backend/run_server.py:111-117 | the timeline has one entry per event sent |
| Session.StampAt | backend/run_server.py:111-117 | starting from 0, the entry at position i carries tick i and the i-th event sent |
| Session.StampPrefix | backend/run_server.py:115 | sending more events never rewrites the timeline: the earlier one is a prefix of the later one |
| Session.AfterDay | backend/run_server.py:433-443 | the record after the night of round r and the day after it: night r opened with its actions, resolved and closed, then phase DAY, day counter r + 1 and the night's deaths marked dead |
| Session.Elect | backend/run_server.py:445-446 | the record after the sheriff step: unchanged while a sheriff is set; otherwise phase SHERIFF, the election's table stored, and the sheriff the seat its tally elects, if any (`ElectFacts`) |
| Session.Eliminate | backend/run_server.py:448-451 | the record after the vote: phase VOTE, the vote table stored, and the seat its tally elects, with the sheriff's ballot weighing 2, marked dead (`EliminateFacts`) |
| Session.AfterRound | backend/run_server.py:433-451 | the record after round r: `AfterDay`, followed by `Elect` and then `Eliminate` only when the win check after the day finds no winner |
| Session.RoundLog | backend/run_server.py:433-451 | the events of round r: the night's and the day's, then, only when the day decides nothing, the sheriff election while no sheriff is set and the vote with its execution |
| Session.Rounds | backend/run_server.py:434-455 | the rounds k, k + 1, ... before round n: none once the last win check found a winner or round n is reached (`RoundsStop`), otherwise `Next` |
| Session.Next | backend/run_server.py:434-455 | round k after the rounds played so far: its record replaces theirs, its events are appended and its win check recorded, then the later rounds follow (`RoundsNext`) |
| Session.Play | backend/run_server.py:430-455 | `game_loop`'s rounds from the record g: `Rounds` from round 0 before round `max_rounds` = 3, each round being `AfterRound` with its `RoundLog` and the win check of its record; `GameLoop` and `PlayRounds` are proved to follow it, and `PlayFacts` states what it promises |
| Session.ElectFacts | backend/run_server.py:445-446 | with a sheriff set the sheriff step changes nothing and sends nothing; without one the stored sheriff table is that of the election, and a sheriff is set exactly when some target outweighs all others, and it is that target; the seats never change |
| Session.EliminateFacts | backend/run_server.py:448-451 | the stored vote table is that of the vote; when a target outweighs all others under the sheriff's double vote, exactly that seat is marked dead; otherwise the seats are unchanged |
| Session.RoundFacts | backend/run_server.py:433-437 | after round r the night counter is r and the day counter r + 1; a sheriff stays and no potion comes back |
| Session.RoundStopsAtDayWin | backend/run_server.py:439-446 | when the check after the day finds a win, the round's record and events are the night's and the day's alone; otherwise the round's events go on past the day's, starting with the sheriff election's phase event while there is no sheriff and with the vote's otherwise |
| Session.RoundsNext | backend/run_server.py:434-455 | for a round k before n after rounds with no win, the rounds from k on are that round (its record, its events appended, its check recorded) followed by the rounds from k + 1 |
| Session.RoundsStop | backend/run_server.py:434-455 | once the last win check found a winner, or round n is reached, no further round changes the record, the events or the checks |
| Session.RoundOfKeeps | backend/run_server.py:432-455 | each round of `game_loop` ends with the win check of its record, moves the counters to r and r + 1, keeps a sheriff and gives no potion back |
| Session.RoundsFacts | backend/run_server.py:434-455 | for rounds that each end with the check of their record, move the counters to k and k + 1, keep a sheriff and give no potion back, played from k rounds without a win: between k + 1 and n rounds are played; every check but the last finds no winner; the last is the check of the final record; without a winner all n rounds are played; the day counter counts the rounds and the night counter is one behind; a sheriff stays and no potion comes back |
| Session.PlayFacts | backend/run_server.py:430-458 | the rounds of `game_loop` stop at the first win: between one and three are played, the day counter counts them and the night counter is one behind; every check but the last finds no winner; the last is the check of the final seats; without a winner all three are played (DRAW at line 458); a sheriff stays and no potion comes back |
| Session.Session.constructor | backend/run_server.py:71-84 | the initial record: tick 0, an empty timeline, phase INIT, empty tables, no sheriff, counters 0, no previous guard target, both potions |
| Session.Session.SendEvent | backend/run_server.py:111-117 | exactly one entry is appended, stamped with the previous tick, and the tick rises by 1 |
| Session.Session.HandleClientMessage | backend/run_server.py:124-167 | a vote, sheriff vote or night action is stored only in its own phase and speeches and votes are echoed; nothing else in the record changes |
| Session.Session.CastVote | backend/run_server.py:140-159 | the sender's ballot, with "ABSTAIN" as no target, is stored in the vote or sheriff table, and the vote event shows the target or "ABSTAIN" |
| Session.Session.Deliver | backend/run_server.py:124-167 | a batch of messages is handled in arrival order: the phase's table is the batch recorded into it, and the echoes are appended |
| Session.Session.MarkDead | backend/run_server.py:91-95 | the seats become `KillFirst` of the seats; nothing is sent |
| Session.Session.OpenNight | backend/run_server.py:195-212 | the phase is NIGHT, the action table holds only the actions sent during the night, and one PHASE event is sent |
| Session.Session.ApplyNight | backend/run_server.py:246-285 | the guard target is remembered, the potions left are stored, and the night's public acknowledgement is sent |
| Session.Session.CloseNight | backend/run_server.py:214-329 | the deaths are those of `ResolveNight` over the stored submissions, the previous guard target and the potions, and the record changes only as `ResolveNight` says |
| Session.Session.AnnounceDeaths | backend/run_server.py:336-338 | each death is marked and announced, in order |
| Session.Session.Speak | backend/run_server.py:344-353 | the thinking, speech start and fixed speech events of one seat |
| Session.Session.AiSpeak | backend/run_server.py:340-353 | every living seat without a connection speaks, in seat order |
| Session.Session.RunDay | backend/run_server.py:332-353 | the DAY phase event, the death notices, the server-played speeches and the clients' speeches, in that order; the seats are the night's deaths applied |
| Session.Session.AiBallots | backend/run_server.py:362-369 | each server-played living seat votes for the first living seat, in order, with one event each |
| Session.Session.CollectSheriffVotes | backend/run_server.py:356-371 | the sheriff table starts empty, holds the server-played ballots and then the clients' sheriff votes |
| Session.Session.RunSheriffElection | backend/run_server.py:356-385 | a sheriff is set only when one target has strictly the most non-abstaining votes, and otherwise the sheriff is unchanged; the tally is `TallyOf` the stored sheriff table; the closing event says which |
| Session.Session.CollectVotes | backend/run_server.py:388-404 | the vote table starts empty, holds the server-played ballots and then the clients' votes |
| Session.Session.RunVote | backend/run_server.py:388-427 | a seat is named for execution only when it strictly outweighs every other target under the sheriff's double vote; the tally is `TallyOf` the stored vote table; `VOTE_END` is always sent and `VOTE_TIE` only on a tie |
| Session.Session.GameLoop | backend/run_server.py:430-473 | the record, the win checks and the events are exactly those of `Play`, the rounds played one after another from the starting record, followed by the replay of the timeline so far and the review; between one and three rounds, with the night counter one behind the day counter; every round but the last had no win; the outcome is the last round's win check, or DRAW (line 458) only after the third round; a sheriff once elected stays; no potion returns |
| Session.Session.PlayRounds | backend/run_server.py:432-455 | the record, the appended events and the win checks are exactly those of `Play`; the result is the win check on the current seats and roles |
| Session.Session.PlayRound | backend/run_server.py:433-455 | round r leaves the record `AfterRound` and appends the events `RoundLog`: the night and the day, then, only when the day decides nothing, the sheriff election while there is no sheriff and the vote with its execution; the result is the win check afterwards |
| Session.Session.NightAndDay | backend/run_server.py:433-443 | the night of round r followed by day r + 1: the record is `AfterDay` (the resolved night, the counters r and r + 1, the night's deaths applied) and the events are `DayLog` (the night's and the day's); the result is the win check after the day |
| Session.Session.PlayNight | backend/run_server.py:435-437 | the deaths are those of the night resolved from the record the night opens; the events sent are the night's phase event and its acknowledgement; the record is the closed night's; the night counter is the round |
| Session.Session.PlayDay | backend/run_server.py:439-443 | the day counter becomes the given day; the events are the day's phase event, the death notices, the server-played speeches and the echoed client speeches; the seats are the deaths applied; the result is the win check on them |
| Session.Session.Verdict | backend/run_server.py:445-455 | the record and the events are the sheriff step `Elect` followed by the vote `Eliminate`; the election's tally exists exactly when there was no sheriff and is `TallyOf` the stored sheriff table; the vote's tally is `TallyOf` the stored vote table under the sheriff's double vote; a seat is executed exactly when that tally elects it; the result is the win check afterwards |
| Session.Session.ElectIfNone | backend/run_server.py:445-446 | the record and the events are those of `Elect`: with a sheriff set nothing changes, otherwise the election runs; its tally exists exactly when no sheriff was set and is `TallyOf` the stored sheriff table |
| Session.Session.VoteAndExecute | backend/run_server.py:448-451 | the record and the events are those of `Eliminate`: the vote, then the execution of the seat its tally elects; the tally is `TallyOf` the stored vote table |
| Session.Session.Execute | backend/run_server.py:449-451 | an executed seat is marked dead and one DEATH event is sent; with nobody executed nothing changes |
| Session.Session.FinishGame | backend/run_server.py:457-473 | the two events appended are the replay of the timeline of every event sent before them, with no reviews, then the canned review |
| Dicts.Get | backend/run_server.py:221 | a lookup finds nothing exactly when the key is absent |
| Dicts.Put | backend/run_server.py:144 | the key gets the value, every other key keeps its value, an existing key keeps its place and a new one goes last |
| Dicts.PutDistinct | backend/run_server.py:144 | assigning keeps the keys distinct |
| Seqs.Dedup | backend/run_server.py:329 | each death once, in order of first occurrence, the same set of ids, starting with the first |
| Victory.Living | backend/game/victory.py:4 | the living players are exactly the players that are alive |
| Victory.CheckVictory | backend/game/victory.py:3-12 | villagers win exactly when no wolf lives; wolves win exactly when some live and they are at least as many as the rest; no result exactly when 0 < wolves < others; never a draw |
| Victory.LivingCounts | backend/game/victory.py:4-6 | counting over the living players gives the same counts as over all players |
| Victory.DeadPlayersIgnored | backend/game/victory.py:4-6 | two player lists with the same living players get the same result |
| Victory.NobodyAliveIsVillagersWin | backend/game/victory.py:8-9 | with nobody alive the villagers win |
| Victory.KillCounts | backend/game/victory.py:4-6 | killing a living player lowers exactly the count of its side by one |
| Victory.WolfWinSurvivesVillagerDeath | backend/game/victory.py:10-11 | once the wolves win, killing a non-wolf keeps it so |
| Victory.LastWolfDeathIsVillagersWin | backend/game/victory.py:8-9 | killing the last living wolf makes the villagers win |
| Engine.NextOf | backend/game/engine.py:14-21 | NIGHT moves to DAY, DAY to VOTE and VOTE to NIGHT; only VOTE moves to NIGHT, and ENDED stays |
| Engine.GameState.constructor | backend/game/state.py:12-16 | a state starts at round 0 with an empty history |
| Engine.GameEngine.constructor | backend/game/engine.py:10-12 | a fresh engine starts at NIGHT over the given state |
| Engine.GameEngine.NextPhase | backend/game/engine.py:14-21 | the phase advances along the cycle, and the round rises by 1 exactly on VOTE to NIGHT |
| Engine.GameEngine.KillPlayer | backend/game/engine.py:23-25 | a known player becomes dead, every other player is unchanged, and exactly "<id> died" is appended to the history; an unknown id changes nothing |
| Engine.GameEngine.CheckGameEnd | backend/game/engine.py:27-28 | the engine's end check is exactly the victory predicate over its players |
| Engine.ProposalsOf | backend/game/engine.py:34-40 | one proposal per wolf, in wolf order, with the wolf's id and its kill |
| Engine.GameEngine.HandleWolfNight | backend/game/engine.py:30-43 | the result is the consensus over the wolves' proposals, and the returned channel's log is each wolf's speech, broadcast in wolf order |
| WolfConsensus.Votes | backend/agents/wolf/wolf_consensus.py:12 | the votes are exactly the non-empty kills, never more than the proposals |
| WolfConsensus.VotesOfConcat | backend/agents/wolf/wolf_consensus.py:12 | falsy kills are dropped and the others keep their relative order |
| WolfConsensus.Leader | backend/agents/wolf/wolf_consensus.py:16-17 | the scan ends on a vote that is at least as frequent as every vote and strictly more frequent than every vote seen before it |
| WolfConsensus.MostCommon | backend/agents/wolf/wolf_consensus.py:16-17 | the result is a vote; no vote is more frequent; among equally frequent votes it was seen first |
| WolfConsensus.ReachKillConsensus | backend/agents/wolf/wolf_consensus.py:12-17 | none exactly when every kill is falsy; otherwise a proposed non-empty kill, no kill is proposed more often, and ties go to the earliest |
| WolfMemory.WolfSharedMemory.constructor | backend/agents/wolf/wolf_memory.py:6-10 | no wolves, no night log, an empty suspicion table and no last kill |
| WolfMemory.WolfSharedMemory.AddMessage | backend/agents/wolf/wolf_memory.py:12-16 | exactly one record is appended at the end and the earlier ones are untouched |
| WolfMemory.WolfSharedMemory.UpdateSuspicion | backend/agents/wolf/wolf_memory.py:18-20 | the entry becomes its old value, or 0 when absent, plus the delta; no other key changes |
| Channels.WolfChannel.constructor | backend/agents/wolf/wolf_channel.py:6-7 | the channel works on the given shared memory |
| Channels.WolfChannel.Broadcast | backend/agents/wolf/wolf_channel.py:9-10 | the shared log grows by exactly one entry with the wolf's id and message verbatim |
| WolfStrategy.Candidates | backend/agents/wolf/wolf_strategy.py:7-11 | the candidates are exactly the entries scored strictly between 0.3 and 1.2 |
| WolfStrategy.Lowest | backend/agents/wolf/wolf_strategy.py:15 | the head of the ascending stable sort is one of the candidates (its minimality is `LowestIsScapegoat`) |
| WolfStrategy.LowestIsScapegoat | backend/agents/wolf/wolf_strategy.py:15 | the stable sort's head has the minimum score among candidates and comes before every other candidate with that score |
| WolfStrategy.ChooseScapegoat | backend/agents/wolf/wolf_strategy.py:7-15 | none exactly when no score is in the band; otherwise a key in the band with the lowest score, the earliest of equal lowest scores |
| Memory.Contains | backend/agents/memory.py:39 | the substring test holds exactly when the id occurs at some position of the event |
| Memory.About | backend/agents/memory.py:37-39 | the events kept are exactly those that mention the player |
| Memory.AboutConcat | backend/agents/memory.py:37-39 | the filter keeps the original order |
| PySlice.Suffix | backend/agents/memory.py:24 | a suffix: for k at least 1 the last min(k, n) elements, for k = 0 everything, for negative k all but the first -k |
| PySlice.Prefix | backend/agents/memory.py:40 | a prefix: for k at least 0 the first min(k, n) elements, for negative k all but the last -k |
| Memory.KeepRecent | backend/agents/memory.py:11-14 | a suffix of the log; with a positive bound at most that many events, and with bound 0 everything |
| Memory.AddEventKeepsNewest | backend/agents/memory.py:11-14 | with a positive bound the new event is last and only the oldest entries are dropped |
| Memory.AgentMemory.constructor | backend/agents/memory.py:3-9 | empty events, speeches, names, roles and living set, and a fresh empty suspicion table |
| Memory.AgentMemory.AddEvent | backend/agents/memory.py:11-14 | the events become the bounded log with the new event appended |
| Memory.AgentMemory.VisibleEvents | backend/agents/memory.py:23-24 | for k at least 1 the last min(k, n) events, for k = 0 all events, reading without changing them |
| Memory.AgentMemory.AddSpeech | backend/agents/memory.py:26-27 | exactly one line "<player_id>: <text>" is appended |
| Memory.NamesOf | backend/agents/memory.py:33 | one entry per id, exactly the non-empty ids of the entries, and each id maps to the name of the last entry that carries it |
| Memory.AgentMemory.SetPlayers | backend/agents/memory.py:32-34 | the living set is exactly the non-empty ids whose alive flag is missing or true |
| Memory.AgentMemory.FindEventsAbout | backend/agents/memory.py:36-40 | the first events that mention the player, in order: k of them when k >= 0 (all when fewer mention the player), and all but the last -k when k < 0, as Python's `[:k]` slice |
| Memory.SuspicionTable.constructor | backend/agents/memory.py:49-50 | the table starts empty |
| Memory.SuspicionTable.InitPlayer | backend/agents/memory.py:52-53 | the player's score is 0 and every other score is unchanged |
| Memory.SuspicionTable.Add | backend/agents/memory.py:55-56 | the score becomes its old value, or 0 when unknown, plus the delta; no other key changes |
| Memory.SuspicionTable.Score | backend/agents/memory.py:58-59 | an unknown player's score is 0, and a known player's score is the one stored for them |
| Memory.SuspicionTable.TopSuspects | backend/agents/memory.py:61-66 | min(k, n) entries for k >= 0 and max(n + k, 0) for k < 0, taken from the table without repeats, scores not increasing, no left-out entry scoring above a kept one, and entries of equal score kept in table order |
| Memory.InsertPermutes | backend/agents/memory.py:62-66 | an insertion step of the sort keeps the entries |
| Memory.SortDescPermutes | backend/agents/memory.py:62-66 | the sort is a permutation of the entries |
| Memory.InsertSorted | backend/agents/memory.py:62-66 | inserting into a descending list keeps it descending |
| Memory.SortDescSorted | backend/agents/memory.py:62-66 | the sort puts higher scores first |
| Memory.InsertStable | backend/agents/memory.py:62-66 | an insertion places the entry after the entries with the same score |
| Memory.SortDescStable | backend/agents/memory.py:62-66 | entries with equal scores keep their insertion order |
| Memory.PrefixLeftOut | backend/agents/memory.py:61-66 | cutting a descending list leaves out only entries scoring no more than every kept entry |
| Memory.WithScorePrefix | backend/agents/memory.py:61-66 | the entries of one score in a prefix are a prefix of that score's entries in the whole list |
| GameStore.Withdraw | fronted/src/store/gameStore.ts:128-131 | the previous target's count drops by one, no other count changes, and the previous target is left with no zero entry |
| GameStore.Add | fronted/src/store/gameStore.ts:133 | the new target's count rises by one and no other count changes |
| GameStore.VotersAfter | fronted/src/store/gameStore.ts:126 | recasting a vote moves its voter from the old target's voters to the new one's |
| GameStore.RetractTally | fronted/src/store/gameStore.ts:127-132 | after the withdrawal each target counts its voters other than the one recasting |
| GameStore.RecountTally | fronted/src/store/gameStore.ts:124-135 | after `addVote` each target counts its voters in the new vote table |
| GameStore.RecountKeepsHistogram | fronted/src/store/gameStore.ts:124-135 | `addVote` with a non-empty target keeps `voteCounts` the histogram of `votes`, with no zero entry |
| GameStore.VotedInv | fronted/src/store/gameStore.ts:124-135 | the store invariant survives `addVote` with a non-empty target |
| GameStore.EmptyHistogram | fronted/src/store/gameStore.ts:137-138 | empty tables are a histogram |
| GameStore.MarkDeadIn | fronted/src/store/gameStore.ts:117-122 | same length, ids and names; a seat ends alive exactly when it was alive and does not carry the id |
| GameStore.MarkDeadInIsKillFirst | fronted/src/store/gameStore.ts:117-122 | with distinct ids the client marks the same seat dead as the server's `mark_dead` |
| GameStore.StripUndefined | fronted/src/store/gameStore.ts:109 | removing the word never lengthens the text, and a text shorter than the word is kept |
| GameStore.NoMatchKeeps | fronted/src/store/gameStore.ts:109 | a text without the word in any case is left alone |
| GameStore.MatchShrinks | fronted/src/store/gameStore.ts:109 | a text with the word in any case gets shorter |
| GameStore.StripUndefinedKeeps | fronted/src/store/gameStore.ts:109 | the text is unchanged exactly when the word does not occur in it, in any case |
| GameStore.TrimStartFacts | fronted/src/store/gameStore.ts:109 | trimming the start removes a white-space prefix and stops at the first other character |
| GameStore.TrimEndFacts | fronted/src/store/gameStore.ts:109 | trimming the end removes a white-space suffix and stops at the last other character |
| GameStore.TrimFacts | fronted/src/store/gameStore.ts:109 | the trimmed text sits between a white-space prefix and suffix and neither starts nor ends with white space |
| GameStore.TrimIdempotent | fronted/src/store/gameStore.ts:109 | trimming twice gives the same text as trimming once |
| GameStore.KeepSystem | fronted/src/store/gameStore.ts:208 | exactly the system messages are kept |
| GameStore.KeepSystemAppend | fronted/src/store/gameStore.ts:208 | the filter keeps the order of the messages it keeps |
| GameStore.KeepSystemIdempotent | fronted/src/store/gameStore.ts:206-209 | a second night filter removes nothing more |
| GameStore.FallbackSkill | fronted/src/store/gameStore.ts:240-250 | a named skill wins; otherwise the role gives it, and there is none exactly when neither a skill nor a skilled role is given |
| GameStore.AckOk | fronted/src/store/gameStore.ts:264 | the `ok` flag wins; otherwise the verdict is whether the status is "ok"; unknown exactly when neither is present |
| GameStore.PhasedFacts | fronted/src/store/gameStore.ts:195-212 | the phase is set; voting is open exactly in VOTE; the turn and the night action are reset with the role kept; NIGHT keeps only system messages; VOTE empties both vote tables; roster and replay untouched |
| GameStore.AckedFacts | fronted/src/store/gameStore.ts:260-279 | an ok verdict submits with no error; a refusal clears submitted and sets the message or the default text; no verdict leaves submitted and error and only a summary ends the wait |
| GameStore.SkillOfferedFacts | fronted/src/store/gameStore.ts:239-258 | the offered role replaces the held one only when present, the skill falls back on the role, and the status starts afresh |
| GameStore.ReplayLoadedFacts | fronted/src/store/gameStore.ts:281-289 | the replay runs from cursor 0 over the initial table (role map kept) with the new timeline, reviews, final roles and result |
| GameStore.MessagedFacts | fronted/src/store/gameStore.ts:105-115 | exactly one message is appended, with the cleaned text, and the sender becomes the speaker |
| GameStore.SpeechFacts | fronted/src/store/gameStore.ts:219-222 | a speech leaves one cleaned message more and nobody thinking or speaking |
| GameStore.ReviewedFacts | fronted/src/store/gameStore.ts:290-292 | the new reviews override held ones, and held ones not overridden are kept |
| GameStore.InitedFresh | fronted/src/store/gameStore.ts:167-190 | outside a replay, INIT gives the initial table with the new roster, whatever came before, except the replay cursor |
| GameStore.InitedDuringReplay | fronted/src/store/gameStore.ts:191-193 | during a replay, INIT replaces only the roster |
| GameStore.ReplayStartedFresh | fronted/src/store/gameStore.ts:140-159 | starting a replay gives the initial table, with the role map and the replay data kept, running from cursor 0 |
| GameStore.StopAfterSteps | fronted/src/store/gameStore.ts:160-162 | stepping before stopping makes no difference to the stopped state |
| GameStore.Store.constructor | fronted/src/store/gameStore.ts:66-83 | the store starts in the initial state, which keeps the invariant |
| GameStore.Store.SetRole | fronted/src/store/gameStore.ts:85 | only the role changes |
| GameStore.Store.SetPlayers | fronted/src/store/gameStore.ts:92 | only the roster and the player's own id change |
| GameStore.Store.SetRoleMap | fronted/src/store/gameStore.ts:94 | only the role map changes |
| GameStore.Store.SetThinking | fronted/src/store/gameStore.ts:99-100 | only the thinking player changes |
| GameStore.Store.SetSpeaking | fronted/src/store/gameStore.ts:102-103 | the speaker is set and nobody is thinking |
| GameStore.Store.AddMessage | fronted/src/store/gameStore.ts:105-115 | the state moves as `MessagedFacts` states |
| GameStore.Store.MarkDead | fronted/src/store/gameStore.ts:117-122 | the roster becomes `MarkDeadIn` of the roster |
| GameStore.Store.AddVote | fronted/src/store/gameStore.ts:124-135 | the vote is recorded and recounted, and the histogram invariant is kept for a non-empty target |
| GameStore.Store.ClearVotes | fronted/src/store/gameStore.ts:137-138 | both vote tables become empty, keeping the invariant |
| GameStore.Store.StartReplay | fronted/src/store/gameStore.ts:140-159 | the state moves as `ReplayStartedFresh` states, and the invariant holds afterwards whatever came before |
| GameStore.Store.StopReplay | fronted/src/store/gameStore.ts:160 | the replay stops and the cursor returns to 0 |
| GameStore.Store.StepReplay | fronted/src/store/gameStore.ts:161-162 | the cursor rises by exactly 1 |
| GameStore.Store.OnInit | fronted/src/store/gameStore.ts:167-194 | INIT as `InitedFresh` and `InitedDuringReplay` state |
| GameStore.Store.OnPhase | fronted/src/store/gameStore.ts:195-212 | PHASE as `PhasedFacts` states, the votes cleared by the later `clearVotes` call |
| GameStore.Store.OnSpeech | fronted/src/store/gameStore.ts:219-222 | SPEECH as `SpeechFacts` states |
| GameStore.Store.OnVoteEnd | fronted/src/store/gameStore.ts:226-228 | voting closes and nobody is thinking or speaking |
| GameStore.Store.OnRole | fronted/src/store/gameStore.ts:232-235 | the role is set, then announced in a system message |
| GameStore.Store.OnNightSkill | fronted/src/store/gameStore.ts:239-259 | NIGHT_SKILL as `SkillOfferedFacts` states |
| GameStore.Store.OnNightActionAck | fronted/src/store/gameStore.ts:260-280 | NIGHT_ACTION_ACK as `AckedFacts` states |
| GameStore.Store.OnReplayData | fronted/src/store/gameStore.ts:281-289 | REPLAY_DATA as `ReplayLoadedFacts` states, with the invariant holding afterwards |
| GameStore.Store.OnReview | fronted/src/store/gameStore.ts:290-292 | REVIEW as `ReviewedFacts` states |
| GameStore.Store.ApplyTableMessage | fronted/src/store/gameStore.ts:164-294 | INIT, PHASE, ROLE_MAP, DEATH, REPLAY_DATA and REVIEW each move the state as their action says |
| GameStore.Store.ApplyTalkMessage | fronted/src/store/gameStore.ts:213-228 | THINKING, SPEECH_START, SPEECH, VOTE and VOTE_END each move the state as their action says |
| GameStore.Store.ApplyNightMessage | fronted/src/store/gameStore.ts:232-280 | ROLE, NIGHT_SKILL and NIGHT_ACTION_ACK each move the state as their action says |
| GameStore.Store.ApplyServerMessage | fronted/src/store/gameStore.ts:164-294 | every message type moves the state as its action says, the types the client does not handle change nothing, and every message but a vote for the empty target keeps the invariant |
| ReplaySummary.FormatEvent | fronted/src/components/Replay/ReplaySummary.tsx:4-30 | empty exactly for a missing event or one without a type; a speech is "<id>: <text>"; a vote is the prefix then "<from> -> <to>"; an unknown type renders as the type |
| ReplaySummary.TimelineText | fronted/src/components/Replay/ReplaySummary.tsx:38-44 | no timeline gives no lines; otherwise one line per entry, in order, with the entry's tick and rendered event |
| ReplaySummary.ServerTimelineText | fronted/src/components/Replay/ReplaySummary.tsx:38-44 | the replay of the server's timeline lists ticks 0, 1, 2, ... with the events in the order they were sent |
| Protocol.TypeName | fronted/src/types/protocol.ts:28-41 | the wire `type` string of each server message, shared by the server's events and the client's message union |

## Left out

- **Transport.** Sockets, the connection manager, broadcasts, private messages (`NIGHT_SKILL` prompts, `SEER_RESULT`, the per-role night acknowledgements), sleeps, locks and tasks are I/O and concurrency. Sending is an append to the timeline. The connected seats are a fixed set, and the client messages that arrive during a phase's wait are an input sequence per phase. They are handled after the server-played ballots and speeches, because the ordering with the sleeps is not deterministic.
- **Arrival order within a phase.** Messages that arrive outside a waiting window are not modelled. At the server they would be stored or echoed at any moment.
- **Language-model calls and prompts.** These, the keyword suspicion heuristics, the personality weights and random voting are opaque or random. In the wolves' night each wolf's speech and kill proposal are inputs.
- **Floating-point scores.** Suspicion scores are `real`, not IEEE floats.
- **The demo roster.** The fixed `PLAYERS` and `ROLES` are parameters. The seer result is always sent to "P1", which is a private message and is not modelled.
- **The default poison target.** `choose_witch_poison_target` is modelled, but the server never calls it.
- **A single record field.** The session's `GAME` record is one record-valued field of the class with the seats folded in. The tick and the timeline are separate fields. An update in place of one dictionary entry is a reassignment of the record with that field changed.
- **Dictionary keys.** Python dictionaries are association lists with distinct keys. JavaScript objects used as dictionaries are maps, so keys inherited from the prototype are not modelled.
- **Missing message types.** A timeline event without a `type` is the message `Other("")`.
- **Client setters and display.** The client setters that no server message reaches (`setNightSkill`, `setNightTarget`, `setNightActionPending`, `setNightActionSubmitted`, `setNightActionError`, `setViewerMode`, `setPhase`) and `viewerMode` are UI state.
- **Rendering.** All React rendering other than `formatEvent` and the timeline text is not modelled.
- **Memory read-outs.** `AgentMemory.summary`, `visible_speeches` and `generate_memory_summary` are not modelled. They only read, and the last formats floats.
- **Engine player keys.** The engine state's `players` dictionary is a sequence of player records looked up by their `playerId` field, so a key that differs from its record's own `player_id` cannot be represented.
- **Non-boolean alive flags.** A player entry's `alive` is absent or a boolean. A present but falsy value of another type (`None`, `0`), which `set_players` treats as dead, cannot be represented.
- Channels.WolfChannel.GetContext: returns the shared log and has no contract of its own. The property that n broadcasts on a fresh memory give n entries in order is stated by `Engine.GameEngine.HandleWolfNight` about the channel it returns.
- Engine.GameEngine.HandleWolfNight: also returns the channel it builds, which `handle_wolf_night` drops, so that the channel's final log can be stated.
- GameStore.Store.AddVote: keeps the histogram invariant only for a non-empty target. An empty target is counted, but it can never be withdrawn later, because the code tests the previous vote for truthiness.
