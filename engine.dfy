/** The game engine of backend/game/engine.py with its state (state.py) and phases (phases.py). */
module Engine {
  import opened Wrappers
  import opened Seqs
  import Protocol
  import opened Victory
  import opened WolfConsensus
  import opened WolfMemory
  import opened Channels

  /** `Phase` of backend/game/phases.py. */
  datatype Phase = Night | Day | Vote | Ended

  /** The phase `next_phase` moves to: NIGHT -> DAY -> VOTE -> NIGHT; ENDED matches no branch and stays. */
  function NextOf(p: Phase): (q: Phase)
    ensures q == Ended <==> p == Ended
    ensures p != Ended ==> q != p
    ensures q == Night <==> p == Vote
    ensures p == Night ==> q == Day
    ensures p == Day ==> q == Vote
  {
    match p
    case Night => Day
    case Day => Vote
    case Vote => Night
    case Ended => Ended
  }

  function Ids(ps: seq<PlayerState>): (ids: seq<string>)
    ensures |ids| == |ps| && forall i :: 0 <= i < |ps| ==> ids[i] == ps[i].playerId
  {
    seq(|ps|, i requires 0 <= i < |ps| => ps[i].playerId)
  }

  /** `GameState`: the players (a dict keyed by id, kept in insertion order), the round and the history. */
  class GameState {
    var players: seq<PlayerState>
    var round: int
    var history: seq<string>

    ghost predicate Valid()
      reads this
    {
      NoDup(Ids(players))
    }

    constructor (players: seq<PlayerState>)
      requires NoDup(Ids(players))
      ensures Valid() && this.players == players && round == 0 && history == []
    {
      this.players := players;
      round := 0;
      history := [];
    }
  }

  /** What one wolf's night turn produced: an optional speech to the pack and a kill proposal. */
  datatype WolfTurn = WolfTurn(playerId: string, speech: Option<string>, kill: Option<string>)

  /** One proposal (the wolf's id and its kill) for each wolf, in wolf order. */
  function ProposalsOf(turns: seq<WolfTurn>): (rs: seq<Proposal>)
    ensures |rs| == |turns|
    ensures forall i :: 0 <= i < |turns| ==> rs[i] == Proposal(turns[i].playerId, turns[i].kill)
  {
    seq(|turns|, i requires 0 <= i < |turns| => Proposal(turns[i].playerId, turns[i].kill))
  }

  /** The night log after each wolf with a speech broadcast it, in wolf order. */
  function SpeechesOf(turns: seq<WolfTurn>): seq<NightLog> {
    if turns == [] then []
    else
      var last := turns[|turns| - 1];
      SpeechesOf(turns[..|turns| - 1]) + (if last.speech.Some? then [NightLog(last.playerId, last.speech.value)] else [])
  }

  class GameEngine {
    const state: GameState
    var phase: Phase

    /** A fresh engine starts at night and leaves the state it is given alone. */
    constructor (state: GameState)
      ensures this.state == state && phase == Night
    {
      this.state := state;
      phase := Night;
    }

    /** `next_phase`: advances the cycle; only VOTE -> NIGHT counts a new round. */
    method NextPhase()
      modifies this`phase, state`round
      ensures phase == NextOf(old(phase))
      ensures state.round == old(state.round) + (if old(phase) == Vote then 1 else 0)
    {
      if phase == Night {
        phase := Day;
      } else if phase == Day {
        phase := Vote;
      } else if phase == Vote {
        phase := Night;
        state.round := state.round + 1;
      }
    }

    /**
     * `kill_player`: marks the player dead and appends "<id> died" to the
     * history. An unknown id raises KeyError before anything changes, which is
     * `found == false` here.
     */
    method KillPlayer(playerId: string) returns (found: bool)
      requires state.Valid()
      modifies state`players, state`history
      ensures state.Valid()
      ensures found <==> playerId in Ids(old(state.players))
      ensures found ==> |state.players| == |old(state.players)|
      ensures found ==> forall i :: 0 <= i < |state.players| ==>
        state.players[i] == (if old(state.players[i].playerId) == playerId
                             then old(state.players[i]).(alive := false) else old(state.players[i]))
      ensures found ==> state.history == old(state.history) + [playerId + " died"]
      ensures !found ==> state.players == old(state.players) && state.history == old(state.history)
    {
      found := playerId in Ids(state.players);
      if found {
        var i := FirstIndex(Ids(state.players), playerId);
        state.players := state.players[i := state.players[i].(alive := false)];
        assert Ids(state.players) == Ids(old(state.players));
        state.history := state.history + [playerId + " died"];
      }
    }

    /** `check_game_end`: the victory predicate over the current players. */
    function CheckGameEnd(): (r: Option<Protocol.Outcome>)
      reads this, state
      ensures r == CheckVictory(state.players)
    {
      CheckVictory(state.players)
    }

    /**
     * `handle_wolf_night`: every wolf, in order, speaks on a fresh shared
     * channel (when it has something to say) and proposes a kill; the result is
     * the consensus over the proposals. `channel` is the channel the wolves
     * spoke on, handed back so that its final log can be stated.
     */
    method HandleWolfNight(wolves: seq<WolfTurn>) returns (target: Option<string>, channel: WolfChannel)
      ensures target == ReachKillConsensus(ProposalsOf(wolves))
      ensures channel.GetContext() == SpeechesOf(wolves)
    {
      var sharedMemory := new WolfSharedMemory();
      channel := new WolfChannel(sharedMemory);
      var kills: seq<Proposal> := [];
      var i := 0;
      while i < |wolves|
        invariant 0 <= i <= |wolves|
        invariant kills == ProposalsOf(wolves[..i])
        invariant channel.memory == sharedMemory
        invariant sharedMemory.nightLogs == SpeechesOf(wolves[..i])
      {
        var wolf := wolves[i];
        if wolf.speech.Some? {
          channel.Broadcast(wolf.playerId, wolf.speech.value);
        }
        kills := kills + [Proposal(wolf.playerId, wolf.kill)];
        assert wolves[..i + 1][..i] == wolves[..i];
        i := i + 1;
      }
      assert wolves[..i] == wolves;
      target := ReachKillConsensus(kills);
    }
  }
}
