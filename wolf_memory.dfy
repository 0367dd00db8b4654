/** The memory all werewolves share at night (backend/agents/wolf/wolf_memory.py). */
module WolfMemory {
  import opened Wrappers
  import opened Dicts

  /** One line of the night discussion: `{"wolf": id, "message": text}`. */
  datatype NightLog = NightLog(wolf: string, message: string)

  class WolfSharedMemory {
    var wolves: seq<string>
    var nightLogs: seq<NightLog>
    var suspicionTable: Dict<real>
    var lastKill: Option<string>

    ghost predicate Valid()
      reads this
    {
      DistinctKeys(suspicionTable)
    }

    constructor ()
      ensures Valid()
      ensures wolves == [] && nightLogs == [] && suspicionTable == [] && lastKill == None
    {
      wolves := [];
      nightLogs := [];
      suspicionTable := [];
      lastKill := None;
    }

    /** `add_message`: one record more at the end, the earlier ones untouched. */
    method AddMessage(wolf: string, message: string)
      modifies this`nightLogs
      ensures nightLogs == old(nightLogs) + [NightLog(wolf, message)]
      ensures |nightLogs| == |old(nightLogs)| + 1 && nightLogs[..|old(nightLogs)|] == old(nightLogs)
    {
      nightLogs := nightLogs + [NightLog(wolf, message)];
    }

    /** `update_suspicion`: adds `delta` to the player's shared score (0 when unknown). */
    method UpdateSuspicion(playerId: string, delta: real)
      requires Valid()
      modifies this`suspicionTable
      ensures Valid()
      ensures Get(suspicionTable, playerId) == Some(GetOr(old(suspicionTable), playerId, 0.0) + delta)
      ensures forall k :: k != playerId ==> Get(suspicionTable, k) == Get(old(suspicionTable), k)
    {
      PutDistinct(suspicionTable, playerId, GetOr(suspicionTable, playerId, 0.0) + delta);
      suspicionTable := Put(suspicionTable, playerId, GetOr(suspicionTable, playerId, 0.0) + delta);
    }
  }
}
