/** The werewolves' private night channel (backend/agents/wolf/wolf_channel.py). */
module Channels {
  import opened WolfMemory

  class WolfChannel {
    const memory: WolfSharedMemory

    constructor (sharedMemory: WolfSharedMemory)
      ensures memory == sharedMemory
    {
      memory := sharedMemory;
    }

    /** `broadcast`: the shared log grows by exactly this message, recorded verbatim. */
    method Broadcast(wolfId: string, message: string)
      modifies memory`nightLogs
      ensures memory.nightLogs == old(memory.nightLogs) + [NightLog(wolfId, message)]
    {
      memory.AddMessage(wolfId, message);
    }

    /** `get_context`: the shared night log itself (reading it changes nothing). */
    function GetContext(): seq<NightLog>
      reads this, memory
    {
      memory.nightLogs
    }
  }
}
