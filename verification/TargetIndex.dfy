/** The two copies of the target main index: in memory, where -1 means not loaded, and in the ConfigMap.
    Any index may be stored. A write that is reported as failed has no effect, or is lost: the ConfigMap
    changed and memory did not. */
module TargetIndex {
  import opened Common

  class TargetIndex {
    var memory: int
    var stored: Option<int>   // None for a missing ConfigMap or one without a number

    /** Memory is not loaded, or holds what is stored. */
    predicate Agrees()
      reads this
    {
      memory == -1 || stored == Some(memory)
    }

    constructor (stored: Option<int>)
      ensures this.stored == stored && memory == -1 && Agrees()
    {
      this.stored := stored;
      memory := -1;
    }

    /** What is loaded once is not read again. */
    method GetTargetMainIndex() returns (index: int, ok: bool)
      modifies this
      ensures stored == old(stored) && (old(Agrees()) ==> Agrees())
      ensures old(memory) != -1 ==> ok && index == old(memory) == memory
      ensures old(memory) == -1 ==> if ok then stored == Some(index) && memory == index else index == -1 && memory == -1
    {
      if memory != -1 {
        return memory, true;
      }
      var readable: bool := *;
      if stored.None? || !readable {
        return -1, false;
      }
      memory := stored.value;
      return memory, true;
    }

    /** ConfigMap first, then memory. The copies fall apart exactly when a write that changed the stored
        index is lost while another index is loaded. */
    method SetTargetMainIndex(index: int) returns (ok: bool)
      modifies this
      ensures ok ==> memory == index && stored == Some(index)
      ensures !ok ==> memory == old(memory) && (stored == old(stored) || stored == Some(index))
      ensures old(Agrees()) ==> (Agrees() <==> ok || stored == old(stored) || memory == -1)
    {
      var effect: bool, reported: bool := *, *;
      ok := effect && reported;
      if effect {
        stored := Some(index);
      }
      if ok {
        memory := index;
      }
    }
  }
}
