/**
 * The test double `TestAuxVM`: it logs every action batch it is sent and,
 * when `processEvents` is on, applies the batch to its own bot table and
 * emits one update record describing the batch.
 */
module AuxVm {
  import opened Wrappers
  import opened Bots
  import opened Batch
  import Tags

  class TestAuxVM {
    /** Every action ever sent, in order. */
    var events: seq<BotAction>
    /** Every formula ever sent, in order. */
    var formulas: seq<string>
    /** Whether sent batches are applied to `state`. */
    var processEvents: bool
    /** The bot table. */
    var state: BotsState
    /** The update records emitted on `stateUpdated`, in order. */
    ghost var updates: seq<StateUpdate>

    constructor ()
      ensures events == [] && formulas == []
      ensures !processEvents && state == map[]
      ensures updates == []
    {
      events := [];
      formulas := [];
      processEvents := false;
      state := map[];
      updates := [];
    }

    /**
     * Logs the batch; when processing is on, applies it action by action
     * and emits the update record if any of its id lists is non-empty.
     */
    method SendEvents(batch: seq<BotAction>, merge: Merge)
      modifies this
      ensures events == old(events) + batch
      ensures formulas == old(formulas) && processEvents == old(processEvents)
      ensures state == if processEvents then ApplyAll(old(state), batch, merge) else old(state)
      ensures updates == old(updates) +
        (if processEvents && HasBotAction(batch) then [BuildUpdate(batch)] else [])
    {
      events := events + batch;
      if processEvents {
        var patch: map<BotId, PatchEntry> := map[];
        var added: seq<BotId> := [];
        var removed: seq<BotId> := [];
        var updated: seq<BotId> := [];
        for i := 0 to |batch|
          invariant events == old(events) + batch && formulas == old(formulas)
          invariant processEvents && updates == old(updates)
          invariant state == ApplyAll(old(state), batch[..i], merge)
          invariant StateUpdate(patch, added, removed, updated, None) == BuildUpdate(batch[..i])
        {
          assert batch[..i + 1][..i] == batch[..i];
          match batch[i] {
            case AddBot(bot) =>
              state := state[bot.id := bot];
              patch := patch[bot.id := Whole(bot)];
              added := added + [bot.id];
            case RemoveBot(id) =>
              state := state - {id};
              patch := patch[id := Deleted];
              removed := removed + [id];
            case UpdateBot(id, update) =>
              state := state[id := merge(Lookup(state, id), update)];
              patch := patch[id := Partial(update)];
              updated := updated + [id];
            case OtherAction(_) =>
          }
        }
        assert batch[..|batch|] == batch;
        EmitsIffBotAction(batch);
        if |added| > 0 || |removed| > 0 || |updated| > 0 {
          updates := updates + [StateUpdate(patch, added, removed, updated, None)];
        }
      }
    }

    /** Logs the formulas, in order; nothing else changes. */
    method FormulaBatch(fs: seq<string>)
      modifies this
      ensures formulas == old(formulas) + fs
      ensures events == old(events) && state == old(state)
      ensures processEvents == old(processEvents) && updates == old(updates)
    {
      formulas := formulas + fs;
    }

    /** Emits a caller-built update record as it is, version included; nothing else changes. */
    method SendState(update: StateUpdate)
      modifies this
      ensures updates == old(updates) + [update]
      ensures events == old(events) && formulas == old(formulas)
      ensures state == old(state) && processEvents == old(processEvents)
    {
      updates := updates + [update];
    }

    /**
     * The sorted tag names of the active bots: strictly increasing (so
     * without duplicates) and holding exactly the names some active bot has.
     */
    function GetTags(activeObjects: BotsState -> seq<Bot>, tagsOnBot: Bot -> seq<string>): (r: seq<string>)
      reads this
      ensures Tags.StrictlySorted(r)
      ensures forall t :: t in r <==>
        exists k :: 0 <= k < |activeObjects(state)| && t in tagsOnBot(activeObjects(state)[k])
    {
      var objects := activeObjects(state);
      var lists := seq(|objects|, k requires 0 <= k < |objects| => tagsOnBot(objects[k]));
      assert forall k :: 0 <= k < |objects| ==> lists[k] == tagsOnBot(objects[k]);
      Tags.SortedUnion(lists)
    }
  }
}
