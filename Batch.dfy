/**
 * What one processed batch does to the state table and to the update
 * record, written as functions over the batch, with the properties the
 * applier in `TestAuxVM.sendEvents` promises proved about them.
 *
 * The folds are defined from the END of the batch, so that the loop in
 * `TestAuxVM.SendEvents`, which walks the batch from the front, extends
 * a prefix by one action per step.
 */
module Batch {
  import opened Wrappers
  import opened Bots

  /** The foreign `merge(old, update)` from aux-common, left uninterpreted. */
  type Merge = (Option<Bot>, PartialBot) -> Bot

  /** Which of the three id lists of the update record an action extends. */
  datatype ListKind = Added | Removed | Updated

  /** `state[id]`, with `undefined` as `None`. */
  function Lookup(s: BotsState, id: BotId): Option<Bot>
  {
    if id in s then Some(s[id]) else None
  }

  predicate IsBotAction(a: BotAction)
  {
    a.AddBot? || a.RemoveBot? || a.UpdateBot?
  }

  /** The id a bot action is about: the added bot's own id, or the action's id. */
  function Target(a: BotAction): BotId
    requires IsBotAction(a)
  {
    if a.AddBot? then a.bot.id else a.id
  }

  function KindOf(a: BotAction): Option<ListKind>
  {
    match a
    case AddBot(_) => Some(Added)
    case RemoveBot(_) => Some(Removed)
    case UpdateBot(_, _) => Some(Updated)
    case OtherAction(_) => None
  }

  /** The entry a bot action writes into the record's `state` patch. */
  function PatchOf(a: BotAction): PatchEntry
    requires IsBotAction(a)
  {
    if a.AddBot? then Whole(a.bot)
    else if a.RemoveBot? then Deleted
    else Partial(a.update)
  }

  /** Action `i` of `xs` is a bot action about `id`. */
  predicate TargetsAt(xs: seq<BotAction>, i: int, id: BotId)
  {
    0 <= i < |xs| && IsBotAction(xs[i]) && Target(xs[i]) == id
  }

  /** Some bot action of `xs` is about `id`. */
  predicate Touches(xs: seq<BotAction>, id: BotId)
  {
    exists i :: 0 <= i < |xs| && TargetsAt(xs, i, id)
  }

  /** `xs` holds at least one add_bot, remove_bot or update_bot. */
  predicate HasBotAction(xs: seq<BotAction>)
  {
    exists i :: 0 <= i < |xs| && IsBotAction(xs[i])
  }

  // ---------------------------------------------------------------------
  // The state table
  // ---------------------------------------------------------------------

  /** The effect of one action on the table. */
  function Apply(s: BotsState, a: BotAction, merge: Merge): BotsState
  {
    match a
    case AddBot(bot) => s[bot.id := bot]
    case RemoveBot(id) => s - {id}
    case UpdateBot(id, update) => s[id := merge(Lookup(s, id), update)]
    case OtherAction(_) => s
  }

  /** The table after the whole batch, actions applied in order. */
  function ApplyAll(s: BotsState, xs: seq<BotAction>, merge: Merge): BotsState
    decreases |xs|
  {
    if xs == [] then s
    else Apply(ApplyAll(s, xs[..|xs| - 1], merge), xs[|xs| - 1], merge)
  }

  // ---------------------------------------------------------------------
  // The update record
  // ---------------------------------------------------------------------

  const EmptyUpdate := StateUpdate(map[], [], [], [], None)

  /** The record after one more action has been noted in it. */
  function Record(u: StateUpdate, a: BotAction): StateUpdate
  {
    match a
    case AddBot(bot) =>
      u.(state := u.state[bot.id := Whole(bot)], addedBots := u.addedBots + [bot.id])
    case RemoveBot(id) =>
      u.(state := u.state[id := Deleted], removedBots := u.removedBots + [id])
    case UpdateBot(id, update) =>
      u.(state := u.state[id := Partial(update)], updatedBots := u.updatedBots + [id])
    case OtherAction(_) => u
  }

  /** The record built by a whole batch, starting from the empty record. */
  function BuildUpdate(xs: seq<BotAction>): StateUpdate
    decreases |xs|
  {
    if xs == [] then EmptyUpdate
    else Record(BuildUpdate(xs[..|xs| - 1]), xs[|xs| - 1])
  }

  /** The emission condition of `sendEvents`: some id list is non-empty. */
  predicate Emits(u: StateUpdate)
  {
    |u.addedBots| > 0 || |u.removedBots| > 0 || |u.updatedBots| > 0
  }

  function ListOf(u: StateUpdate, k: ListKind): seq<BotId>
  {
    match k
    case Added => u.addedBots
    case Removed => u.removedBots
    case Updated => u.updatedBots
  }

  /**
   * Reference definition of a list, read from the front of the batch: the
   * ids of the actions of kind `k`, one per action, in batch order.
   */
  function IdsOf(xs: seq<BotAction>, k: ListKind): seq<BotId>
    decreases |xs|
  {
    if xs == [] then []
    else (if KindOf(xs[0]) == Some(k) then [Target(xs[0])] else []) + IdsOf(xs[1..], k)
  }

  /** The batch without its non-bot actions. */
  function BotActionsOnly(xs: seq<BotAction>): seq<BotAction>
    decreases |xs|
  {
    if xs == [] then []
    else BotActionsOnly(xs[..|xs| - 1]) + (if IsBotAction(xs[|xs| - 1]) then [xs[|xs| - 1]] else [])
  }

  // ---------------------------------------------------------------------
  // Lemmas
  // ---------------------------------------------------------------------

  lemma SplitLast(xs: seq<BotAction>)
    requires xs != []
    ensures xs == xs[..|xs| - 1] + [xs[|xs| - 1]]
  {
  }

  lemma {:induction false} IdsOfAppend(xs: seq<BotAction>, a: BotAction, k: ListKind)
    ensures IdsOf(xs + [a], k) == IdsOf(xs, k) + IdsOf([a], k)
    decreases |xs|
  {
    if xs == [] {
      assert [] + [a] == [a];
    } else {
      assert (xs + [a])[0] == xs[0];
      assert (xs + [a])[1..] == xs[1..] + [a];
      IdsOfAppend(xs[1..], a, k);
    }
  }

  /**
   * Each of `addedBots`, `removedBots` and `updatedBots` gets exactly one id
   * per action of its kind, in batch order, and nothing else.
   */
  lemma {:induction false} ListsFollowBatchOrder(xs: seq<BotAction>, k: ListKind)
    ensures ListOf(BuildUpdate(xs), k) == IdsOf(xs, k)
    decreases |xs|
  {
    if xs != [] {
      var init, a := xs[..|xs| - 1], xs[|xs| - 1];
      SplitLast(xs);
      ListsFollowBatchOrder(init, k);
      IdsOfAppend(init, a, k);
      assert ListOf(Record(BuildUpdate(init), a), k)
          == ListOf(BuildUpdate(init), k) + IdsOf([a], k);
    }
  }

  /** An update record is emitted exactly when the batch has a bot action. */
  lemma {:induction false} EmitsIffBotAction(xs: seq<BotAction>)
    ensures Emits(BuildUpdate(xs)) <==> HasBotAction(xs)
    decreases |xs|
  {
    if xs != [] {
      var init, a := xs[..|xs| - 1], xs[|xs| - 1];
      EmitsIffBotAction(init);
      if HasBotAction(init) {
        var i :| 0 <= i < |init| && IsBotAction(init[i]);
        assert xs[i] == init[i];
      }
      if HasBotAction(xs) && !IsBotAction(a) {
        var i :| 0 <= i < |xs| && IsBotAction(xs[i]);
        assert i < |init| && init[i] == xs[i];
      }
      if IsBotAction(a) {
        assert IsBotAction(xs[|xs| - 1]);
      }
    }
  }

  /**
   * The keys of the record's `state` patch are exactly the ids some bot
   * action of the batch is about.
   */
  lemma {:induction false} PatchKeysAreTouchedIds(xs: seq<BotAction>, id: BotId)
    ensures id in BuildUpdate(xs).state <==> Touches(xs, id)
    decreases |xs|
  {
    if xs != [] {
      var init, a := xs[..|xs| - 1], xs[|xs| - 1];
      PatchKeysAreTouchedIds(init, id);
      if Touches(init, id) {
        var i :| 0 <= i < |init| && TargetsAt(init, i, id);
        assert xs[i] == init[i];
        assert TargetsAt(xs, i, id);
      }
      if Touches(xs, id) && !TargetsAt(xs, |xs| - 1, id) {
        var i :| 0 <= i < |xs| && TargetsAt(xs, i, id);
        assert i < |init| && init[i] == xs[i];
        assert TargetsAt(init, i, id);
      }
      if TargetsAt(xs, |xs| - 1, id) {
        assert Target(a) == id;
      }
    }
  }

  /**
   * For an id written more than once, the record keeps the entry of the
   * LAST action about it.
   */
  lemma {:induction false} PatchIsLastWrite(xs: seq<BotAction>, i: int, id: BotId)
    requires TargetsAt(xs, i, id)
    requires forall j :: i < j < |xs| ==> !TargetsAt(xs, j, id)
    ensures id in BuildUpdate(xs).state && BuildUpdate(xs).state[id] == PatchOf(xs[i])
    decreases |xs|
  {
    var init, a := xs[..|xs| - 1], xs[|xs| - 1];
    if i < |xs| - 1 {
      assert !TargetsAt(xs, |xs| - 1, id);
      forall j | i < j < |init| ensures !TargetsAt(init, j, id) {
        assert !TargetsAt(xs, j, id);
      }
      PatchIsLastWrite(init, i, id);
    }
  }

  /** An id no bot action of the batch is about keeps its table entry (or its absence). */
  lemma {:induction false} UntouchedIdKeepsEntry(s: BotsState, xs: seq<BotAction>, merge: Merge, id: BotId)
    requires !Touches(xs, id)
    ensures Lookup(ApplyAll(s, xs, merge), id) == Lookup(s, id)
    decreases |xs|
  {
    if xs != [] {
      var init := xs[..|xs| - 1];
      assert !TargetsAt(xs, |xs| - 1, id);
      forall j | 0 <= j < |init| ensures !TargetsAt(init, j, id) {
        assert !TargetsAt(xs, j, id);
      }
      UntouchedIdKeepsEntry(s, init, merge, id);
    }
  }

  /**
   * The final table entry of an id is decided by the last action about it:
   * present with the added bot, absent after a removal (whether or not it
   * was there before), or the merge of the entry as it stood just before
   * that action with the partial update.
   */
  lemma {:induction false} FinalEntryIsLastWrite(s: BotsState, xs: seq<BotAction>, merge: Merge, i: int, id: BotId)
    requires TargetsAt(xs, i, id)
    requires forall j :: i < j < |xs| ==> !TargetsAt(xs, j, id)
    ensures xs[i].AddBot? ==> Lookup(ApplyAll(s, xs, merge), id) == Some(xs[i].bot)
    ensures xs[i].RemoveBot? ==> Lookup(ApplyAll(s, xs, merge), id) == None
    ensures xs[i].UpdateBot? ==>
      Lookup(ApplyAll(s, xs, merge), id) == Some(merge(Lookup(ApplyAll(s, xs[..i], merge), id), xs[i].update))
    decreases |xs|
  {
    var init := xs[..|xs| - 1];
    if i < |xs| - 1 {
      assert !TargetsAt(xs, |xs| - 1, id);
      forall j | i < j < |init| ensures !TargetsAt(init, j, id) {
        assert !TargetsAt(xs, j, id);
      }
      FinalEntryIsLastWrite(s, init, merge, i, id);
      assert init[..i] == xs[..i];
    } else {
      assert init == xs[..i];
    }
  }

  /** Actions of any other type change neither the table nor the record. */
  lemma {:induction false} OtherActionsChangeNothing(s: BotsState, xs: seq<BotAction>, merge: Merge)
    ensures ApplyAll(s, BotActionsOnly(xs), merge) == ApplyAll(s, xs, merge)
    ensures BuildUpdate(BotActionsOnly(xs)) == BuildUpdate(xs)
    decreases |xs|
  {
    if xs != [] {
      var init, a := xs[..|xs| - 1], xs[|xs| - 1];
      OtherActionsChangeNothing(s, init, merge);
      var ys := BotActionsOnly(init);
      if IsBotAction(a) {
        assert (ys + [a])[..|ys + [a]| - 1] == ys;
      } else {
        assert BotActionsOnly(xs) == ys + [];
        assert ys + [] == ys;
      }
    }
  }

  /**
   * A removal followed by an add of the same id within one batch leaves the
   * added bot in the table, and the record lists the id as both removed and
   * added (never as updated).
   */
  lemma RemoveThenAdd(s: BotsState, bot: Bot, merge: Merge)
    ensures Lookup(ApplyAll(s, [RemoveBot(bot.id), AddBot(bot)], merge), bot.id) == Some(bot)
    ensures BuildUpdate([RemoveBot(bot.id), AddBot(bot)])
         == StateUpdate(map[bot.id := Whole(bot)], [bot.id], [bot.id], [], None)
  {
    var xs := [RemoveBot(bot.id), AddBot(bot)];
    assert xs[..1] == [RemoveBot(bot.id)];
    assert xs[..1][..0] == [];
    assert ApplyAll(s, xs[..1], merge) == s - {bot.id};
    assert BuildUpdate(xs[..1]) == StateUpdate(map[bot.id := Deleted], [], [bot.id], [], None);
    assert map[bot.id := Deleted][bot.id := Whole(bot)] == map[bot.id := Whole(bot)];
  }

  /**
   * Two updates of one bot in one batch are merged in order, and the record
   * keeps only the second partial update.
   */
  lemma LaterUpdateWins(s: BotsState, id: BotId, u1: PartialBot, u2: PartialBot, merge: Merge)
    ensures Lookup(ApplyAll(s, [UpdateBot(id, u1), UpdateBot(id, u2)], merge), id)
         == Some(merge(Some(merge(Lookup(s, id), u1)), u2))
    ensures BuildUpdate([UpdateBot(id, u1), UpdateBot(id, u2)])
         == StateUpdate(map[id := Partial(u2)], [], [], [id, id], None)
  {
    var xs := [UpdateBot(id, u1), UpdateBot(id, u2)];
    assert xs[..1] == [UpdateBot(id, u1)];
    assert xs[..1][..0] == [];
    var mid := s[id := merge(Lookup(s, id), u1)];
    assert ApplyAll(s, xs[..1], merge) == mid;
    assert Lookup(mid, id) == Some(merge(Lookup(s, id), u1));
    assert BuildUpdate(xs[..1]) == StateUpdate(map[id := Partial(u1)], [], [], [id], None);
    assert map[id := Partial(u1)][id := Partial(u2)] == map[id := Partial(u2)];
  }
}
