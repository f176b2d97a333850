/**
 * The value types the test VM works on: bots, the actions that change a
 * table of bots, and the update record it emits to observers.
 */
module Bots {
  import opened Wrappers

  /** Bot ids are opaque strings, unique within one state table. */
  type BotId = string

  /** A raw tag value; the source types these as `any`, here a closed variant. */
  datatype TagValue =
    | TagNull
    | TagBool(b: bool)
    | TagNumber(n: int)
    | TagText(text: string)
    | TagList(items: seq<TagValue>)

  /** A bot: its id, the space that owns it (optional) and its tags. */
  datatype Bot = Bot(id: BotId, space: Option<string>, tags: map<string, TagValue>)

  /** `Partial<Bot>`: every field may be missing. */
  datatype PartialBot = PartialBot(id: Option<BotId>, space: Option<string>, tags: Option<map<string, TagValue>>)

  /** The table the VM mutates in place: bot id to bot. */
  type BotsState = map<BotId, Bot>

  /**
   * The actions a batch may hold. The three bot actions are the ones the
   * applier interprets; every other action type (shouts, device and local
   * actions, ...) is represented by its type name only.
   */
  datatype BotAction =
    | AddBot(bot: Bot)
    | RemoveBot(id: BotId)
    | UpdateBot(id: BotId, update: PartialBot)
    | OtherAction(actionType: string)

  /**
   * One entry of an update record's `state` patch: the whole bot that was
   * added, `null` for a removed bot, or the partial update that was merged in.
   */
  datatype PatchEntry = Whole(bot: Bot) | Deleted | Partial(update: PartialBot)

  /**
   * The `RuntimeStateVersion` a record may carry, reduced to per-site
   * counters; nothing in the model inspects it.
   */
  type StateVersion = map<string, int>

  /**
   * An update record. Records built by a processed batch have no version
   * (`null`); a record handed to `sendState` may carry one.
   */
  datatype StateUpdate = StateUpdate(
    state: map<BotId, PatchEntry>,
    addedBots: seq<BotId>,
    removedBots: seq<BotId>,
    updatedBots: seq<BotId>,
    version: Option<StateVersion>)
}
