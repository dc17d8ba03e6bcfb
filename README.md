# Dark Omens game-state engine in Dafny

This project models the in-memory state engine of Dark Omens, a turn-based
cooperative board game. The engine has five layers:

- **Card decks.** `Deck`, and its older duplicate `DeckManager`, keep three
  piles: the draw pile, the discard pile and the cards removed from the game.
  The top card of a pile is its last element. When the draw pile runs out,
  the discard pile is reshuffled into it. A deck saves its piles as id
  snapshots, and restoring a snapshot fails on an id that is not in the
  deck's card database.
- **Deck registries.** `AllDecks` is a keyed registry of decks, and its
  restore is all-or-nothing. `AllDecksManager` holds exactly three decks:
  asset, spell and condition. Its restore swaps in empty decks first, so a
  failure part-way leaves some decks restored and the others empty.
- **Id-list collections.** `Market` and `MarketService` are the bounded
  asset shop, which backfills from the asset deck. `Clue`, `Gate` and
  `ClueService` are the open clue and gate lists.
- **Players.** `Player` and `PlayerService` hold the player records. They
  enforce the per-phase action budget, heal and lose health and sanity
  within bounds (a loss to 0 defeats the player), clamp skill modifiers and
  classify locations into encounter types.
- **Turn machines and encounters.** Three turn machines step through the
  phases Action, Encounter and Mythos and rotate the lead investigator:
  `GameFlow`, the inline one in `GameService`, and the inline one in `Game`.
  `Encounter` keeps at most one pending encounter and resolves it into its
  success or failure effects.

Each TypeScript class with mutable state is a Dafny `class`:

- The arrays the TypeScript code mutates are `seq` fields.
- The injected state services are plain fields.
- The structured log keys are a ghost `seq<string>`.

The pure logic is written once and shared by the duplicate classes:

- the pile snapshot and restore (module `Piles`);
- the player-record rules (`Players`);
- location classification (`Locations`);
- the turn steps (`Turns`).

Each method's `ensures` ties the new state to those functions, and lemmas
prove what the functions promise. Examples: the snapshot round trip, the
action budget, the defeat being final, sorting commuting with clearing
actions, three phase steps making one round, and the lead coming back after
one round per player.

Numbers are modelled as unbounded `int`. `Math.random` shuffles are any
permutation. Exceptions are `Result`/`Option` values or, where the TypeScript code
would crash (an empty player list, a deck kind a registry does not hold),
preconditions. Where the TypeScript code calls a method that does not exist,
the model gives the behaviour the call evidently intends. Each such
precondition and each such call is listed under "## Left out".

## Model

| member | source | states |
|---|---|---|
| Seqs.FirstIndex | src/application/GameFlow/GameFlow.ts:81-86 | `findIndex`: -1 exactly when no element satisfies the predicate, otherwise the first index that does |
| Seqs.IndexOf | src/domain/Market/Market.ts:38 | `indexOf`: -1 exactly when the value is absent, otherwise its first position |
| Seqs.RemoveAt | src/domain/Market/Market.ts:41 | `splice(i, 1)`: one element shorter, the elements before `i` kept and the later ones shifted down by one |
| Seqs.RemoveAtMultiset | src/infrastructure/Deck/Deck.ts:74-79 | removing one element takes exactly one copy of it out of the multiset |
| Seqs.SliceFrom | src/infrastructure/Deck/Deck.ts:81-83 | `slice(start)` is a suffix: a negative start counts from the end, a start past the end gives the empty list |
| Helpers.ClampValue | src/helpers/clampValue.ts:1-3 | the result is in `[min, max]` when `min <= max`; a value in range is kept; below gives min, above gives max; `min > max` gives max |
| Helpers.ClampValueIdempotent | src/helpers/clampValue.ts:1-3 | clamping twice into the same range is clamping once |
| Helpers.ResolveCards | src/helpers/resolveCards.ts:1-6 | at most as many results as ids; every resolved id's value is in the result and every result came from a resolved id; when all ids resolve, the result is them in order |
| Helpers.ResolveCardsAppend | src/helpers/resolveCards.ts:1-6 | the result is built id by id in order: appending an id appends its value when it resolves and nothing otherwise |
| Helpers.ResolveCardsEmpty | src/helpers/resolveCards.ts:5 | no ids resolve to an empty list |
| Piles.Ids | src/infrastructure/Deck/Deck.ts:37-43 | the id list has one entry per card, in pile order |
| Piles.ResolveKnown | src/infrastructure/Deck/Deck.ts:45-47 | resolving through a card database keeps exactly the known ids, in order, and keeps all of them when all are known |
| Piles.ResolveIds | src/infrastructure/Deck/Deck.ts:23-35 | strict resolution succeeds exactly when every id is known, giving the cards in order; otherwise the error is the first unknown id |
| Piles.RestorePiles | src/infrastructure/Deck/Deck.ts:23-35 | a restore succeeds exactly when every id of all three piles is known; the error comes from the first pile, in draw, discard, removed order, that holds an unknown id |
| Piles.RestoreThenSnapshot | src/infrastructure/Deck/Deck.ts:23-43 | restoring a snapshot whose ids are all known and reading the state back gives the same snapshot |
| Piles.SnapshotThenRestore | src/infrastructure/Deck/Deck.ts:23-43 | snapshotting piles of database cards and restoring the snapshot gives the same piles |
| Piles.FirstMatch | src/infrastructure/Deck/Deck.ts:74-79 | the first card whose field equals the value, or -1 exactly when none does |
| Piles.Shuffle | src/infrastructure/Deck/Deck.ts:58-60 | the result is a permutation of the input |
| Decks.Deck.constructor | src/infrastructure/Deck/Deck.ts:10-13 | a new deck has three empty piles and the given card database |
| Decks.Deck.Initialize | src/infrastructure/Deck/Deck.ts:15-21 | the draw pile becomes a permutation of the given cards; the other two piles are emptied |
| Decks.Deck.RestoreFromState | src/infrastructure/Deck/Deck.ts:23-35 | succeeds exactly when every id is known, and then `getState` returns the snapshot; on failure the error is an unknown id and the piles are untouched |
| Decks.Deck.GetCardById | src/infrastructure/Deck/Deck.ts:45-47 | answers from the card database whatever pile the card is in |
| Decks.Deck.GetState | src/infrastructure/Deck/Deck.ts:37-43 | the i-th id of each snapshot list is the id of the i-th card of that pile, for every pile; for piles of database cards the snapshot restores to exactly these piles |
| Decks.Deck.Draw | src/infrastructure/Deck/Deck.ts:49-56 | pops the top of a non-empty draw pile; otherwise the discards move to the draw pile and one card is popped, so draw plus discard lose exactly the returned card; with both empty, None and no change; the removed pile is never touched |
| Decks.Deck.ShuffleDrawPile | src/infrastructure/Deck/Deck.ts:62-64 | the draw pile is permuted; the other piles are unchanged |
| Decks.Deck.Discard | src/infrastructure/Deck/Deck.ts:66-68 | appends the card to the discard pile only |
| Decks.Deck.RemoveFromGame | src/infrastructure/Deck/Deck.ts:70-72 | appends the card to the removed pile only |
| Decks.Deck.DrawByField | src/infrastructure/Deck/Deck.ts:74-79 | removes and returns the first draw-pile card whose field matches, keeping the order of the rest; None with no change when none matches; the discard pile is untouched |
| Decks.Deck.DrawByType | src/infrastructure/Deck/Deck.ts:74-79 | as `DrawByField` for the card type: the first card of that type is removed and the order of the rest is kept; None with no change on a miss |
| Decks.Deck.Peek | src/infrastructure/Deck/Deck.ts:81-83 | `peek(n)`, with n = 1 by default, for n ≥ 1 is the top min(n, size) cards; `peek(0)` is the whole pile; it changes nothing |
| Decks.Deck.ReturnToTop | src/infrastructure/Deck/Deck.ts:85-87 | pushes the card onto the top of the draw pile only |
| Decks.Deck.ReturnToBottom | src/infrastructure/Deck/Deck.ts:89-91 | puts the card under the draw pile only |
| DeckManagers.DeckManager.constructor | src/services/DeckManager.ts:14-17 | a new manager has three empty piles and the given card database |
| DeckManagers.DeckManager.Initialize | src/services/DeckManager.ts:19-25 | the draw pile becomes a permutation of the cards; the other two are emptied |
| DeckManagers.DeckManager.RestoreFromState | src/services/DeckManager.ts:27-39 | succeeds exactly when every id is known and then round-trips with `getState`; a failure names an unknown id and leaves the piles untouched |
| DeckManagers.DeckManager.GetState | src/services/DeckManager.ts:41-47 | the i-th id of each snapshot list is the id of the i-th card of that pile, for every pile; for piles of database cards the snapshot restores to exactly these piles |
| DeckManagers.DeckManager.Draw | src/services/DeckManager.ts:49-56 | as `Deck.Draw`: top card, else reshuffle the discards and pop, else None with no change |
| DeckManagers.DeckManager.ShuffleDrawPile | src/services/DeckManager.ts:62-64 | the draw pile is permuted; nothing else changes |
| DeckManagers.DeckManager.Discard | src/services/DeckManager.ts:66-68 | appends to the discard pile only |
| DeckManagers.DeckManager.RemoveFromGame | src/services/DeckManager.ts:70-72 | appends to the removed pile only |
| DeckManagers.DeckManager.DrawByType | src/services/DeckManager.ts:74-79 | removes the first card of the type and keeps the order of the rest; None with no change on a miss |
| DeckManagers.DeckManager.Peek | src/services/DeckManager.ts:81-83 | with n = 1 by default, the top min(n, size) cards for n ≥ 1, the whole pile for 0, no change |
| DeckManagers.DeckManager.ReturnToTop | src/services/DeckManager.ts:85-87 | pushes onto the draw pile only |
| DeckManagers.DeckManager.ReturnToBottom | src/services/DeckManager.ts:89-91 | unshifts onto the draw pile only |
| AllDecksRegistry.AllDecks.constructor | src/infrastructure/AllDecks/AllDecks.ts:18-27 | one fresh deck per key of the parameters, each with that key's database and a draw pile that is a permutation of that key's cards |
| AllDecksRegistry.AllDecks.Draw | src/infrastructure/AllDecks/AllDecks.ts:29-31 | draws from the named deck as `Deck.Draw` does: the top card when there is one, the discard pile kept; after a reshuffle the discard pile is empty; None with no change when both piles are empty; the multiset of cards loses exactly the drawn one; every other deck is unchanged |
| AllDecksRegistry.AllDecks.Discard | src/infrastructure/AllDecks/AllDecks.ts:33-35 | appends to the named deck's discard pile; every other deck is unchanged |
| AllDecksRegistry.AllDecks.Shuffle | src/infrastructure/AllDecks/AllDecks.ts:37-39 | permutes the named deck's draw pile; every other deck is unchanged |
| AllDecksRegistry.AllDecks.GetCardById | src/infrastructure/AllDecks/AllDecks.ts:41-43 | answers from the named deck's card database |
| AllDecksRegistry.AllDecks.GetState | src/infrastructure/AllDecks/AllDecks.ts:45-52 | maps every key to exactly that deck's id snapshot |
| AllDecksRegistry.AllDecks.GetManager | src/infrastructure/AllDecks/AllDecks.ts:66-68 | the deck registered under that kind, which is a different object from every other kind's deck |
| AllDecksRegistry.AllDecks.RestoreFromState | src/infrastructure/AllDecks/AllDecks.ts:54-64 | succeeds exactly when every deck's ids are known; a failure leaves the previous decks in place; a success installs fresh decks whose `getState` equals the given snapshots |
| AllDeckManagers.AllDecksManager.constructor | src/services/AllDeckManager.ts:15-29 | builds exactly the asset, spell and condition managers, each initialized with its own cards; other keys are ignored |
| AllDeckManagers.AllDecksManager.Draw | src/services/AllDeckManager.ts:31-34 | draws from that type's manager as `DeckManager.Draw` does: the top card with the discard pile kept, or a reshuffle leaving the discard pile empty, or None with no change; the manager loses exactly the drawn card; the other two are unchanged |
| AllDeckManagers.AllDecksManager.Discard | src/services/AllDeckManager.ts:36-39 | appends to that type's discard pile; the other two are unchanged |
| AllDeckManagers.AllDecksManager.Shuffle | src/services/AllDeckManager.ts:41-44 | permutes that type's draw pile; the other two are unchanged |
| AllDeckManagers.AllDecksManager.GetState | src/services/AllDeckManager.ts:46-56 | exactly the asset, spell and condition snapshots |
| AllDeckManagers.AllDecksManager.GetCardById | src/services/AllDeckManager.ts:58-61 | answers from that type's card database |
| AllDeckManagers.AllDecksManager.RestoreFromState | src/services/AllDeckManager.ts:63-84 | all three managers are replaced by empty ones and restored in turn; a failure leaves earlier decks restored and the failing and later ones empty; a success round-trips with `getState` |
| Markets.ReplenishLog | src/domain/Market/Market.ts:28-31 | one `market.asset.replenish` entry per drawn card |
| Markets.Market.constructor | src/domain/Market/Market.ts:13-20 | stores the deck, the id list, the asset database and the maximum size, which defaults to 4 |
| Markets.Market.Replenish | src/domain/Market/Market.ts:22-34 | the existing ids stay in order and the drawn ids follow; drawing stops at the maximum size or an exhausted deck, and a full list draws nothing; one log entry per card; the deck loses exactly the drawn cards |
| Markets.Market.Buy | src/domain/Market/Market.ts:36-53 | an absent id: None, no change, no log; a present id loses its first occurrence; only an id that resolves to an asset is logged, backfilled and returned |
| Markets.Market.Discard | src/domain/Market/Market.ts:55-61 | the asset goes to the deck's discard pile; the id list is unchanged |
| Markets.Market.GetState | src/domain/Market/Market.ts:63-67 | the ids resolved in order, with unknown ones dropped |
| Markets.Market.SetState | src/domain/Market/Market.ts:69-81 | the given ids are stored and the market is then replenished from them |
| MarketServices.MarketService.constructor | src/services/MarketService.ts:18-25 | stores the deck, the id list, the asset database and the maximum size, which defaults to 4 |
| MarketServices.MarketService.Replenish | src/services/MarketService.ts:27-36 | the drawn ids follow the existing ones until the maximum size or an exhausted deck; a full list draws nothing |
| MarketServices.MarketService.Buy | src/services/MarketService.ts:38-52 | an absent id: None and no change; a present id loses its first occurrence and is backfilled only when it resolves to an asset |
| MarketServices.MarketService.Discard | src/services/MarketService.ts:54-57 | forwards to the deck's discard pile; the ids are unchanged |
| MarketServices.MarketService.GetAll | src/services/MarketService.ts:59-63 | the resolved assets in id order, with unknown ids dropped |
| Clues.Clue.constructor | src/domain/Clue/Clue.ts:9-13 | stores the deck, the id list and the clue database |
| Clues.Clue.Draw | src/domain/Clue/Clue.ts:15-28 | an exhausted deck: None, no change, no log; otherwise the drawn clue's id is appended and returned, with one log entry |
| Clues.Clue.Discard | src/domain/Clue/Clue.ts:30-46 | false with no change unless the id is listed and resolves; then its first occurrence is removed and the card goes to the deck's discard pile |
| Clues.Clue.GetState | src/domain/Clue/Clue.ts:48-52 | the ids resolved in order, with unknown ones dropped |
| Clues.Clue.SetState | src/domain/Clue/Clue.ts:54-56 | the id list becomes the given ids |
| Gates.Gate.constructor | src/domain/Gate/Gate.ts:9-13 | stores the deck, the id list and the gate database |
| Gates.Gate.Draw | src/domain/Gate/Gate.ts:15-30 | an exhausted deck: None, no change, no log; otherwise the gate id is appended and returned |
| Gates.Gate.Discard | src/domain/Gate/Gate.ts:32-52 | false with no change for an unlisted or unresolvable id; otherwise the first occurrence is removed and the card goes to the deck's discard pile |
| Gates.Gate.GetState | src/domain/Gate/Gate.ts:54-58 | the ids resolved in order, with unknown ones dropped |
| Gates.Gate.SetState | src/domain/Gate/Gate.ts:60-62 | the id list becomes the given ids |
| ClueServices.ClueService.constructor | src/services/ClueService.ts:8-12 | stores the deck, the id list and the clue database |
| ClueServices.ClueService.Draw | src/services/ClueService.ts:14-21 | an exhausted deck: None and no change; otherwise the id is appended and returned |
| ClueServices.ClueService.Discard | src/services/ClueService.ts:23-31 | false with no change for an absent id; otherwise its first occurrence is removed, with no resolvability check and no return to the deck |
| ClueServices.ClueService.GetAll | src/services/ClueService.ts:33-38 | the ids resolved in order, with unknown ones dropped |
| ClueServices.ClueService.Restore | src/services/ClueService.ts:40-42 | the id list becomes the given ids |
| Players.WithSkill | src/domain/Player/Player.ts:34 | sets one skill's modifier and keeps the others |
| Players.WithAction | src/domain/Player/Player.ts:55-66 | the action type is in the list afterwards, nothing else is added, nothing is duplicated, and no other field changes |
| Players.TakeGuardedKeepsBudget | src/domain/Player/Player.ts:46-66 | attempts each checked with `canTakeAction` before `recordAction` never record a type twice and never exceed `maxActions` distinct types |
| Players.WithLevel | src/domain/Player/Player.ts:100 | sets health or sanity and keeps its maximum; the other track and every other field of the record are unchanged |
| Players.Heal | src/domain/Player/Player.ts:94-109 | the new level is old + amount capped at the maximum (never above either), and never lower than before for a non-negative amount |
| Players.Lose | src/domain/Player/Player.ts:111-134 | the new level is old − amount floored at 0 (never below either), so a loss that leaves a positive level does not defeat; reaching 0 defeats the player with reason "injury" for health or "sanity" for sanity |
| Players.DefeatIsFinal | src/domain/Player/Player.ts:94-177 | once a loss reaches 0, every later heal or loss is refused |
| Players.ModifySkill | src/domain/Player/Player.ts:27-44 | the modifier becomes clamp(old + delta, −2, 2); the other modifiers and fields are kept |
| Players.FindPlayer | src/application/GameFlow/GameFlow.ts:81-86 | the first index holding the id, or -1 exactly when no record has it |
| Players.GetById | src/domain/Player/Player.spec.ts:20 | a record with the id when one exists, and none otherwise |
| Players.FindUnique | src/application/GameFlow/GameFlow.ts:81-86 | with distinct ids, looking up the k-th player's id finds k |
| Players.Upsert | src/domain/Player/Player.spec.ts:21-25 | after an upsert, lookup by the record's id gives the record and every other lookup is unchanged; an unseen id is appended; distinct ids stay distinct |
| Players.UpsertIdempotent | src/domain/Player/Player.spec.ts:21-25 | upserting the same record twice is upserting it once |
| Players.UpsertAll | src/domain/Player/Player.ts:23 | upserting a list keeps the ids distinct |
| Players.UpsertAllIntoEmpty | src/domain/Player/Player.ts:23 | upserting a list of distinct ids into an empty store stores that list |
| Players.ClearActions | src/domain/Player/Player.ts:68-74 | every record's action list becomes empty and no other field changes |
| Players.ClearActionsKeepsIds | src/domain/Player/Player.ts:68-74 | clearing actions keeps the same ids, and keeps them distinct |
| Players.InsertByTurnOrder | src/domain/Player/Player.ts:18-21 | inserting into a sorted list keeps it sorted and adds exactly that record |
| Players.SortByTurnOrder | src/domain/Player/Player.ts:18-21 | the result is sorted ascending by turnOrder and is a permutation of the input |
| Players.PermutationKeepsUniqueIds | src/domain/Player/Player.ts:18-21 | reordering a list of distinct ids keeps them distinct |
| Players.InitializeIntoEmpty | src/domain/Player/Player.ts:17-25 | initializing an empty store stores every player once, sorted by turnOrder, with no actions taken |
| Players.ClearActionsKeepsSorted | src/domain/Player/Player.ts:68-74 | clearing actions keeps a sorted list sorted |
| Players.SortCommutesWithClear | src/application/Game/Game.ts:29-36 | sorting then clearing actions equals clearing then sorting |
| Players.RecordIn | src/domain/Player/Player.ts:55-66 | a known player gains the action type and an unknown one leaves the store unchanged; other players are unchanged |
| Players.MoveIn | src/domain/Player/Player.ts:76-92 | succeeds exactly when "move" is allowed; then the location is set and "move" recorded; otherwise no change |
| Players.HealIn | src/domain/Player/Player.ts:94-109 | succeeds exactly for a known, undefeated player and a positive amount, and then applies `Heal`; otherwise no change |
| Players.LoseIn | src/domain/Player/Player.ts:111-134 | succeeds exactly for a known, undefeated player and a positive amount, and then applies `Lose`; otherwise no change |
| Players.ModifySkillIn | src/domain/Player/Player.ts:27-44 | fails with no change for an unknown player; otherwise applies `ModifySkill` |
| PlayerDomain.Player.constructor | src/domain/Player/Player.ts:10-15 | an empty store with the given action budget, which defaults to 2 |
| PlayerDomain.Player.UpdateEach | src/domain/Player/Player.ts:183-186 | each given record is upserted in order |
| PlayerDomain.Player.Initialize | src/domain/Player/Player.ts:17-25 | upserts the players sorted by turnOrder with empty action lists, and logs `player.all.initialize` |
| PlayerDomain.Player.ModifySkillOf | src/domain/Player/Player.ts:27-44 | the store follows `ModifySkillIn`, and the entry is logged only on success |
| PlayerDomain.Player.CanTakeAction | src/domain/Player/Player.ts:46-53 | true exactly for a known player with fewer than `maxActions` types taken, not including this one |
| PlayerDomain.Player.RecordAction | src/domain/Player/Player.ts:55-66 | the store follows `RecordIn`, and the entry is logged only when something was added |
| PlayerDomain.Player.ResetActions | src/domain/Player/Player.ts:68-74 | every player's actions are cleared and nothing else changes |
| PlayerDomain.Player.Move | src/domain/Player/Player.ts:76-92 | the store and the result follow `MoveIn`; a success logs the action record and the move |
| PlayerDomain.Player.HealHealth | src/domain/Player/Player.ts:94-109 | the store and the result follow `HealIn` on health |
| PlayerDomain.Player.LoseHealth | src/domain/Player/Player.ts:111-134 | the store and the result follow `LoseIn` on health; a defeat adds the death entry |
| PlayerDomain.Player.HealSanity | src/domain/Player/Player.ts:136-151 | the store and the result follow `HealIn` on sanity |
| PlayerDomain.Player.LoseSanity | src/domain/Player/Player.ts:153-177 | the store and the result follow `LoseIn` on sanity; a defeat adds the death entry |
| PlayerDomain.Player.SetState | src/domain/Player/Player.ts:183-186 | each given record is upserted, and `player.all.restore` is logged |
| PlayerDomain.Player.GetPlayer | src/domain/Player/Player.ts:188-190 | a stored record with that id when one exists, and none otherwise |
| PlayerDomain.Player.GetState | src/domain/Player/Player.ts:179-181 | the stored records, with distinct ids, each found again by `getPlayer` |
| PlayerServices.PlayerService.constructor | src/services/PlayerService.ts:9-13 | an empty store with the given action budget, which defaults to 2 |
| PlayerServices.PlayerService.UpdateEach | src/services/PlayerService.ts:143-146 | each given record is upserted in order |
| PlayerServices.PlayerService.Initialize | src/services/PlayerService.ts:15-23 | upserts the players sorted by turnOrder with empty action lists |
| PlayerServices.PlayerService.CanTakeAction | src/services/PlayerService.ts:25-32 | true exactly for a known player with budget left who has not taken this type |
| PlayerServices.PlayerService.RecordAction | src/services/PlayerService.ts:34-42 | the store follows `RecordIn`: only unseen types are appended |
| PlayerServices.PlayerService.ResetActions | src/services/PlayerService.ts:44-50 | every player's actions are cleared |
| PlayerServices.PlayerService.Move | src/services/PlayerService.ts:52-63 | the store and the result follow `MoveIn` |
| PlayerServices.PlayerService.HealHealth | src/services/PlayerService.ts:65-76 | the store and the result follow `HealIn` on health |
| PlayerServices.PlayerService.LoseHealth | src/services/PlayerService.ts:78-94 | the store and the result follow `LoseIn` on health |
| PlayerServices.PlayerService.HealSanity | src/services/PlayerService.ts:96-107 | the store and the result follow `HealIn` on sanity |
| PlayerServices.PlayerService.LoseSanity | src/services/PlayerService.ts:109-125 | the store and the result follow `LoseIn` on sanity |
| PlayerServices.PlayerService.ResolveEncounter | src/services/PlayerService.ts:127-141 | the not-found text exactly for an unknown player; otherwise the encounter type of the player's location |
| PlayerServices.PlayerService.Restore | src/services/PlayerService.ts:143-146 | each given record is upserted by id |
| PlayerServices.PlayerService.GetPlayer | src/services/PlayerService.ts:152-154 | a stored record with that id when one exists, and none otherwise |
| PlayerServices.PlayerService.GetAll | src/services/PlayerService.ts:148-150 | the stored records, with distinct ids, each found again by `getById` |
| Locations.ClassifyLocation | src/services/PlayerService.ts:127-141 | city exactly for the prefix "city"; otherWorld for the prefix "other" without "city"; expedition and mysticRuins for those exact ids; generic for everything else |
| Locations.TypeNameInjective | src/services/PlayerService.ts:127-141 | different encounter types have different names |
| Locations.EncounterTypeName | src/services/GameService.ts:182-188 | the same prefix-before-exact classification as a string, each answer given exactly for its case |
| Locations.EncounterTypeOf | src/application/Game/Game.ts:159-165 | the if-chain gives the same answer as the classification in `GameService` |
| Locations.NotFoundIsNoTypeName | src/services/PlayerService.ts:127-141 | the not-found text is no encounter type name, so a caller can tell the two apart |
| Turns.NextPlayerId | src/application/GameFlow/GameFlow.ts:81-86 | the player after the given id in list order, wrapping to the first; an unknown id gives the first player |
| Turns.RotateForward | src/application/GameFlow/GameFlow.ts:41-53 | with distinct ids, k steps from the i-th player that stay in the list reach the (i+k)-th |
| Turns.RotateWraps | src/application/GameFlow/GameFlow.ts:41-53 | the steps past the last player wrap around to the first |
| Turns.RotationReturns | src/application/GameFlow/GameFlow.ts:41-53 | with distinct ids, n successive steps over n players return to the start |
| Turns.RotationFromAbsent | src/application/GameFlow/GameFlow.ts:81-86 | from an unknown id, the first step reaches the first player and the walk then follows list order |
| Turns.FlowNextPhase | src/application/GameFlow/GameFlow.ts:12-39 | Action goes to Encounter and Encounter to Mythos, handing the turn to the lead; Mythos adds a round and passes lead and turn to the next player, but stays Mythos |
| Turns.FlowStaysInMythos | src/application/GameFlow/GameFlow.ts:26-35 | once in Mythos, k more steps stay in Mythos, add k rounds and move the lead k players on |
| Turns.FlowNeverReturnsToAction | src/application/GameFlow/GameFlow.ts:12-39 | from Action, two steps reach Mythos and no later step returns to Action |
| Turns.CycleNextPhase | src/services/GameService.ts:190-212 | the phase follows the cycle Action, Encounter, Mythos, Action, and the turn goes to the lead; leaving Mythos adds a round and moves the lead one player on |
| Turns.CycleRounds | src/services/GameService.ts:190-212 | 3k steps from Action reach Action again, k rounds later, with the lead moved k players on |
| Turns.LeadReturnsAfterEveryoneLed | src/services/GameService.ts:190-231 | with distinct ids, one round per player brings the lead back to the first lead |
| GameFlows.GameFlow.constructor | src/application/GameFlow/GameFlow.ts:7-10 | stores the turn and the player list, with an empty log |
| GameFlows.GameFlow.NextPhase | src/application/GameFlow/GameFlow.ts:12-39 | always true; the turn follows `FlowNextPhase`; one log key per step, and the players are never touched |
| GameFlows.GameFlow.NextInvestigator | src/application/GameFlow/GameFlow.ts:41-53 | the current investigator becomes the next player cyclically (the first when unknown); nothing else in the turn changes |
| GameFlows.GameFlow.PassLeadInvestigator | src/application/GameFlow/GameFlow.ts:55-66 | true exactly for a listed id, which becomes lead with the current investigator kept; otherwise no change |
| GameFlows.GameFlow.SetTurn | src/application/GameFlow/GameFlow.ts:72-79 | `getTurn` then returns the turn that was set |
| GameFlows.GameFlow.GetTurn | src/application/GameFlow/GameFlow.ts:68-70 | the phase, round, lead and current investigator the state service holds |
| Encounters.Spread | src/application/Encounter/Encounter.ts:38-40 | the stored copy always counts as pending; a record is copied field by field, and `null` spreads to a record with no fields |
| Encounters.CardOf | src/application/Encounter/Encounter.ts:42-55 | the pending encounter's card exactly when its id is present and known |
| Encounters.EffectFor | src/application/Encounter/Encounter.ts:57-75 | the success effects on success and the failure effects otherwise |
| Encounters.Encounter.constructor | src/application/Encounter/Encounter.ts:8-12 | nothing is pending, and the log is empty |
| Encounters.Encounter.Start | src/application/Encounter/Encounter.ts:14-23 | the deck always loses its first card of the location type; the start succeeds exactly when there was one and nothing was pending, and then that card is pending for the player |
| Encounters.Encounter.GetState | src/application/Encounter/Encounter.ts:25-36 | nothing exactly when nothing is pending, otherwise a copy of the pending record |
| Encounters.Encounter.SetState | src/application/Encounter/Encounter.ts:38-40 | the spread copy is stored, and it counts as pending even for `null` |
| Encounters.Encounter.GetEncounter | src/application/Encounter/Encounter.ts:42-55 | the pending card exactly when one is pending and known; the pending record never changes |
| Encounters.Encounter.Resolve | src/application/Encounter/Encounter.ts:57-75 | None when idle or unknown; otherwise the success or failure branch; the pending record is kept, so repeated calls agree |
| GameServices.GameService.constructor | src/services/GameService.ts:28-36 | the players sorted by turnOrder with no actions taken; lead and current are the first player, or "" with no players; the market is filled from the asset deck |
| GameServices.GameService.DrawClue | src/services/GameService.ts:38-44 | a drawn clue's id is appended and returned; nothing drawn means None and no change |
| GameServices.GameService.DiscardClue | src/services/GameService.ts:46-52 | true exactly for a listed id, whose first occurrence is removed; otherwise no change |
| GameServices.GameService.DrawGate | src/services/GameService.ts:60-66 | a drawn gate's location, not its id, is appended to the open gates; nothing else changes |
| GameServices.GameService.CloseGate | src/services/GameService.ts:68-74 | true exactly for an open location, whose first occurrence is removed; otherwise no change |
| GameServices.GameService.GetPlayerState | src/services/GameService.ts:82-94 | for a known player, the record with its assets and conditions resolved in order; None exactly for an unknown player |
| GameServices.GameService.ReplenishMarket | src/services/GameService.ts:128-135 | asset cards are appended until the market holds 4 or the asset deck is exhausted; the deck loses exactly those cards; nothing else changes |
| GameServices.GameService.DrawAsset | src/services/GameService.ts:130 | one asset draw: the top card with the discard pile kept, or a reshuffle leaving the discard pile empty; None with no change exactly when the asset deck is exhausted; the deck loses exactly the drawn card |
| GameServices.GameService.BuyFromMarket | src/services/GameService.ts:137-144 | None with no change when no market card has the id; otherwise the first such card is removed, the market is replenished, and the card is returned |
| GameServices.GameService.RecordAction | src/services/GameService.ts:155-162 | the first record with the id gains the action type unless it has it; nothing else changes |
| GameServices.GameService.CanTakeAction | src/services/GameService.ts:146-153 | true exactly when the first record with the id exists, has taken fewer than 2 actions and has not taken that type |
| GameServices.GameService.ResetActions | src/services/GameService.ts:164-167 | every player's actions are cleared and nothing else changes |
| GameServices.GameService.ResolveEncounter | src/services/GameService.ts:169-180 | the not-found text exactly for an unknown player, otherwise the encounter type of the player's location |
| GameServices.GameService.NextPhase | src/services/GameService.ts:190-212 | the turn follows `CycleNextPhase`; actions are reset on entering Encounter and on leaving Mythos; the market, gates and clues are unchanged |
| GameServices.GameService.NextInvestigator | src/services/GameService.ts:214-222 | no change when the current investigator is not listed; otherwise the next player cyclically |
| GameServices.GameService.PassLeadInvestigator | src/services/GameService.ts:224-231 | the lead becomes the next player cyclically, or the first player when the lead is unknown; nothing else changes |
| Games.Game.constructor | src/application/Game/Game.ts:27-38 | lead and current come from the store as it was before `initialize`, sorted by turnOrder; then the actions are reset, the players initialized and the market replenished |
| Games.Game.DrawClue | src/application/Game/Game.ts:40-42 | as `ClueService.Draw`: None with ids and deck unchanged exactly when the clue deck is exhausted; otherwise the id is appended and the deck loses exactly a card with that id; the removed pile is kept |
| Games.Game.DiscardClue | src/application/Game/Game.ts:44-46 | as `ClueService.Discard`: true exactly for a listed id, whose first occurrence is removed |
| Games.Game.GetCluesState | src/application/Game/Game.ts:48-50 | as `ClueService.getAll`: at most one card per id, and exactly the listed clues in order when every id is known |
| Games.Game.DrawGate | src/application/Game/Game.ts:52-54 | as `Gate.Draw`: None with ids and deck unchanged exactly when the gate deck is exhausted; otherwise the id is appended and the deck loses exactly a card with that id; the removed pile is kept |
| Games.Game.CloseGate | src/application/Game/Game.ts:56-58 | as `Gate.Discard`: true exactly for a listed, resolvable id, whose first occurrence is removed and whose card goes onto the gate deck's discard pile; otherwise ids and deck unchanged |
| Games.Game.DrawCard | src/application/Game/Game.ts:64-68 | as `AllDecks.Draw`: the named deck's top card, or a reshuffle into an empty discard pile, or None with no change; the deck loses exactly the drawn card; every other deck is unchanged |
| Games.Game.DiscardCard | src/application/Game/Game.ts:70-73 | appends to the named deck's discard pile; its other piles and every other deck are unchanged |
| Games.Game.ShuffleDeck | src/application/Game/Game.ts:75-78 | permutes the named deck's draw pile; its other piles and every other deck are unchanged |
| Games.Game.GetMarketState | src/application/Game/Game.ts:92-94 | as `MarketService.getAll`: at most one asset per id, and exactly the displayed assets in order when every id is known |
| Games.Game.ReplenishMarket | src/application/Game/Game.ts:96-98 | the market service's replenish contract |
| Games.Game.BuyFromMarket | src/application/Game/Game.ts:100-102 | as `MarketService.Buy`: an absent id changes nothing; a listed id loses its first occurrence; if it resolves the asset is returned and the market is replenished from there, otherwise None with the deck unchanged |
| Games.Game.GetPlayerState | src/application/Game/Game.ts:104-121 | None exactly for an unknown player; otherwise the record with its assets and conditions resolved in order |
| Games.Game.CanTakeAction | src/application/Game/Game.ts:123-125 | true exactly when the player service knows the player, its budget is not used up and the type is new |
| Games.Game.RecordAction | src/application/Game/Game.ts:127-129 | the player service's store follows `RecordIn` |
| Games.Game.ResetActions | src/application/Game/Game.ts:131-133 | every player's actions are cleared |
| Games.Game.MovePlayer | src/application/Game/Game.ts:139-141 | the store and the result follow `MoveIn` |
| Games.Game.ResolveEncounter | src/application/Game/Game.ts:135-137 | the not-found text exactly for an unknown player, otherwise the encounter type of its location |
| Games.Game.HealHealth | src/application/Game/Game.ts:143-145 | the store and the result follow `HealIn` on health |
| Games.Game.LoseHealth | src/application/Game/Game.ts:147-149 | the store and the result follow `LoseIn` on health |
| Games.Game.HealSanity | src/application/Game/Game.ts:151-153 | the store and the result follow `HealIn` on sanity |
| Games.Game.LoseSanity | src/application/Game/Game.ts:155-157 | the store and the result follow `LoseIn` on sanity |
| Games.Game.GetEncounterType | src/application/Game/Game.ts:159-165 | "city", "otherWorld", "expedition", "mysticRuins" or "generic", each exactly for the locations the prefix and name checks send there |
| Games.Game.NextPhase | src/application/Game/Game.ts:167-189 | Action and Encounter step as in `GameService`, with actions reset on entering Encounter. Mythos fails exactly when the player list is empty, and then the phase is already Action and the round already advanced, with no reset |
| Games.Game.NextInvestigator | src/application/Game/Game.ts:191-199 | no change unless the current investigator is listed, so no change with the never-filled list |
| Games.Game.PassLeadInvestigator | src/application/Game/Game.ts:201-208 | succeeds exactly when the player list is non-empty, and then the lead moves on cyclically; otherwise no change |

## Left out

- Log message text: the free-text Russian messages and their timestamps are not modelled, and neither are the log services, with one exception: the restore message of `Market.setState` (its text built by `Markets.RestoreMessage` and `Markets.JoinNames`) is appended to `Market`'s ghost log as written. The structured log keys of `Market`, `Clue`, `Gate`, `Player`, `GameFlow` and `Encounter` are a ghost list of keys. The entries of `GameService`, `PlayerService`, `MarketService` and `ClueService` are left out.
- Shuffle fairness: the random-comparator sort is modelled as an arbitrary permutation. Uniformity is not claimed.
- The JSON repositories, `main.ts` and the browser `window` bootstrap are data loading, not logic.
- Encounter effects are not executed: the effect trees are only returned, and nothing in the engine applies them.
- `GameService.restoreFromState` and `Game.restoreFromState` trust their snapshot through non-null assertions, so they are not modelled.
- `apply`, `getState` and `getLog` of `GameService` and `Game` only assemble or dispatch to modelled operations, so they are not modelled.
- `GameService.getCluesState`, `getOpenedGatesState`, `drawCard`, `discardCard`, `shuffleDeck` and `getMarketState` are one-line reads or delegations, so they are not modelled.
- `Game.getOpenedGatesState` calls a gate-service method that does not exist, so it is not modelled.
- `GameServices.GameService.DrawClue`: the draw is a parameter. The registry holds only asset, spell and condition decks, so `this.decks.draw("clue")` reads `.draw` of `undefined` and always throws; the model captures what the rest of `drawClue` (src/services/GameService.ts:40-43) does with a drawn card.
- `GameServices.GameService.DrawGate`: the draw is a parameter, for the same reason as `DrawClue`: `this.decks.draw("gate")` always throws, and the model captures what lines 62-65 would do with a drawn gate. Its precondition is that a drawn gate has a location.
- `GameServices.GameService.constructor`: sorting the caller's array in place is not modelled; only the stored, sorted copy is.
- `Players.SortByTurnOrder`: stability is not stated. The insertion keeps equal turnOrders in input order, but no lemma says so.
- Numbers are unbounded integers. Health, sanity, rounds and modifiers are integer counters in every caller, so floating point is not modelled.
- The player store is modelled as a list with upsert by id, as the tests' in-memory store does. Stored records are values, so aliasing between a fetched record and the store is not modelled.
- `Games.Game.GetPlayerState` requires the asset and condition decks to be present. The TypeScript code needs them only when the player holds ids of those kinds.
- `AllDecksRegistry.AllDecks.RestoreFromState`: when several snapshots fail, the error names some failing key, not necessarily the first in `Object.keys` order.
- `Games.Game`: its services are typed `IPlayer`, `IMarket` and `IClue`, but it calls `getAll` and `restore` on the player and clue services, which `IPlayer` and `IClue` do not declare (`IMarket` does declare both, and `IPlayer` declares `resolveEncounter`). Only `PlayerService` and `ClueService` provide them, so the model binds `Game` to `PlayerService`, `MarketService` and `ClueService`.
- `Encounters.Encounter`: the injected state service is the `pending` field, and the deck is a fixed field.
- The injected state services of `Market`, `Clue`, `Gate` and the turn machines are plain fields. Any service logic beyond storing values is not part of this model.
- `Encounters.Encounter.Start`: the TypeScript code calls `this.deck.drawByField(...)`, which neither `Deck` nor `IDeck` declares, so with a real deck `start` throws a TypeError. The model gives the intended draw, `Decks.Deck.DrawByField`: the first card whose field matches is removed.
- `AllDeckManagers.AllDecksManager.GetCardById` and `GameServices.GameService.GetPlayerState`: `AllDecksManager.getCardById` calls `getCardById` on a `DeckManager`, which declares no such method, so the call always throws, and `getPlayerState` throws for every player holding an asset or condition id. The model gives the intended lookup in that kind's card database.
- `AllDeckManagers.AllDecksManager.Draw`, `AllDeckManagers.AllDecksManager.Discard`, `AllDeckManagers.AllDecksManager.Shuffle` and `AllDeckManagers.AllDecksManager.GetCardById` require the kind to be asset, spell or condition. The card-kind type also allows clue, gate and encounter, for which `this.decks[type]` is `undefined` and the call throws a TypeError; that error path is not modelled.
- `Turns.NextPlayerId`, `GameFlows.GameFlow.NextInvestigator` and `GameServices.GameService.PassLeadInvestigator` require a non-empty player list. On an empty list the TypeScript code reads `.id` of `undefined` and throws.
- `GameFlows.GameFlow.NextPhase` and `GameServices.GameService.NextPhase` require players in the Mythos phase, for the same reason.
