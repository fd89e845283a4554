# Game-bot tasks and NPC trade dialog, modelled in Dafny

This project models three small pieces of a bot that plays a game client
by reading screenshots and injecting keyboard and mouse input:

- the **closest-creature attack task** (`ClickInClosestCreatureTask`): it is
  skipped while a target creature is already held, it is confirmed when the
  cave reports an attack in progress, and it attacks either by pressing the
  attack hotkey `space` or, when a player is visible or ignorable creatures
  are around, by holding `alt` and clicking the closest creature;
- the **chat-off task** (`SetChatOffTask`): it is skipped unless the chat
  recogniser sees the chat on, and it acts by pressing `enter`;
- the **NPC trade dialog** of the refill code: its bottom edge is derived
  from its top bar and its OK button, and buying an item is a fixed,
  ordered sequence of clicks, key chords, key presses and typed text at
  pixel offsets from that edge.

Files:

- `wrappers.dfy` — `Option`, the "not found" sentinel.
- `perception.dfy` — screenshots, points, boxes and the per-cycle context
  (`ng_screenshot`, `ng_cave`, `gameWindow`, `ng_targeting`) as records.
- `input_actuator.dfy` — the keyboard and mouse as a class `Actuator` whose
  every primitive appends one `Event` to its `trace`, and `CallsTo`, the
  view a test spy has of a trace ("called once with x" is
  `CallsTo(t, p) == [x]`, "not called" is `CallsTo(t, p) == []`).
- `decimal.dfy` — Python's `str(n)` on integers, used to type the amount,
  with the value a decimal text denotes and the round trip between them.
- `click_in_closest_creature.dfy`, `set_chat_off.dfy` — the two tasks as
  classes holding their configuration; `Do` methods append to the actuator.
- `refill_core.dfy` — the dialog geometry as functions and the five buy
  steps as module-level methods that take the `Actuator` as a parameter
  `io`, each proved to append exactly the events of a specification
  function.

Image search (`locate`, `crop`), the chat recogniser and screenshot capture
are parameters: a `Vision` record of functions, a recogniser function, and
the screenshot taken after typing the item name. Delays are whole
milliseconds (0.5 s is 500, 1 s is 1000).

The source of `ClickInClosestCreatureTask` itself is not part of this
model; the task is modelled from the assertions of
`tests/unit/gameplay/core/tasks/test_clickInClosestCreature.py`.

## Model

| member | source | states |
|---|---|---|
| `ClickInClosestCreature.ClickInClosestCreatureTask.constructor` | tests/unit/gameplay/core/tasks/test_clickInClosestCreature.py:4-7 | a new task is named `clickInClosestCreature` and waits at most 1 s (1000 ms) for confirmation |
| `ClickInClosestCreature.ClickInClosestCreatureTask.ShouldIgnore` | tests/unit/gameplay/core/tasks/test_clickInClosestCreature.py:9-17 | the task is skipped exactly when `ng_cave` holds a target creature; with no target it runs |
| `ClickInClosestCreature.ClickInClosestCreatureTask.Did` | tests/unit/gameplay/core/tasks/test_clickInClosestCreature.py:19-27 | the attack is confirmed exactly when `ng_cave` reports that some creature is being attacked |
| `ClickInClosestCreature.ClickInClosestCreatureTask.Do` | tests/unit/gameplay/core/tasks/test_clickInClosestCreature.py:29-71 | hands back the context it was given and appends to the actuator exactly the events of the decision rule: alt down, click on the closest creature's window coordinate, alt up when a player is visible or ignorable creatures are reported, else one `space` press |
| `ClickInClosestCreature.DoWithPlayersAltClicks` | tests/unit/gameplay/core/tasks/test_clickInClosestCreature.py:29-43 | with a player visible, spies see alt held once, one click at the closest creature, alt released once and no press; the events are the same whatever `ng_targeting` holds or whether it exists at all |
| `ClickInClosestCreature.DoWithIgnorableCreaturesAltClicks` | tests/unit/gameplay/core/tasks/test_clickInClosestCreature.py:45-60 | with no player but ignorable creatures reported, spies see the same alt-click on the closest creature and no press |
| `ClickInClosestCreature.DoOtherwisePressesSpace` | tests/unit/gameplay/core/tasks/test_clickInClosestCreature.py:62-71 | with no player and no ignorable creature, spies see `space` pressed once and no alt or click |
| `ClickInClosestCreature.AttackIsOneIntention` | tests/unit/gameplay/core/tasks/test_clickInClosestCreature.py:29-71 | every `do` issues exactly one click or exactly one press, never both and never neither; the click happens if and only if the rule asks for it; alt is released as often as it is held |
| `InputActuator.CallsTo` | tests/unit/gameplay/core/tasks/test_clickInClosestCreature.py:34-43 | what a spy on one primitive records: every call of that primitive in the trace and nothing else, never more entries than the trace holds; so "not called" means the trace has no call of it |
| `InputActuator.CallsToAppend` | tests/unit/gameplay/core/tasks/test_clickInClosestCreature.py:34-43 | a spy keeps the order of the calls: on two traces run one after the other it records the first one's calls followed by the second one's |
| `SetChatOff.SetChatOffTask.constructor` | src/gameplay/core/tasks/setChatOff.py:10-14 | a new task is named `setChatOff` and waits 0.5 s (500 ms) before acting and 0.5 s after |
| `SetChatOff.SetChatOffTask.ShouldIgnore` | src/gameplay/core/tasks/setChatOff.py:17-19 | the task is skipped exactly when the recogniser reads the chat as off on `ng_screenshot` |
| `SetChatOff.ShouldIgnoreReadsOnlyScreenshot` | src/gameplay/core/tasks/setChatOff.py:17-19 | two contexts with the same screenshot get the same answer: nothing else in the context is consulted |
| `SetChatOff.SetChatOffTask.Do` | src/gameplay/core/tasks/setChatOff.py:22-24 | appends exactly one `enter` press, with no chat-status input at all, and hands back the context it was given |
| `RefillCore.TradeTopPosition` | src/repositories/refill/core.py:14-16 | the dialog's top bar is where the trade-bar template is found on the screenshot, or not found |
| `RefillCore.OkSearchRegion` | src/repositories/refill/core.py:26-28 | the OK button is searched from the bar's top-left corner, 174 pixels wide, down to exactly the screenshot's last row |
| `RefillCore.TradeBottomPos` | src/repositories/refill/core.py:21-30 | "not found" if and only if the top bar is not found, and then nothing else is required of the screenshot; otherwise a box in the bar's column, 174 wide and 2 high, 26 rows below the OK button's top; finding the OK button when the bar is found is required |
| `RefillCore.TradeBottomBelowBar` | src/repositories/refill/core.py:26-30 | when search and crop respect image rows, the OK button the bottom edge is measured from lies between the top bar and the screenshot's last row, so the bottom edge is at least 26 rows below the bar |
| `RefillCore.FindItem` | src/repositories/refill/core.py:35-49 | on an open dialog with the item found after typing, appends exactly: click at (bx+160, by-75), click at (bx+16, by-75), the item name typed, click 10 pixels right of and below the found item's corner |
| `RefillCore.SetAmount` | src/repositories/refill/core.py:54-61 | appends exactly: click at (bx+115, by-42), ctrl+a, backspace, the amount typed as `str(amount)` |
| `RefillCore.ConfirmBuyItem` | src/repositories/refill/core.py:66-68 | appends exactly one click, at (bx+150, by-18) |
| `RefillCore.ClearSearchBox` | src/repositories/refill/core.py:73-79 | appends exactly: move to (bx+160, by-77), click there, move to (bx+160, by-57) |
| `RefillCore.BuyItem` | src/repositories/refill/core.py:84-92 | on one screenshot, appends the events of find, set amount, confirm and clear, concatenated in that order |
| `RefillCore.BuyItemWritesNameThenAmount` | src/repositories/refill/core.py:84-92 | a purchase types exactly two texts, the item name and then the amount, and the amount text reads back as the amount |
| `RefillCore.BuyItemKeyboard` | src/repositories/refill/core.py:84-92 | a purchase uses one ctrl+a chord and one backspace press and never holds a key down |
| `RefillCore.BuyItemPointerStaysInDialog` | src/repositories/refill/core.py:35-79 | every point a purchase clicks or moves to, except the found item, lies in the dialog's 174 columns and 18 to 77 rows above its bottom edge |
| `Decimal.IntToString` | src/repositories/refill/core.py:61 | `str(amount)`: digits without leading zeros, preceded by `-` exactly for a negative amount |
| `Decimal.IntToStringValue` | src/repositories/refill/core.py:61 | the typed amount text denotes exactly the amount (round trip with `DecimalValue`) |
| `Decimal.IntToStringInjective` | src/repositories/refill/core.py:61 | distinct amounts are typed as distinct texts |

## Left out

- The source of `ClickInClosestCreatureTask` is not part of this model; its behaviour comes from its unit tests. Where they are silent: a missing `ng_targeting` counts as "no ignorable creatures", and the closest creature is required only when the alt-click branch is taken.
- `ClickInClosestCreature.ClickInClosestCreatureTask.constructor`: only the two configured values the tests fix (`name`, `delayOfTimeout`) are stated; the other timing fields come from the base task class, which is not part of this model.
- `BaseTask` and the runner that calls `shouldIgnore`, `do` and `did` with their delays and timeout are not part of this model, nor is `SetChatOffTask.did`, which is inherited from it.
- The `cacheObjectPosition` memoisation on both position functions: its implementation is not part of this model, so they are modelled as uncached functions of the screenshot.
- `time.sleep(random.uniform(...))` jitter between steps: wall-clock timing with random floats; no event is recorded for it.
- Delays are floats in seconds in the source; here they are whole milliseconds.
- `locate`, `crop`, `getScreenshot`, `getChatStatus` and the keyboard and mouse primitives are I/O and image matching: they are parameters or trace events, not modelled. The first component of the chat status is left as an arbitrary type.
- A crash part-way through a step (the dialog not open, the OK button or the item not found, an item name missing from the refill image table) is a precondition here, so the events emitted before such a crash are not modelled; the refill image table (`src/repositories/refill/config.py`) is not part of this model and every item name is taken to have a template.
- Creature and player records keep only name, kind and window coordinate; the other tuple fields are not read by the modelled code.
- `src/repositories/battleList/config.py`: import-time loading and hashing of images into tables, with no behaviour of its own.
