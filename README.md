# Undo manager — a verified model

This project models `UndoManager`, the undo/redo history of the `undo`
package (src/index.ts). The manager keeps a stack of entries, a cursor into
it (`-1` when nothing has been applied), and two cached flags, `canUndo` and
`canRedo`. Three public calls change them:

- `add` drops every entry after the cursor, pushes the new entry, moves the
  cursor onto it, evicts the oldest entry once the cursor reaches `maxSize`,
  and only then runs `execute` when one was given.
- `undo` steps the cursor back and calls the `undo` of the entry it left.
- `redo` steps the cursor forward and calls the `redo` of the entry it reached.

Both `undo` and `redo` do nothing when their flag is false. Every cursor move
goes through `_updateIndex`. It recomputes both flags and calls `onChange`
once for each flag whose value actually changes.

The model has four modules:

- `History` (history.dfy) holds the manager's state as a value, `State`.
  Each operation is a function returning a `Step`: the new state and the
  ordered log of what the manager did to the outside world. A log entry is
  either a call of a host callback (`ExecuteCalled`, `UndoCalled`,
  `RedoCalled`) or a call of `onChange` (`Changed`). `onChange` takes no
  arguments, so `Changed` records the two flags a listener would read
  through the getters during that call. Callbacks are opaque labels.
  `AddOptions` has three shapes: `{redo, undo}`, `{execute, undo}`, and
  `{redo, execute, undo}`, which the TypeScript union type also admits.
  `Valid` is the object invariant:
  - the cursor is in `-1 .. |stack| - 1`;
  - the flags agree with the cursor;
  - the stack holds at most `Capacity(maxSize)` entries.
- `Manager` (undo_manager.dfy) is the class `UndoManager`. Its fields are
  updated in place, and a ghost field `events` holds the log. Each method
  is proved to leave exactly the state and log the `History` function
  describes.
- `Properties` (properties.dfy) proves what the operations promise about
  the truncation, the new entry, eviction, callback order, `onChange`
  counts, no-op calls, undo/redo round trips and capacity.
- `TestScenario` (test_scenario.dfy) replays the calls of the first six
  tests in src/index.test.ts. It proves the flags, callbacks and `onChange`
  counts (1, 3, 5, 5, 5, 8) those tests check.

Notes on the code as written, which the model follows:

- `onChange` is called with no arguments, and `_updateIndex` assigns the
  flags one at a time. When both flip, a listener's first call therefore sees
  the new `canUndo` with the old `canRedo` (`ListenerView`).
- Given both `redo` and `execute`, `add` stores `redo` and also runs `execute`.
- `add` ignores whatever `execute` returns.
- The eviction test is `index >= maxSize` after the cursor has advanced. With
  `maxSize <= 0` the new entry is therefore pushed and evicted at once. That
  flips `canUndo` on and off again, and `execute` still runs (`AddWithoutCapacity`).
- src/index.ts has no grouping: `startGroup` and `endGroup`, which the later
  tests call, are not defined there.

## Model

| member | source | states |
|---|---|---|
| History.UpdateIndex | src/index.ts:36-48 | the stack is unchanged, the cursor is the given index, both flags agree with it, and the log is exactly one `onChange` call per flag that changed value, `canUndo` first, each carrying the flags as assigned so far |
| Properties.ListenerView | src/index.ts:36-48 | in every `onChange` call a listener already reads the new `canUndo`; the last call reads both new flags; when both flip, the first call still reads the old `canRedo` |
| History.Add | src/index.ts:58-78 | `add` keeps the object invariant: cursor in range, flags agree with it, stack within capacity |
| History.Undo | src/index.ts:80-87 | `undo` keeps the cursor in range and the flags consistent, and never changes the stack |
| History.Redo | src/index.ts:89-96 | `redo` keeps the cursor in range and the flags consistent, and never changes the stack |
| History.Run | src/index.ts:58-96 | every state reached by any sequence of `add`, `undo` and `redo` calls satisfies the object invariant |
| Properties.AddShape | src/index.ts:59-74 | after `add` the stack is the entries up to the old cursor plus the new one, without the oldest exactly when that exceeds `maxSize`; the cursor is on the last entry, `canRedo` is false, `canUndo` iff the stack is non-empty |
| Properties.AddRecordsEntry | src/index.ts:60-69 | with `maxSize >= 1` the entry under the cursor is the new one: its `undo` is the given `undo`, its `redo` the given `redo` when there is one, else `execute` |
| Properties.AddEvictsOldest | src/index.ts:71-74 | eviction happens exactly when the advanced cursor reaches `maxSize`; it removes only the oldest entry, keeps the others in order, and the cursor, moved back by one, still designates the new entry |
| Properties.AddNotifiesThenExecutes | src/index.ts:70-77 | with `maxSize >= 1` the log of `add` is one `onChange` call per flag that differs between the old and new state, followed by one call of `execute` if given; the add calls no callback exactly when it is a `{redo, undo}` pair |
| Properties.AddWithoutCapacity | src/index.ts:70-77 | with `maxSize <= 0` the manager stays empty and `add` logs two `onChange` calls, then `execute` if given |
| Properties.UndoSteps | src/index.ts:80-87 | when nothing can be undone, `undo` changes nothing and logs nothing; otherwise the cursor moves back by one, `canRedo` becomes true, and the log is one `onChange` per flipped flag, then the `undo` of the entry at the old cursor |
| Properties.RedoSteps | src/index.ts:89-96 | when nothing can be redone, `redo` changes nothing and logs nothing; otherwise the cursor moves forward by one, `canUndo` becomes true, and the log is one `onChange` per flipped flag, then the `redo` of the entry at the new cursor |
| Properties.UndoThenRedo | src/index.ts:80-96 | an effective `undo` followed by `redo` restores the exact state, calls the `undo` and then the `redo` of the same entry, and makes as many `onChange` calls going forward as going back |
| Properties.RedoThenUndo | src/index.ts:80-96 | an effective `redo` followed by `undo` restores the exact state and calls the `redo` and then the `undo` of the same entry |
| Properties.AddsKeepNewest | src/index.ts:58-78 | a run of `add` calls from a state whose cursor is on the last entry keeps exactly the newest `Capacity(maxSize)` entries, in the order added, with the cursor on the last |
| Properties.CapacityEviction | src/index.ts:71-74 | adding `maxSize + 1` entries to a fresh manager leaves the last `maxSize` of them: the first is no longer reachable |
| Manager.UndoManager.constructor | src/index.ts:21-34 | a new manager has an empty stack, cursor -1, both flags false, an empty log, and `maxSize` as given or 10000 |
| Manager.UndoManager.UpdateIndex | src/index.ts:36-48 | the fields and the log become what `History.UpdateIndex` gives for the old fields |
| Manager.UndoManager.CanUndo | src/index.ts:50-52 | the getter is true iff the cursor designates an entry |
| Manager.UndoManager.CanRedo | src/index.ts:54-56 | the getter is true iff an entry follows the cursor |
| Manager.UndoManager.Add | src/index.ts:58-78 | the fields and log become what `History.Add` gives; the invariant is kept; the cursor ends on the last entry and `canRedo` is false |
| Manager.UndoManager.Undo | src/index.ts:80-87 | the fields and log become what `History.Undo` gives; the stack is unchanged |
| Manager.UndoManager.Redo | src/index.ts:89-96 | the fields and log become what `History.Redo` gives; the stack is unchanged |
| TestScenario.AddedRedoAddedExecute | src/index.test.ts:28-35 | adding a `{redo, undo}` and an `{execute, undo}` pair to a fresh manager runs `execute` once and leaves `canUndo` true, `canRedo` false |
| TestScenario.UndoTwoEntries | src/index.test.ts:37-47 | two `undo`s call the two entries' `undo`s, newest first, and leave `canUndo` false, `canRedo` true |
| TestScenario.AddOneMoreEntry | src/index.test.ts:49-55 | the next `add` discards both undone entries, calls no callback and flips both flags; the listener reads (true, true) and then (true, false) |
| TestScenario.AddOneMoreEntryNoChanges | src/index.test.ts:57-63 | a further `add` flips nothing and calls nothing |
| TestScenario.RedoNothingToRedo | src/index.test.ts:65-72 | two `redo`s with nothing to redo change nothing and log nothing |
| TestScenario.AddRedoUndoCalls | src/index.test.ts:74-80 | each single call of that test, from `add` to the last `redo`, gives the stated state and log |
| TestScenario.AddRedoUndo | src/index.test.ts:74-86 | `add`, three `undo`s and two `redo`s call three `undo`s and two `redo`s and leave both flags true |
| TestScenario.OnChangeCallCounts | src/index.test.ts:28-86 | the cumulative `onChange` counts after the six tests are 1, 3, 5, 5, 5, 8 |

## Left out

- Grouping (`startGroup`, `endGroup` and the grouped undo/redo cascade): src/index.test.ts:88-154 calls them, but src/index.ts does not define them.
- Promises: what `undo` and `redo` return (the callback's result) and what `execute` returns are not modelled; callbacks are labels in the log, with no completion or rejection.
- Exceptions from `execute`, `undo` and `redo`: each of these calls is the last thing its operation does, so when one throws, the state is the one the model gives; the exception itself is not modelled.
- An `onChange` that throws, or that calls back into `add`, `undo` or `redo`, is not modelled. `onChange` runs partway through `_updateIndex` (src/index.ts:41, 46), so such a listener can stop or interleave an operation and leave the fields inconsistent: flags out of step with the cursor, a stack over capacity, `execute` not run.
- The callbacks' effects on host state (the test's counter) belong to the host application; the model records only which callback was called.
- An untyped `add` argument with neither `redo` nor `execute`: src/index.ts:64-70 then advances the cursor without pushing an entry, which breaks the cursor range. Each of the three `AddOptions` shapes carries `redo` or `execute`, so every modelled `add` pushes an entry.
- Whether an `onChange` was given: when it is absent, `_onChange` is a no-op, and the log still records each call of it.
- `maxSize` is an integer; fractional or non-numeric JavaScript numbers are not modelled.
- web-test-runner.config.cjs is test-runner configuration with no logic.
