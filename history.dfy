/** The undo/redo history kept by `UndoManager`, as values.

    A `State` holds the four private fields of the manager: the entry stack,
    the cursor and the two cached flags. Every operation yields a `Step`: the
    new state together with what the manager did to the outside world, in
    order (`Event`s: calls of the host's callbacks and of `onChange`).
    The class in module `Manager` is proved to follow these functions. */
module History {

  datatype Option<T> = None | Some(value: T)

  /** An opaque label standing for one callback supplied by the host application. */
  type Callback = nat

  /** A recorded entry: the callback that re-applies one action and the one that reverses it. */
  datatype Entry = Entry(redo: Callback, undo: Callback)

  /** The shapes `add` accepts: a pre-computed pair, an action to run now,
      or (the union type admits it) both a `redo` and an `execute`. */
  datatype AddOptions =
    | UndoRedo(redo: Callback, undo: Callback)
    | ExecuteUndo(execute: Callback, undo: Callback)
    | RedoExecuteUndo(redo: Callback, execute: Callback, undo: Callback)

  /** One effect of the manager on the outside world. `Changed` is one call
      of `onChange`, which takes no arguments; it records the two flags a
      listener reads through the getters during that call. */
  datatype Event =
    | ExecuteCalled(callback: Callback)
    | UndoCalled(callback: Callback)
    | RedoCalled(callback: Callback)
    | Changed(canUndo: bool, canRedo: bool)

  datatype State = State(stack: seq<Entry>, index: int, canUndo: bool, canRedo: bool)

  /** The state after an operation and the events it produced. */
  datatype Step = Step(state: State, events: seq<Event>)

  /** The capacity used when the options give no `maxSize`. */
  const DefaultMaxSize: int := 10000

  /** A fresh manager: empty stack, cursor at -1, both flags false. */
  function Initial(): State {
    State([], -1, false, false)
  }

  /** The entry `add` stores: `redo` is the given `redo`, or `execute` when there is none. */
  function EntryOf(options: AddOptions): Entry {
    match options
    case UndoRedo(redo, undo) => Entry(redo, undo)
    case ExecuteUndo(execute, undo) => Entry(execute, undo)
    case RedoExecuteUndo(redo, _, undo) => Entry(redo, undo)
  }

  /** The given `execute`, if any. */
  function ExecuteOf(options: AddOptions): Option<Callback> {
    if options.UndoRedo? then None else Some(options.execute)
  }

  /** The callback `add` runs once its bookkeeping is done. */
  function ExecuteEvents(options: AddOptions): seq<Event> {
    match ExecuteOf(options)
    case None => []
    case Some(execute) => [ExecuteCalled(execute)]
  }

  /** The stack `add` builds before any eviction: the entries up to the
      cursor (the redo tail cut off), then the new entry. */
  function Grown(s: State, options: AddOptions): seq<Entry>
    requires -1 <= s.index < |s.stack|
  {
    s.stack[..s.index + 1] + [EntryOf(options)]
  }

  /** The cached flags agree with the cursor. */
  predicate FlagsMatch(s: State) {
    s.canUndo == (s.index >= 0) && s.canRedo == (s.index < |s.stack| - 1)
  }

  /** The cursor is -1 or designates an entry, and the flags agree with it. */
  predicate Consistent(s: State) {
    -1 <= s.index < |s.stack| && FlagsMatch(s)
  }

  /** How many entries a manager built with `maxSize` can hold. */
  function Capacity(maxSize: int): nat {
    if maxSize < 0 then 0 else maxSize
  }

  /** The object invariant of `UndoManager`. */
  predicate Valid(s: State, maxSize: int) {
    Consistent(s) && |s.stack| <= Capacity(maxSize)
  }

  /** How many of the two flags differ between `a` and `b`. */
  function Flips(a: State, b: State): nat {
    (if a.canUndo != b.canUndo then 1 else 0) + (if a.canRedo != b.canRedo then 1 else 0)
  }

  /** The `onChange` calls of a move from flags `a` to flags `b`: one per
      flag that changes, `canUndo` first. When the first call is made
      `canUndo` already has its new value and `canRedo` still its old one. */
  function Notifications(a: State, b: State): seq<Event> {
    (if a.canUndo != b.canUndo then [Changed(b.canUndo, a.canRedo)] else [])
    + (if a.canRedo != b.canRedo then [Changed(b.canUndo, b.canRedo)] else [])
  }

  /** The number of `onChange` calls in a log. */
  function ChangeCount(es: seq<Event>): nat {
    if es == [] then 0 else (if es[0].Changed? then 1 else 0) + ChangeCount(es[1..])
  }

  /** The callback invocations of a log, in order, without the `onChange` calls. */
  function Invocations(es: seq<Event>): (r: seq<Event>)
    ensures |r| + ChangeCount(es) == |es|
    ensures forall i :: 0 <= i < |r| ==> !r[i].Changed?
  {
    if es == [] then [] else (if es[0].Changed? then [] else [es[0]]) + Invocations(es[1..])
  }

  lemma {:induction false} LogDistributes(a: seq<Event>, b: seq<Event>)
    ensures ChangeCount(a + b) == ChangeCount(a) + ChangeCount(b)
    ensures Invocations(a + b) == Invocations(a) + Invocations(b)
  {
    if a == [] {
      assert a + b == b;
    } else {
      assert (a + b)[1..] == a[1..] + b;
      LogDistributes(a[1..], b);
    }
  }

  /** A move of the flags calls `onChange` once per flipped flag and nothing else. */
  lemma NotificationsOnly(a: State, b: State)
    ensures ChangeCount(Notifications(a, b)) == Flips(a, b) <= 2
    ensures Invocations(Notifications(a, b)) == []
  {
    var u := if a.canUndo != b.canUndo then [Changed(b.canUndo, a.canRedo)] else [];
    var r := if a.canRedo != b.canRedo then [Changed(b.canUndo, b.canRedo)] else [];
    LogDistributes(u, r);
  }

  /** `_updateIndex`: set the cursor, recompute both flags, and call `onChange`
      once for each flag whose value actually changes. */
  function UpdateIndex(s: State, idx: int): (r: Step)
    ensures r.state.stack == s.stack && r.state.index == idx && FlagsMatch(r.state)
    ensures r.events == Notifications(s, r.state)
  {
    var cu := idx >= 0;
    var cr := idx < |s.stack| - 1;
    var undoFlip := if cu != s.canUndo then [Changed(cu, s.canRedo)] else [];
    var redoFlip := if cr != s.canRedo then [Changed(cu, cr)] else [];
    Step(State(s.stack, idx, cu, cr), undoFlip + redoFlip)
  }

  /** `add`: drop every entry after the cursor, push the new entry, move the
      cursor onto it, evict the oldest entry when the cursor has reached
      `maxSize`, and only then run `execute`. */
  function Add(s: State, maxSize: int, options: AddOptions): (r: Step)
    requires Valid(s, maxSize)
    ensures Valid(r.state, maxSize)
  {
    var pushed := s.(stack := Grown(s, options));
    var advanced := UpdateIndex(pushed, s.index + 1);
    var trimmed :=
      if advanced.state.index >= maxSize then
        var shifted := advanced.state.(stack := advanced.state.stack[1..]);
        var back := UpdateIndex(shifted, shifted.index - 1);
        Step(back.state, advanced.events + back.events)
      else
        advanced;
    Step(trimmed.state, trimmed.events + ExecuteEvents(options))
  }

  /** `undo`: nothing when `canUndo` is false; otherwise step the cursor back
      and call the `undo` of the entry it left. */
  function Undo(s: State): (r: Step)
    requires Consistent(s)
    ensures Consistent(r.state) && r.state.stack == s.stack
  {
    if !s.canUndo then
      Step(s, [])
    else
      var entry := s.stack[s.index];
      var moved := UpdateIndex(s, s.index - 1);
      Step(moved.state, moved.events + [UndoCalled(entry.undo)])
  }

  /** `redo`: nothing when `canRedo` is false; otherwise step the cursor
      forward and call the `redo` of the entry it reached. */
  function Redo(s: State): (r: Step)
    requires Consistent(s)
    ensures Consistent(r.state) && r.state.stack == s.stack
  {
    if !s.canRedo then
      Step(s, [])
    else
      var entry := s.stack[s.index + 1];
      var moved := UpdateIndex(s, s.index + 1);
      Step(moved.state, moved.events + [RedoCalled(entry.redo)])
  }

  /** A call of one of the public operations. */
  datatype Op = AddOp(options: AddOptions) | UndoOp | RedoOp

  function Apply(s: State, maxSize: int, op: Op): (r: Step)
    requires Valid(s, maxSize)
    ensures Valid(r.state, maxSize)
  {
    match op
    case AddOp(options) => Add(s, maxSize, options)
    case UndoOp => Undo(s)
    case RedoOp => Redo(s)
  }

  /** A sequence of public calls on one manager; the log is every call's log, in order. */
  function Run(s: State, maxSize: int, ops: seq<Op>): (r: Step)
    requires Valid(s, maxSize)
    ensures Valid(r.state, maxSize)
    decreases |ops|
  {
    if ops == [] then
      Step(s, [])
    else
      var first := Apply(s, maxSize, ops[0]);
      var rest := Run(first.state, maxSize, ops[1..]);
      Step(rest.state, first.events + rest.events)
  }
}
