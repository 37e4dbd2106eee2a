/** What the history operations promise, proved about the functions of `History`. */
module Properties {
  import opened History

  /** What a listener reads through the getters in each `onChange` call of
      `_updateIndex`: the flags are assigned one at a time, `canUndo` first,
      so every call already sees the new `canUndo`, the last call sees both
      new flags, and when both flip the first call still sees the old `canRedo`. */
  lemma ListenerView(s: State, idx: int)
    ensures var r := UpdateIndex(s, idx);
            (forall i :: 0 <= i < |r.events| ==> r.events[i].Changed? && r.events[i].canUndo == r.state.canUndo)
            && (r.events != [] ==> r.events[|r.events| - 1] == Changed(r.state.canUndo, r.state.canRedo))
            && (|r.events| == 2 ==> r.events[0] == Changed(r.state.canUndo, s.canRedo) && s.canRedo != r.state.canRedo)
  {
  }

  /** After `add` the redo tail is gone, the new entry closes the stack, the
      oldest entry is evicted exactly when the stack would exceed `maxSize`,
      and the cursor sits on the last entry, so nothing can be redone. */
  lemma AddShape(s: State, maxSize: int, options: AddOptions)
    requires Valid(s, maxSize)
    ensures var grown := Grown(s, options);
            var r := Add(s, maxSize, options).state;
            r.stack == (if |grown| > maxSize then grown[1..] else grown)
            && r.index == |r.stack| - 1 && !r.canRedo && r.canUndo == (r.stack != [])
  {
  }

  /** With room for at least one entry, the last entry is the one just added:
      its `redo` is the given `redo` when there is one, else `execute`. */
  lemma AddRecordsEntry(s: State, maxSize: int, options: AddOptions)
    requires Valid(s, maxSize) && maxSize >= 1
    ensures var r := Add(s, maxSize, options).state;
            |r.stack| >= 1 && r.canUndo
            && r.stack[r.index] == r.stack[|r.stack| - 1]
            && r.stack[r.index].undo == options.undo
            && r.stack[r.index].redo == (if options.ExecuteUndo? then options.execute else options.redo)
  {
  }

  /** Eviction removes only the oldest entry: the others keep their order and
      the cursor, shifted back by one, still designates the new entry. */
  lemma AddEvictsOldest(s: State, maxSize: int, options: AddOptions)
    requires Valid(s, maxSize)
    ensures var grown := Grown(s, options);
            var r := Add(s, maxSize, options).state;
            if s.index + 1 >= maxSize then
              |r.stack| == s.index + 1 && r.index == s.index
              && forall k :: 0 <= k < |r.stack| ==> r.stack[k] == grown[k + 1]
            else
              r.stack == grown && r.index == s.index + 1
  {
  }

  /** With room for at least one entry, `add` calls `onChange` once per flag
      that differs between the old and the new state, and then calls
      `execute` exactly once if it was given; a `{redo, undo}` add calls no
      callback. */
  lemma AddNotifiesThenExecutes(s: State, maxSize: int, options: AddOptions)
    requires Valid(s, maxSize) && maxSize >= 1
    ensures var r := Add(s, maxSize, options);
            r.events == Notifications(s, r.state) + ExecuteEvents(options)
            && Invocations(r.events) == ExecuteEvents(options)
            && (Invocations(r.events) == [] <==> options.UndoRedo?)
            && ChangeCount(r.events) == Flips(s, r.state) <= 2
  {
    var r := Add(s, maxSize, options);
    var pushed := s.(stack := Grown(s, options));
    var advanced := UpdateIndex(pushed, s.index + 1);
    if advanced.state.index >= maxSize {
      var shifted := advanced.state.(stack := advanced.state.stack[1..]);
      var back := UpdateIndex(shifted, shifted.index - 1);
      assert Flips(shifted, back.state) == 0;
      assert back.events == [];
      assert advanced.events + back.events == advanced.events;
    }
    NotificationsOnly(s, r.state);
    LogDistributes(Notifications(s, r.state), ExecuteEvents(options));
  }

  /** A manager with no room (`maxSize <= 0`) stays empty: `add` pushes and
      evicts the new entry, which flips `canUndo` on and off again (two
      `onChange` calls), and still runs `execute`. */
  lemma AddWithoutCapacity(s: State, maxSize: int, options: AddOptions)
    requires Valid(s, maxSize) && maxSize <= 0
    ensures var r := Add(s, maxSize, options);
            r.state == s == Initial()
            && r.events == [Changed(true, false), Changed(false, false)] + ExecuteEvents(options)
  {
  }

  /** `undo` when nothing can be undone changes nothing and calls nothing;
      otherwise it moves the cursor back by one, leaves the stack alone, and
      calls `onChange` once per flipped flag and then the `undo` of the entry
      the cursor designated. */
  lemma UndoSteps(s: State)
    requires Consistent(s)
    ensures var r := Undo(s);
            if s.index >= 0 then
              r.state.stack == s.stack && r.state.index == s.index - 1 && r.state.canRedo
              && r.events == Notifications(s, r.state) + [UndoCalled(s.stack[s.index].undo)]
              && ChangeCount(r.events) == Flips(s, r.state)
              && Invocations(r.events) == [UndoCalled(s.stack[s.index].undo)]
            else
              r == Step(s, [])
  {
    if s.index >= 0 {
      var r := Undo(s);
      LogDistributes(Notifications(s, r.state), [UndoCalled(s.stack[s.index].undo)]);
      NotificationsOnly(s, r.state);
    }
  }

  /** `redo` when nothing can be redone changes nothing and calls nothing;
      otherwise it moves the cursor forward by one, leaves the stack alone,
      and calls `onChange` once per flipped flag and then the `redo` of the
      entry the cursor now designates. */
  lemma RedoSteps(s: State)
    requires Consistent(s)
    ensures var r := Redo(s);
            if s.index < |s.stack| - 1 then
              r.state.stack == s.stack && r.state.index == s.index + 1 && r.state.canUndo
              && r.events == Notifications(s, r.state) + [RedoCalled(s.stack[s.index + 1].redo)]
              && ChangeCount(r.events) == Flips(s, r.state)
              && Invocations(r.events) == [RedoCalled(s.stack[s.index + 1].redo)]
            else
              r == Step(s, [])
  {
    if s.index < |s.stack| - 1 {
      var r := Redo(s);
      LogDistributes(Notifications(s, r.state), [RedoCalled(s.stack[s.index + 1].redo)]);
      NotificationsOnly(s, r.state);
    }
  }

  /** `redo` right after an effective `undo` restores the state exactly and
      re-applies the entry that was undone; every flag flip is flipped back. */
  lemma UndoThenRedo(s: State)
    requires Consistent(s) && s.canUndo
    ensures var u := Undo(s);
            var v := Redo(u.state);
            v.state == s
            && Invocations(u.events + v.events)
               == [UndoCalled(s.stack[s.index].undo), RedoCalled(s.stack[s.index].redo)]
            && ChangeCount(u.events) == ChangeCount(v.events)
  {
    var u := Undo(s);
    UndoSteps(s);
    var v := Redo(u.state);
    RedoSteps(u.state);
    assert v.state.stack == s.stack && v.state.index == s.index;
    LogDistributes(u.events, v.events);
  }

  /** `undo` right after an effective `redo` restores the state exactly and
      reverses the entry that was redone. */
  lemma RedoThenUndo(s: State)
    requires Consistent(s) && s.canRedo
    ensures var v := Redo(s);
            var u := Undo(v.state);
            u.state == s
            && Invocations(v.events + u.events)
               == [RedoCalled(s.stack[s.index + 1].redo), UndoCalled(s.stack[s.index + 1].undo)]
            && ChangeCount(v.events) == ChangeCount(u.events)
  {
    var v := Redo(s);
    RedoSteps(s);
    var u := Undo(v.state);
    UndoSteps(v.state);
    assert u.state.stack == s.stack && u.state.index == s.index;
    LogDistributes(v.events, u.events);
  }

  /** The last `n` entries of `t` (all of them when there are fewer). */
  function Newest(t: seq<Entry>, n: nat): seq<Entry> {
    if |t| <= n then t else t[|t| - n..]
  }

  /** Keeping the newest `n` entries twice, with more entries appended in
      between, is keeping the newest `n` once. */
  lemma NewestAbsorbs(t: seq<Entry>, u: seq<Entry>, n: nat)
    ensures Newest(Newest(t, n) + u, n) == Newest(t + u, n)
  {
  }

  /** A call of `add` for each of `options`, in order. */
  function AddOps(options: seq<AddOptions>): (ops: seq<Op>)
    ensures |ops| == |options|
  {
    if options == [] then [] else [AddOp(options[0])] + AddOps(options[1..])
  }

  /** The entries those calls store, in order. */
  function Entries(options: seq<AddOptions>): (es: seq<Entry>)
    ensures |es| == |options|
  {
    if options == [] then [] else [EntryOf(options[0])] + Entries(options[1..])
  }

  /** One `add` with the cursor on the last entry keeps the newest
      `Capacity(maxSize)` entries of the stack extended by the new one. */
  lemma AddAtEnd(s: State, maxSize: int, options: AddOptions)
    requires Valid(s, maxSize) && s.index == |s.stack| - 1
    ensures var r := Add(s, maxSize, options).state;
            r.stack == Newest(s.stack + [EntryOf(options)], Capacity(maxSize))
            && r.index == |r.stack| - 1
  {
  }

  /** A run of `add` calls is its first `add` followed by the rest. */
  lemma RunFirstAdd(s: State, maxSize: int, options: seq<AddOptions>)
    requires Valid(s, maxSize) && options != []
    ensures Run(s, maxSize, AddOps(options)).state
            == Run(Add(s, maxSize, options[0]).state, maxSize, AddOps(options[1..])).state
  {
  }

  /** A run of `add` calls from a state whose cursor is on the last entry
      keeps exactly the newest `Capacity(maxSize)` entries, in the order
      they were added, with the cursor on the last one. */
  lemma {:induction false} AddsKeepNewest(s: State, maxSize: int, options: seq<AddOptions>)
    requires Valid(s, maxSize) && s.index == |s.stack| - 1
    ensures var r := Run(s, maxSize, AddOps(options)).state;
            r.stack == Newest(s.stack + Entries(options), Capacity(maxSize))
            && r.index == |r.stack| - 1
    decreases |options|
  {
    if options == [] {
      assert s.stack + Entries(options) == s.stack;
    } else {
      var e, rest := EntryOf(options[0]), Entries(options[1..]);
      var first := Add(s, maxSize, options[0]);
      AddAtEnd(s, maxSize, options[0]);
      RunFirstAdd(s, maxSize, options);
      AddsKeepNewest(first.state, maxSize, options[1..]);
      NewestAbsorbs(s.stack + [e], rest, Capacity(maxSize));
      assert s.stack + [e] + rest == s.stack + Entries(options);
    }
  }

  /** Adding `maxSize + 1` entries to a fresh manager leaves `maxSize` of
      them: the first one added can no longer be reached. */
  lemma CapacityEviction(maxSize: nat, options: seq<AddOptions>)
    requires |options| == maxSize + 1
    ensures var r := Run(Initial(), maxSize, AddOps(options)).state;
            |r.stack| == maxSize && r.stack == Entries(options)[1..] && r.index == maxSize - 1
  {
    AddsKeepNewest(Initial(), maxSize, options);
    assert Initial().stack + Entries(options) == Entries(options);
  }
}
