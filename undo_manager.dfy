/** The `UndoManager` class: its private fields, updated in place by its
    methods, each method proved to do what the function of the same name in
    `History` describes. */
module Manager {
  import opened History

  class UndoManager {
    var undoRedoStack: seq<Entry>
    const maxSize: int
    var index: int
    var canUndo: bool
    var canRedo: bool
    /** Every call of a host callback and of `onChange`, in the order made. */
    ghost var events: seq<Event>

    /** The fields, as the value the functions of `History` work on. */
    function Snapshot(): State
      reads this
    {
      State(undoRedoStack, index, canUndo, canRedo)
    }

    ghost predicate Valid()
      reads this
    {
      History.Valid(Snapshot(), maxSize)
    }

    /** `maxSize` is the option of that name; when absent the capacity is `DefaultMaxSize`. */
    constructor (maxSize: Option<int>)
      ensures Valid() && Snapshot() == Initial() && events == []
      ensures this.maxSize == (if maxSize.Some? then maxSize.value else DefaultMaxSize)
    {
      this.maxSize := if maxSize.Some? then maxSize.value else DefaultMaxSize;
      undoRedoStack := [];
      index := -1;
      canUndo := false;
      canRedo := false;
      events := [];
    }

    /** `_updateIndex`. Called in the middle of `add`, so it does not rely on the invariant. */
    method UpdateIndex(idx: int)
      modifies this
      ensures Snapshot() == History.UpdateIndex(old(Snapshot()), idx).state
      ensures events == old(events) + History.UpdateIndex(old(Snapshot()), idx).events
    {
      index := idx;
      var cu := index >= 0;
      if cu != canUndo {
        canUndo := cu;
        events := events + [Changed(canUndo, canRedo)];
      }
      var cr := index < |undoRedoStack| - 1;
      if cr != canRedo {
        canRedo := cr;
        events := events + [Changed(canUndo, canRedo)];
      }
    }

    /** The `canUndo` getter: some entry at or before the cursor can be undone. */
    function CanUndo(): (b: bool)
      reads this
      requires Valid()
      ensures b <==> 0 <= index < |undoRedoStack|
    {
      canUndo
    }

    /** The `canRedo` getter: some entry after the cursor can be redone. */
    function CanRedo(): (b: bool)
      reads this
      requires Valid()
      ensures b <==> index + 1 < |undoRedoStack|
    {
      canRedo
    }

    method Add(options: AddOptions)
      requires Valid()
      modifies this
      ensures Valid()
      ensures Snapshot() == History.Add(old(Snapshot()), maxSize, options).state
      ensures events == old(events) + History.Add(old(Snapshot()), maxSize, options).events
      ensures index == |undoRedoStack| - 1 && !canRedo
    {
      undoRedoStack := undoRedoStack[..index + 1];
      var execute := ExecuteOf(options);
      undoRedoStack := undoRedoStack + [EntryOf(options)];
      UpdateIndex(index + 1);
      if index >= maxSize {
        undoRedoStack := undoRedoStack[1..];
        UpdateIndex(index - 1);
      }
      if execute.Some? {
        events := events + [ExecuteCalled(execute.value)];
      }
    }

    method Undo()
      requires Valid()
      modifies this
      ensures Valid()
      ensures Snapshot() == History.Undo(old(Snapshot())).state
      ensures events == old(events) + History.Undo(old(Snapshot())).events
      ensures undoRedoStack == old(undoRedoStack)
    {
      if !canUndo {
        return;
      }
      var entry := undoRedoStack[index];
      UpdateIndex(index - 1);
      events := events + [UndoCalled(entry.undo)];
    }

    method Redo()
      requires Valid()
      modifies this
      ensures Valid()
      ensures Snapshot() == History.Redo(old(Snapshot())).state
      ensures events == old(events) + History.Redo(old(Snapshot())).events
      ensures undoRedoStack == old(undoRedoStack)
    {
      if !canRedo {
        return;
      }
      var entry := undoRedoStack[index + 1];
      UpdateIndex(index + 1);
      events := events + [RedoCalled(entry.redo)];
    }
  }
}
