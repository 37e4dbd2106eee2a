/** The call sequence of the package's own test suite (its first six tests,
    which use no groups), run through the model on one shared manager built
    with an `onChange` and the default capacity. */
module TestScenario {
  import opened History

  /** `OneRemoveOneAdd`: a `{redo, undo}` pair. */
  const PlainPair: AddOptions := UndoRedo(1, 2)
  /** `OneRemoveOneExecute`: an `{execute, undo}` pair. */
  const ExecutePair: AddOptions := ExecuteUndo(3, 4)

  const Test1: seq<Op> := [AddOp(PlainPair), AddOp(ExecutePair)]
  const Test2: seq<Op> := [UndoOp, UndoOp]
  const Test3: seq<Op> := [AddOp(PlainPair)]
  const Test4: seq<Op> := [AddOp(PlainPair)]
  const Test5: seq<Op> := [RedoOp, RedoOp]
  const Test6: seq<Op> := [AddOp(PlainPair), UndoOp, UndoOp, UndoOp, RedoOp, RedoOp]

  /** The manager's state at the end of each test. */
  const After1: State := State([Entry(1, 2), Entry(3, 4)], 1, true, false)
  const After2: State := State([Entry(1, 2), Entry(3, 4)], -1, false, true)
  const After3: State := State([Entry(1, 2)], 0, true, false)
  const After4: State := State([Entry(1, 2), Entry(1, 2)], 1, true, false)
  const After5: State := After4
  const After6: State := State([Entry(1, 2), Entry(1, 2), Entry(1, 2)], 1, true, true)

  /** What each test makes the manager do, in order: the `onChange` calls
      and the host callbacks (1 and 3 add one to the test's counter, 2 and 4
      take one away). */
  const Log1: seq<Event> := [Changed(true, false), ExecuteCalled(3)]
  const Log2: seq<Event> := [Changed(true, true), UndoCalled(4), Changed(false, true), UndoCalled(2)]
  const Log3: seq<Event> := [Changed(true, true), Changed(true, false)]
  const Log4: seq<Event> := []
  const Log5: seq<Event> := []
  const Log6: seq<Event> :=
    [Changed(true, true), UndoCalled(2), UndoCalled(2), Changed(false, true), UndoCalled(2),
     Changed(true, true), RedoCalled(1), RedoCalled(1)]

  /** Running `[op] + ops` is applying `op` and then running `ops`. */
  lemma RunCons(s: State, maxSize: int, op: Op, ops: seq<Op>)
    requires Valid(s, maxSize)
    ensures var first := Apply(s, maxSize, op);
            var rest := Run(first.state, maxSize, ops);
            Run(s, maxSize, [op] + ops) == Step(rest.state, first.events + rest.events)
  {
  }

  /** 'added redo added execute': `execute` runs once; `canUndo` flips on. */
  lemma AddedRedoAddedExecute()
    ensures Run(Initial(), DefaultMaxSize, Test1)
            == Step(After1, Log1)
  {
    var m := DefaultMaxSize;
    var a := Add(Initial(), m, PlainPair);
    assert a == Step(State([Entry(1, 2)], 0, true, false), [Changed(true, false)]);
    var b := Add(a.state, m, ExecutePair);
    assert b == Step(State([Entry(1, 2), Entry(3, 4)], 1, true, false), [ExecuteCalled(3)]);
    RunCons(b.state, m, AddOp(ExecutePair), []);
    RunCons(Initial(), m, AddOp(PlainPair), [AddOp(ExecutePair)]);
  }

  /** 'undo two entries': both `undo`s run, newest first; `canRedo` flips on, then `canUndo` off. */
  lemma UndoTwoEntries()
    ensures Run(After1, DefaultMaxSize, Test2)
            == Step(After2, Log2)
  {
  }

  /** 'add one more entry': the two undone entries are discarded; both flags flip. */
  lemma AddOneMoreEntry()
    ensures Run(After2, DefaultMaxSize, Test3)
            == Step(After3, Log3)
  {
  }

  /** 'add one more entry should have no changes': no flag flips, no callback. */
  lemma AddOneMoreEntryNoChanges()
    ensures Run(After3, DefaultMaxSize, Test4) == Step(After4, Log4)
  {
  }

  /** 'redo two items in stack that can not be redone': both calls are no-ops. */
  lemma RedoNothingToRedo()
    ensures Run(After4, DefaultMaxSize, Test5) == Step(After5, Log5)
  {
  }

  /** The stack during 'add / redo / undo'. */
  const Three: seq<Entry> := [Entry(1, 2), Entry(1, 2), Entry(1, 2)]

  /** The single calls of 'add / redo / undo', one at a time. */
  lemma AddRedoUndoCalls()
    ensures Add(After5, DefaultMaxSize, PlainPair) == Step(State(Three, 2, true, false), [])
    ensures Undo(State(Three, 2, true, false)) == Step(State(Three, 1, true, true), [Changed(true, true), UndoCalled(2)])
    ensures Undo(State(Three, 1, true, true)) == Step(State(Three, 0, true, true), [UndoCalled(2)])
    ensures Undo(State(Three, 0, true, true)) == Step(State(Three, -1, false, true), [Changed(false, true), UndoCalled(2)])
    ensures Redo(State(Three, -1, false, true)) == Step(State(Three, 0, true, true), [Changed(true, true), RedoCalled(1)])
    ensures Redo(State(Three, 0, true, true)) == Step(State(Three, 1, true, true), [RedoCalled(1)])
  {
  }

  /** 'add / redo / undo': three `undo`s then two `redo`s; `canRedo` flips on,
      `canUndo` flips off and back on. */
  lemma AddRedoUndo()
    ensures Run(After5, DefaultMaxSize, Test6) == Step(After6, Log6)
  {
    var m := DefaultMaxSize;
    AddRedoUndoCalls();
    RunCons(State(Three, 0, true, true), m, RedoOp, []);
    RunCons(State(Three, -1, false, true), m, RedoOp, [RedoOp]);
    RunCons(State(Three, 0, true, true), m, UndoOp, [RedoOp, RedoOp]);
    RunCons(State(Three, 1, true, true), m, UndoOp, [UndoOp, RedoOp, RedoOp]);
    RunCons(State(Three, 2, true, false), m, UndoOp, [UndoOp, UndoOp, RedoOp, RedoOp]);
    RunCons(After5, m, AddOp(PlainPair), [UndoOp, UndoOp, UndoOp, RedoOp, RedoOp]);
  }

  /** The `onChange` call counts the suite checks after each test: 1, 3, 5, 5, 5, 8. */
  lemma OnChangeCallCounts()
    ensures var e1 := Run(Initial(), DefaultMaxSize, Test1).events;
            var e2 := Run(After1, DefaultMaxSize, Test2).events;
            var e3 := Run(After2, DefaultMaxSize, Test3).events;
            var e4 := Run(After3, DefaultMaxSize, Test4).events;
            var e5 := Run(After4, DefaultMaxSize, Test5).events;
            var e6 := Run(After5, DefaultMaxSize, Test6).events;
            ChangeCount(e1) == 1 && ChangeCount(e1 + e2) == 3 && ChangeCount(e1 + e2 + e3) == 5
            && ChangeCount(e1 + e2 + e3 + e4) == 5 && ChangeCount(e1 + e2 + e3 + e4 + e5) == 5
            && ChangeCount(e1 + e2 + e3 + e4 + e5 + e6) == 8
  {
    AddedRedoAddedExecute();
    UndoTwoEntries();
    AddOneMoreEntry();
    AddOneMoreEntryNoChanges();
    RedoNothingToRedo();
    AddRedoUndo();
    LogCounts();
  }

  lemma LogCounts()
    ensures ChangeCount(Log1) == 1 && ChangeCount(Log1 + Log2) == 3 && ChangeCount(Log1 + Log2 + Log3) == 5
    ensures ChangeCount(Log1 + Log2 + Log3 + Log4) == 5 && ChangeCount(Log1 + Log2 + Log3 + Log4 + Log5) == 5
    ensures ChangeCount(Log1 + Log2 + Log3 + Log4 + Log5 + Log6) == 8
  {
    LogDistributes(Log1, Log2);
    LogDistributes(Log1 + Log2, Log3);
    LogDistributes(Log1 + Log2 + Log3, Log4);
    LogDistributes(Log1 + Log2 + Log3 + Log4, Log5);
    LogDistributes(Log1 + Log2 + Log3 + Log4 + Log5, Log6);
  }
}
