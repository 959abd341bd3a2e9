/**
 * The linear undo/redo history: a sequence of snapshots of the state and the index of the
 * current one. A committing update truncates everything after the index and appends; an
 * overwriting update replaces the current snapshot; undo and redo step the index.
 */
module History {

  /** What `setState` is given: the new state, or a function of the current state. */
  datatype StateAction<!T> = Value(state: T) | Updater(update: T -> T)

  /** The new state an action denotes, given the current state. */
  function Resolve<T>(action: StateAction<T>, current: T): T
  {
    match action
    case Value(s) => s
    case Updater(f) => f(current)
  }

  /** The abstract value of the history: its snapshots and the current index. */
  datatype Timeline<T> = Timeline(entries: seq<T>, index: nat)
  {
    predicate Valid() { index < |entries| }

    function Current(): T
      requires Valid()
    {
      entries[index]
    }
  }

  /** A fresh history holds just the initial state. */
  function Initial<T>(initial: T): (t: Timeline<T>)
    ensures t.Valid() && t.Current() == initial && |t.entries| == 1
  {
    Timeline([initial], 0)
  }

  /** An overwriting update: replaces the current snapshot, nothing else. */
  function Overwritten<T>(t: Timeline<T>, s: T): (r: Timeline<T>)
    requires t.Valid()
    ensures r.Valid() && r.Current() == s
    ensures |r.entries| == |t.entries| && r.index == t.index
    ensures forall i :: 0 <= i < |t.entries| && i != t.index ==> r.entries[i] == t.entries[i]
  {
    Timeline(t.entries[t.index := s], t.index)
  }

  /**
   * A committing update: keeps the snapshots up to and including the current one, drops
   * the rest, appends the new state and makes it current.
   */
  function Committed<T>(t: Timeline<T>, s: T): (r: Timeline<T>)
    requires t.Valid()
    ensures r.Valid() && r.Current() == s
    ensures |r.entries| == t.index + 2 && r.index == t.index + 1
    ensures r.entries[..t.index + 1] == t.entries[..t.index + 1]
  {
    Timeline(t.entries[..t.index + 1] + [s], t.index + 1)
  }

  /** Undo moves one step back, and does nothing at the first snapshot. */
  function Undone<T>(t: Timeline<T>): (r: Timeline<T>)
    requires t.Valid()
    ensures r.Valid() && r.entries == t.entries
    ensures r.index == if t.index > 0 then t.index - 1 else t.index
  {
    if t.index > 0 then Timeline(t.entries, t.index - 1) else t
  }

  /** Redo moves one step forward, and does nothing at the last snapshot. */
  function Redone<T>(t: Timeline<T>): (r: Timeline<T>)
    requires t.Valid()
    ensures r.Valid() && r.entries == t.entries
    ensures r.index == if t.index < |t.entries| - 1 then t.index + 1 else t.index
  {
    if t.index < |t.entries| - 1 then Timeline(t.entries, t.index + 1) else t
  }

  /** Overwriting with the current state changes nothing. */
  lemma OverwriteWithCurrent<T>(t: Timeline<T>)
    requires t.Valid()
    ensures Overwritten(t, t.Current()) == t
  {
    assert t.entries[t.index := t.Current()] == t.entries;
  }

  /** Undo on a fresh history leaves the index at 0. */
  lemma UndoAtStart<T>(initial: T)
    ensures Undone(Initial(initial)) == Initial(initial)
  {
  }

  /** Nothing can be redone right after a commit. */
  lemma RedoAfterCommit<T>(t: Timeline<T>, s: T)
    requires t.Valid()
    ensures Redone(Committed(t, s)) == Committed(t, s)
  {
  }

  /** Undo and then redo after a commit gives back the committed history and state. */
  lemma CommitUndoRedo<T>(t: Timeline<T>, s: T)
    requires t.Valid()
    ensures Undone(Committed(t, s)).Current() == t.Current()
    ensures Redone(Undone(Committed(t, s))) == Committed(t, s)
    ensures Redone(Undone(Committed(t, s))).Current() == s
  {
    var c := Committed(t, s);
    assert c.entries[t.index] == c.entries[..t.index + 1][t.index];
  }

  /** A run of overwrites, one per state of `frames`, in order. */
  function OverwriteAll<T>(t: Timeline<T>, frames: seq<T>): (r: Timeline<T>)
    requires t.Valid()
    ensures r.Valid()
    decreases |frames|
  {
    if |frames| == 0 then t else OverwriteAll(Overwritten(t, frames[0]), frames[1..])
  }

  /** Any number of overwrites leave the length, the index and every other snapshot alone. */
  lemma {:induction false} OverwriteAllKeepsShape<T>(t: Timeline<T>, frames: seq<T>)
    requires t.Valid()
    ensures |OverwriteAll(t, frames).entries| == |t.entries|
    ensures OverwriteAll(t, frames).index == t.index
    ensures forall i :: 0 <= i < |t.entries| && i != t.index ==> OverwriteAll(t, frames).entries[i] == t.entries[i]
    ensures |frames| > 0 ==> OverwriteAll(t, frames).Current() == frames[|frames| - 1]
    decreases |frames|
  {
    if |frames| > 0 {
      OverwriteAllKeepsShape(Overwritten(t, frames[0]), frames[1..]);
      if |frames| > 1 {
        assert frames[1..][|frames[1..]| - 1] == frames[|frames| - 1];
      }
    }
  }

  /**
   * A gesture is one commit followed by overwrites; a single undo afterwards returns to
   * the state before the gesture, with the snapshots before it untouched.
   */
  lemma GestureIsOneUndoStep<T>(t: Timeline<T>, s: T, frames: seq<T>)
    requires t.Valid()
    ensures Undone(OverwriteAll(Committed(t, s), frames)).Current() == t.Current()
    ensures |Undone(OverwriteAll(Committed(t, s), frames)).entries| == t.index + 2
    ensures Undone(OverwriteAll(Committed(t, s), frames)).entries[..t.index + 1] == t.entries[..t.index + 1]
  {
    var c := Committed(t, s);
    OverwriteAllKeepsShape(c, frames);
    var r := OverwriteAll(c, frames);
    assert forall i :: 0 <= i <= t.index ==> r.entries[i] == c.entries[i] == t.entries[i];
    assert r.entries[..t.index + 1] == t.entries[..t.index + 1];
  }

  /**
   * Commit A, commit B, undo, commit C: B is discarded and the history is exactly
   * [initial, A, C] with C current.
   */
  lemma CommitAfterUndoDiscardsRedo<T>(initial: T, a: T, b: T, c: T)
    ensures
      var t := Committed(Undone(Committed(Committed(Initial(initial), a), b)), c);
      t.entries == [initial, a, c] && t.index == 2
  {
    var t1 := Committed(Initial(initial), a);
    assert t1.entries == [initial, a];
    var t2 := Committed(t1, b);
    assert t2.entries == [initial, a, b];
    var t3 := Undone(t2);
    assert t3.entries[..2] == [initial, a];
  }

  /** The history store of the application, over snapshots of type T. */
  class HistoryStore<T> {
    var entries: seq<T>
    var index: nat

    /** The store as a timeline value. */
    function Model(): Timeline<T>
      reads this
    {
      Timeline(entries, index)
    }

    ghost predicate Valid()
      reads this
    {
      Model().Valid()
    }

    constructor (initial: T)
      ensures Valid() && Model() == Initial(initial)
    {
      entries := [initial];
      index := 0;
    }

    /** The current snapshot. */
    function Current(): (s: T)
      reads this
      requires Valid()
      ensures s == Model().Current()
    {
      entries[index]
    }

    /** Applies an action, overwriting the current snapshot or committing a new one. */
    method SetState(action: StateAction<T>, overwrite: bool)
      requires Valid()
      modifies this
      ensures Valid()
      ensures overwrite ==> Model() == Overwritten(old(Model()), Resolve(action, old(Current())))
      ensures !overwrite ==> Model() == Committed(old(Model()), Resolve(action, old(Current())))
    {
      var newState := Resolve(action, entries[index]);
      if overwrite {
        var historyCopy := entries;
        historyCopy := historyCopy[index := newState];
        entries := historyCopy;
      } else {
        var updatedState := entries[..index + 1];
        entries := updatedState + [newState];
        index := index + 1;
      }
    }

    method Undo()
      requires Valid()
      modifies this
      ensures Valid() && Model() == Undone(old(Model()))
    {
      if index > 0 {
        index := index - 1;
      }
    }

    method Redo()
      requires Valid()
      modifies this
      ensures Valid() && Model() == Redone(old(Model()))
    {
      if index < |entries| - 1 {
        index := index + 1;
      }
    }
  }
}
