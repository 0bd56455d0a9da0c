/**
 * The undo/redo history the editor pushes its edits through. Every edit of a
 * shape opens one version: a pair of handlers, `up` (do, and redo) and
 * `down` (undo). Committing runs `up` at once, drops the redo tail and moves
 * the cursor past the new version; undo runs the current version's `down` and
 * moves the cursor back; redo runs the next version's `up`. At either end of
 * the history, undo and redo do nothing.
 *
 * The handlers are state transformers over an abstract document state `S`.
 */
module Versioning {

  datatype Version<!S> = Version(up: S -> S, down: S -> S)

  /** The document state, the recorded versions, and the cursor: versions before it are applied. */
  datatype History<!S> = History(state: S, versions: seq<Version<S>>, cursor: nat)

  /** The state reached from `init` by applying each version's `up` in order. */
  function Replay<S>(init: S, vs: seq<Version<S>>): S
    decreases |vs|
  {
    if vs == [] then init else vs[|vs| - 1].up(Replay(init, vs[..|vs| - 1]))
  }

  function Commit<S>(h: History<S>, v: Version<S>): (r: History<S>)
    requires h.cursor <= |h.versions|
    ensures r.versions == h.versions[..h.cursor] + [v]
    ensures r.cursor == h.cursor + 1 == |r.versions|
    ensures r.state == v.up(h.state)
  {
    History(v.up(h.state), h.versions[..h.cursor] + [v], h.cursor + 1)
  }

  function Undo<S>(h: History<S>): (r: History<S>)
    requires h.cursor <= |h.versions|
    ensures r.versions == h.versions
    ensures h.cursor == 0 ==> r == h
    ensures h.cursor > 0 ==> r.cursor == h.cursor - 1 && r.state == h.versions[h.cursor - 1].down(h.state)
  {
    if h.cursor == 0 then h
    else History(h.versions[h.cursor - 1].down(h.state), h.versions, h.cursor - 1)
  }

  function Redo<S>(h: History<S>): (r: History<S>)
    requires h.cursor <= |h.versions|
    ensures r.versions == h.versions
    ensures h.cursor == |h.versions| ==> r == h
    ensures h.cursor < |h.versions| ==> r.cursor == h.cursor + 1 && r.state == h.versions[h.cursor].up(h.state)
  {
    if h.cursor == |h.versions| then h
    else History(h.versions[h.cursor].up(h.state), h.versions, h.cursor + 1)
  }

  /** Each recorded version's `down` undoes its `up` at the point where it was recorded. */
  ghost predicate Reversible<S>(init: S, vs: seq<Version<S>>) {
    forall i :: 0 <= i < |vs| ==> vs[i].down(Replay(init, vs[..i + 1])) == Replay(init, vs[..i])
  }

  /**
   * The history invariant: replaying the versions before the cursor from the
   * initial state gives the current state, and every version is reversible.
   */
  ghost predicate Consistent<S>(init: S, h: History<S>) {
    && h.cursor <= |h.versions|
    && h.state == Replay(init, h.versions[..h.cursor])
    && Reversible(init, h.versions)
  }

  lemma ReplayPrefix<S>(init: S, vs: seq<Version<S>>, v: Version<S>)
    ensures Replay(init, vs + [v]) == v.up(Replay(init, vs))
  {
    assert (vs + [v])[..|vs|] == vs;
  }

  /** The empty history is consistent. */
  lemma InitialConsistent<S>(init: S)
    ensures Consistent(init, History(init, [], 0))
  {
    var none: seq<Version<S>> := [];
    assert none[..0] == none;
  }

  /** Committing a version whose `down` undoes its `up` from the current state keeps the invariant. */
  lemma CommitConsistent<S>(init: S, h: History<S>, v: Version<S>)
    requires Consistent(init, h)
    requires v.down(v.up(h.state)) == h.state
    ensures Consistent(init, Commit(h, v))
  {
    var r := Commit(h, v);
    var kept := h.versions[..h.cursor];
    assert r.versions[..r.cursor] == r.versions == kept + [v];
    ReplayPrefix(init, kept, v);
    forall i | 0 <= i < |r.versions|
      ensures r.versions[i].down(Replay(init, r.versions[..i + 1])) == Replay(init, r.versions[..i])
    {
      if i < h.cursor {
        assert r.versions[..i + 1] == h.versions[..i + 1];
        assert r.versions[..i] == h.versions[..i];
        assert r.versions[i] == h.versions[i];
      } else {
        assert r.versions[..i] == kept;
      }
    }
  }

  lemma UndoConsistent<S>(init: S, h: History<S>)
    requires Consistent(init, h)
    ensures Consistent(init, Undo(h))
  {
    if h.cursor > 0 {
      var i := h.cursor - 1;
      assert h.versions[..h.cursor] == h.versions[..i + 1];
    }
  }

  lemma RedoConsistent<S>(init: S, h: History<S>)
    requires Consistent(init, h)
    ensures Consistent(init, Redo(h))
  {
    if h.cursor < |h.versions| {
      var c := h.cursor;
      assert h.versions[..c + 1] == h.versions[..c] + [h.versions[c]];
      ReplayPrefix(init, h.versions[..c], h.versions[c]);
    }
  }

  /** Undoing right after a commit gives back the state before it. */
  lemma UndoCommit<S>(h: History<S>, v: Version<S>)
    requires h.cursor <= |h.versions|
    requires v.down(v.up(h.state)) == h.state
    ensures Undo(Commit(h, v)).state == h.state
    ensures Undo(Commit(h, v)).cursor == h.cursor
  {
  }

  /** In a consistent history, redoing what was just undone gives back the same history. */
  lemma RedoUndo<S>(init: S, h: History<S>)
    requires Consistent(init, h)
    requires h.cursor > 0
    ensures Redo(Undo(h)) == h
  {
    var i := h.cursor - 1;
    assert h.versions[..i + 1] == h.versions[..i] + [h.versions[i]];
    ReplayPrefix(init, h.versions[..i], h.versions[i]);
  }

  /** In a consistent history, undoing what was just redone gives back the same history. */
  lemma UndoRedo<S>(init: S, h: History<S>)
    requires Consistent(init, h)
    requires h.cursor < |h.versions|
    ensures Undo(Redo(h)) == h
  {
    var c := h.cursor;
    assert h.versions[..c + 1] == h.versions[..c] + [h.versions[c]];
    ReplayPrefix(init, h.versions[..c], h.versions[c]);
  }

  /** `n` undos in a row. */
  function UndoTimes<S>(h: History<S>, n: nat): (r: History<S>)
    requires h.cursor <= |h.versions|
    ensures r.versions == h.versions
    ensures r.cursor == if n <= h.cursor then h.cursor - n else 0
    decreases n
  {
    if n == 0 then h else Undo(UndoTimes(h, n - 1))
  }

  /** `n` redos in a row. */
  function RedoTimes<S>(h: History<S>, n: nat): (r: History<S>)
    requires h.cursor <= |h.versions|
    ensures r.versions == h.versions
    ensures r.cursor == if h.cursor + n <= |h.versions| then h.cursor + n else |h.versions|
    decreases n
  {
    if n == 0 then h else RedoTimes(Redo(h), n - 1)
  }

  lemma {:induction false} UndoTimesConsistent<S>(init: S, h: History<S>, n: nat)
    requires Consistent(init, h)
    ensures Consistent(init, UndoTimes(h, n))
  {
    if n > 0 {
      UndoTimesConsistent(init, h, n - 1);
      UndoConsistent(init, UndoTimes(h, n - 1));
    }
  }

  /**
   * Undo/redo symmetry: undoing the last `n` applied versions and then redoing
   * them gives back the same history, state included.
   */
  lemma {:induction false} UndoRedoSymmetry<S>(init: S, h: History<S>, n: nat)
    requires Consistent(init, h)
    requires n <= h.cursor
    ensures RedoTimes(UndoTimes(h, n), n) == h
  {
    if n > 0 {
      var u := UndoTimes(h, n - 1);
      UndoTimesConsistent(init, h, n - 1);
      RedoUndo(init, u);
      assert RedoTimes(UndoTimes(h, n), n) == RedoTimes(u, n - 1);
      UndoRedoSymmetry(init, h, n - 1);
    }
  }
}
