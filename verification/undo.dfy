/** Per-player undo: a bounded stack of capture maps per player, and the restore that
    writes a capture back into the world. */
module Undo {
  import opened Blocks
  import opened Grid

  /** A player's identity (a UUID in the game); only equality matters. */
  datatype PlayerId = PlayerId(uuid: nat)

  /** Each player's actions, oldest first. A player who never built has no entry; a
      player whose last action was undone keeps an empty one. */
  type History = map<PlayerId, seq<Capture>>

  const MaxUndoHistory: nat := 10

  /** A player's actions, empty when the player has no entry. */
  function Actions(h: History, id: PlayerId): seq<Capture>
  {
    if id in h then h[id] else []
  }

  /** Every player keeps at most `MaxUndoHistory` actions. */
  ghost predicate Bounded(h: History)
  {
    forall id :: id in h ==> |h[id]| <= MaxUndoHistory
  }

  /** `recordAction`: append the capture to the player's list (creating the list if
      needed) and, when that makes it longer than the cap, drop the oldest entry. */
  function RecordAction(h: History, id: PlayerId, c: Capture): (h': History)
    ensures id in h' && |h'[id]| > 0 && h'[id][|h'[id]| - 1] == c
    ensures |Actions(h, id)| < MaxUndoHistory ==> h'[id] == Actions(h, id) + [c]
    ensures |Actions(h, id)| >= MaxUndoHistory ==> h'[id] == Actions(h, id)[1..] + [c]
    ensures h'.Keys == h.Keys + {id}
    ensures forall q :: q != id ==> Actions(h', q) == Actions(h, q)
  {
    var added := Actions(h, id) + [c];
    h[id := if |added| > MaxUndoHistory then added[1..] else added]
  }

  /** `canUndo`: the player has an entry and it holds at least one action. */
  function CanUndo(h: History, id: PlayerId): (b: bool)
    ensures b <==> |Actions(h, id)| > 0
    ensures b ==> id in h
  {
    id in h && |h[id]| > 0
  }

  /** The action `undo` would restore: the most recent one. */
  function Latest(h: History, id: PlayerId): Capture
    requires CanUndo(h, id)
  {
    h[id][|h[id]| - 1]
  }

  /** The history after `undo` removed the most recent action. */
  function Pop(h: History, id: PlayerId): (h': History)
    requires CanUndo(h, id)
    ensures id in h' && h'[id] + [Latest(h, id)] == h[id]
    ensures h'.Keys == h.Keys
    ensures forall q :: q != id ==> Actions(h', q) == Actions(h, q)
  {
    h[id := h[id][..|h[id]| - 1]]
  }

  /** `clearHistory`: the player's entry is removed altogether. */
  function ClearHistory(h: History, id: PlayerId): (h': History)
    ensures id !in h' && !CanUndo(h', id)
    ensures forall q :: q != id ==> Actions(h', q) == Actions(h, q) && (q in h' <==> q in h)
  {
    h - {id}
  }

  /** `BuildAction.restore`: write every captured block back, one entry at a time. The
      result is the world overridden by the capture. */
  method Restore(w: World, c: Capture) returns (w': World)
    ensures forall p :: Get(w', p) == (if p in c then c[p] else Get(w, p))
    ensures w' == w + c
  {
    w' := w;
    var rest := c.Keys;
    while rest != {}
      invariant rest <= c.Keys
      invariant w' == w + map p | p in c && p !in rest :: c[p]
      decreases |rest|
    {
      var p :| p in rest;
      w' := w'[p := c[p]];
      rest := rest - {p};
    }
    assert (map p | p in c && p !in rest :: c[p]) == c;
  }

  /** `undo`: with nothing to undo, report failure and change nothing; otherwise remove
      the most recent action and restore it. */
  method UndoLast(h: History, id: PlayerId, w: World) returns (ok: bool, h': History, w': World)
    ensures ok <==> CanUndo(h, id)
    ensures !ok ==> h' == h && w' == w
    ensures ok ==> h' == Pop(h, id) && w' == w + Latest(h, id)
    ensures forall q :: q != id ==> Actions(h', q) == Actions(h, q)
  {
    if id !in h || |h[id]| == 0 {
      return false, h, w;
    }
    var last := h[id][|h[id]| - 1];
    h' := Pop(h, id);
    w' := Restore(w, last);
    ok := true;
  }

  /** Recording keeps every player within the cap. */
  lemma RecordKeepsBounded(h: History, id: PlayerId, c: Capture)
    requires Bounded(h)
    ensures Bounded(RecordAction(h, id, c))
    ensures |Actions(RecordAction(h, id, c), id)| == if |Actions(h, id)| < MaxUndoHistory then |Actions(h, id)| + 1 else MaxUndoHistory
  {
  }

  /** Last in, first out: undoing right after recording gives back the action just
      recorded, and (below the cap) the player's earlier actions as they were. */
  lemma RecordThenUndo(h: History, id: PlayerId, c: Capture)
    ensures CanUndo(RecordAction(h, id, c), id)
    ensures Latest(RecordAction(h, id, c), id) == c
    ensures |Actions(h, id)| < MaxUndoHistory ==> Actions(Pop(RecordAction(h, id, c), id), id) == Actions(h, id)
  {
    var h1 := RecordAction(h, id, c);
    if |Actions(h, id)| < MaxUndoHistory {
      assert h1[id] == Actions(h, id) + [c];
      assert Pop(h1, id)[id] == h1[id][..|h1[id]| - 1];
    }
  }

  /** An eleventh action evicts the oldest; the other ten keep their order. */
  lemma EleventhEvictsOldest(h: History, id: PlayerId, c: Capture)
    requires |Actions(h, id)| == MaxUndoHistory
    ensures var a := RecordAction(h, id, c)[id];
      |a| == MaxUndoHistory && (forall i :: 0 <= i < MaxUndoHistory - 1 ==> a[i] == Actions(h, id)[i + 1]) && a[MaxUndoHistory - 1] == c
  {
  }

  /** Restoring a faithful capture over the world it was taken from gives back the
      world before the build, at every position. */
  lemma RestoreFaithful(w0: World, c: Capture, w: World)
    requires Faithful(w0, c, w)
    ensures forall p :: Get(w + c, p) == Get(w0, p)
  {
  }

  /** Up to the cap, recording actions into a fresh history keeps all of them in the
      order they were recorded, so successive undos hand them back newest first. */
  lemma {:induction false} RecordAllKeepsOrder(cs: seq<Capture>, id: PlayerId)
    requires |cs| <= MaxUndoHistory
    ensures Actions(RecordAll(map[], id, cs), id) == cs
    decreases |cs|
  {
    if cs != [] {
      var init := cs[..|cs| - 1];
      assert RecordAll(map[], id, cs) == RecordAction(RecordAll(map[], id, init), id, cs[|cs| - 1]);
      RecordAllKeepsOrder(init, id);
      assert init + [cs[|cs| - 1]] == cs;
    }
  }

  /** Record the captures in order. */
  function RecordAll(h: History, id: PlayerId, cs: seq<Capture>): History
    decreases |cs|
  {
    if cs == [] then h else RecordAction(RecordAll(h, id, cs[..|cs| - 1]), id, cs[|cs| - 1])
  }
}
