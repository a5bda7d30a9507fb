/**
 * The session coordinator: generations that mark results of an earlier branch as stale, and the
 * registry of consumed source entries.
 */
module Coordinator {
  import opened Common

  /** `stash` holds the entries of a navigation that has not happened yet. */
  datatype Coord = Coord(
    generation: nat,
    sessionId: Option<string>,
    branchId: Option<string>,
    consumed: seq<string>,
    stash: seq<string>,
    active: bool,
    lastTree: Option<(Option<string>, Option<string>)>)

  const NewCoord: Coord := Coord(0, None, None, [], [], false, None)

  /** Commit once: ids already in the registry stay where they are. */
  function MarkConsumed(consumed: seq<string>, ids: seq<string>): (after: seq<string>)
    ensures forall id :: id in after <==> id in consumed || id in ids
    decreases |ids|
  {
    if ids == [] then consumed
    else
      var init, id := ids[..|ids| - 1], ids[|ids| - 1];
      var before := MarkConsumed(consumed, init);
      assert ids == init + [id];
      if id in before then before else before + [id]
  }

  function Mint(c: Coord, session: Option<string>, leaf: Option<string>): Coord {
    c.(generation := c.generation + 1, sessionId := session, branchId := leaf)
  }

  /** A start that follows a shutdown, or another session's, is a new generation. */
  function SessionStart(c: Coord, session: Option<string>, leaf: Option<string>): Coord {
    var started := if !c.active || session != c.sessionId then Mint(c, session, leaf)
                   else c.(sessionId := session, branchId := leaf);
    started.(active := true)
  }

  /** Cancellable: nothing is consumed yet. */
  function BeforeTree(c: Coord, ids: seq<string>, aborted: bool): Coord {
    if aborted then c else c.(stash := ids)
  }

  function Tree(c: Coord, session: Option<string>, oldLeaf: Option<string>, newLeaf: Option<string>, leaf: Option<string>): Coord {
    if !c.active then SessionStart(c, session, leaf)
    else
      var duplicate := c.lastTree == Some((oldLeaf, newLeaf));
      var committed := c.(lastTree := Some((oldLeaf, newLeaf)), consumed := MarkConsumed(c.consumed, c.stash), stash := []);
      if !duplicate && oldLeaf != newLeaf then Mint(committed, session, newLeaf) else committed
  }

  function Shutdown(c: Coord): Coord {
    c.(stash := [], active := false)
  }

  /** After a crash only the durable part is left. */
  function Reloaded(c: Coord): Coord {
    Coord(c.generation, c.sessionId, c.branchId, c.consumed, [], false, None)
  }

  class SessionCoordinator {
    var generation: nat
    var sessionId: Option<string>
    var branchId: Option<string>
    var consumed: seq<string>
    var stash: seq<string>
    var active: bool
    var lastTree: Option<(Option<string>, Option<string>)>

    ghost function Value(): Coord
      reads this
    {
      Coord(generation, sessionId, branchId, consumed, stash, active, lastTree)
    }

    constructor ()
      ensures Value() == NewCoord
    {
      generation, sessionId, branchId, consumed, stash, active, lastTree := 0, None, None, [], [], false, None;
    }

    method Consume(ids: seq<string>)
      modifies this`consumed
      ensures consumed == MarkConsumed(old(consumed), ids)
    {
      for i := 0 to |ids|
        invariant consumed == MarkConsumed(old(consumed), ids[..i])
      {
        assert ids[..i + 1][..i] == ids[..i];
        if ids[i] !in consumed { consumed := consumed + [ids[i]]; }
      }
      assert ids[..|ids|] == ids;
    }

    method NewGeneration(session: Option<string>, leaf: Option<string>)
      modifies this
      ensures Value() == Mint(old(Value()), session, leaf)
    {
      generation := generation + 1;
      sessionId := session;
      branchId := leaf;
    }

    method OnSessionStart(session: Option<string>, leaf: Option<string>)
      modifies this
      ensures Value() == SessionStart(old(Value()), session, leaf)
    {
      if !active || session != sessionId {
        NewGeneration(session, leaf);
      } else {
        sessionId := session;
        branchId := leaf;
      }
      active := true;
    }

    method OnBeforeTree(ids: seq<string>, aborted: bool)
      modifies this
      ensures Value() == BeforeTree(old(Value()), ids, aborted)
    {
      if aborted { return; }
      stash := ids;
    }

    method OnTree(session: Option<string>, oldLeaf: Option<string>, newLeaf: Option<string>, leaf: Option<string>)
      modifies this
      ensures Value() == Tree(old(Value()), session, oldLeaf, newLeaf, leaf)
    {
      if !active {
        OnSessionStart(session, leaf);
        return;
      }
      var duplicate := lastTree == Some((oldLeaf, newLeaf));
      lastTree := Some((oldLeaf, newLeaf));
      if |stash| > 0 {
        Consume(stash);
        stash := [];
      }
      if !duplicate && oldLeaf != newLeaf {
        NewGeneration(session, newLeaf);
      }
    }

    method OnShutdown()
      modifies this
      ensures Value() == Shutdown(old(Value()))
    {
      stash := [];
      active := false;
    }
  }
}
