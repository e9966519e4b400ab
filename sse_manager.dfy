/**
 * The server-side broadcast relay of src/lib/sseManager.ts: a table from
 * board id to the set of open event-stream controllers of that board.
 *
 * A controller is reduced to an opaque identity. What `enqueue` does on a
 * live stream is recorded in `queued` (the chunks each stream has accepted);
 * whether `enqueue` throws is supplied by the caller as the set of failing
 * controllers.
 */
module SseManager {
  import opened Wrappers
  import opened Inboxes

  type BoardId = string
  type ControllerId = nat
  type Table = map<BoardId, set<ControllerId>>

  /** The relay's table invariant: no board is ever mapped to an empty set. */
  ghost predicate NoEmptySets(t: Table) {
    forall b :: b in t ==> t[b] != {}
  }

  /** The controllers registered for `b`, empty when `b` has no entry. */
  function Members(t: Table, b: BoardId): set<ControllerId> {
    if b in t then t[b] else {}
  }

  /** The table after `addConnection(b, c)`. */
  function Added(t: Table, b: BoardId, c: ControllerId): (r: Table)
    ensures b in r && c in r[b]
    ensures Members(r, b) == Members(t, b) + {c}
    ensures |Members(r, b)| == |Members(t, b)| + (if c in Members(t, b) then 0 else 1)
    ensures forall b' :: b' != b ==> Members(r, b') == Members(t, b') && (b' in r <==> b' in t)
    ensures NoEmptySets(t) ==> NoEmptySets(r)
  {
    t[b := Members(t, b) + {c}]
  }

  /**
   * The table after the controllers in `gone` are removed from board `b`,
   * the entry of `b` being dropped once it is empty. One `removeConnection`
   * is the case of a single controller; a broadcast prunes its failures.
   */
  function Pruned(t: Table, b: BoardId, gone: set<ControllerId>): (r: Table)
    ensures Members(r, b) == Members(t, b) - gone
    ensures b in r <==> Members(t, b) - gone != {}
    ensures forall b' :: b' != b ==> Members(r, b') == Members(t, b') && (b' in r <==> b' in t)
    ensures NoEmptySets(t) ==> NoEmptySets(r)
  {
    if b !in t then t
    else
      var rest := t[b] - gone;
      if |rest| == 0 then t - {b} else t[b := rest]
  }

  /**
   * Removing controllers that are not registered for the board, an unknown
   * board included, leaves the whole table as it was.
   */
  lemma PrunedAbsent(t: Table, b: BoardId, gone: set<ControllerId>)
    requires NoEmptySets(t)
    requires Members(t, b) !! gone
    ensures Pruned(t, b, gone) == t
  {
    if b in t {
      assert t[b] - gone == t[b];
    }
  }

  /** Only the registered controllers among those pruned matter. */
  lemma PrunedRegistered(t: Table, b: BoardId, gone: set<ControllerId>)
    ensures Pruned(t, b, Members(t, b) * gone) == Pruned(t, b, gone)
  {
    assert Members(t, b) - Members(t, b) * gone == Members(t, b) - gone;
  }

  /** Pruning one more controller after a set of them is pruning their union. */
  lemma PrunedStep(t: Table, b: BoardId, gone: set<ControllerId>, c: ControllerId)
    ensures Pruned(Pruned(t, b, gone), b, {c}) == Pruned(t, b, gone + {c})
  {
    if b in t {
      var rest := t[b] - gone;
      assert rest - {c} == t[b] - (gone + {c});
      if |rest| != 0 {
        var p := t[b := rest];
        assert Pruned(p, b, {c}) == if |rest - {c}| == 0 then p - {b} else p[b := rest - {c}];
        assert p - {b} == t - {b};
        assert p[b := rest - {c}] == t[b := rest - {c}];
      } else {
        assert rest - {c} == {};
      }
    }
  }

  /** The frame of one Server-Sent Events message carrying `payload` as its data field. */
  function Frame(payload: string): string {
    "data: " + payload + "\n\n"
  }

  /**
   * The data field of a single-line event as an event-stream reader takes
   * it back out of a frame; `None` for anything that is not one such frame.
   */
  function FrameData(m: string): Option<string> {
    if |m| >= 8 && m[..6] == "data: " && m[|m| - 2..] == "\n\n" && '\n' !in m[6..|m| - 2]
    then Some(m[6..|m| - 2])
    else None
  }

  /**
   * A frame is read back as exactly the payload it was built from, and only
   * frames of payloads without a line feed are read back at all. JSON
   * serialisation never emits a raw line feed, so every payload the relay
   * sends comes back whole.
   */
  lemma FrameDataIff(m: string, p: string)
    ensures FrameData(m) == Some(p) <==> m == Frame(p) && '\n' !in p
  {
    if m == Frame(p) {
      assert m[..6] == "data: ";
      assert m[6..|m| - 2] == p;
      assert m[|m| - 2..] == "\n\n";
    }
    if FrameData(m) == Some(p) {
      assert m == m[..6] + m[6..|m| - 2] + m[|m| - 2..];
    }
  }

  /** Any one key of a non-empty table. */
  ghost function AnyBoard(t: Table): BoardId
    requires t != map[]
  {
    var b :| b in t; b
  }

  /** The number of open connections over all boards. */
  ghost function TotalSize(t: Table): nat
    decreases t.Keys
  {
    if t == map[] then 0
    else
      var b := AnyBoard(t);
      |t[b]| + TotalSize(t - {b})
  }

  /** The total may be split at any board, whichever board the definition picked. */
  lemma {:induction false} TotalSizeSplit(t: Table, b: BoardId)
    ensures TotalSize(t) == |Members(t, b)| + TotalSize(t - {b})
    decreases t.Keys
  {
    if b !in t {
      assert t - {b} == t;
    } else {
      var p := AnyBoard(t);
      if p != b {
        TotalSizeSplit(t - {p}, b);
        TotalSizeSplit(t - {b}, p);
        assert t - {p} - {b} == t - {b} - {p};
      }
    }
  }

  /** Replacing the set of one board changes the total by the difference of the sizes. */
  lemma TotalSizeUpdate(t: Table, b: BoardId, s: set<ControllerId>)
    ensures TotalSize(t[b := s]) + |Members(t, b)| == TotalSize(t) + |s|
  {
    TotalSizeSplit(t[b := s], b);
    TotalSizeSplit(t, b);
    assert t[b := s] - {b} == t - {b};
  }

  /** With no empty set stored, the total is zero exactly when the table is empty. */
  lemma TotalZeroIffEmpty(t: Table)
    requires NoEmptySets(t)
    ensures TotalSize(t) == 0 <==> t == map[]
  {
    if t != map[] {
      var b := AnyBoard(t);
      TotalSizeSplit(t, b);
    }
  }

  /** After `addConnection`, the total grows by one unless the controller was already there. */
  lemma TotalAfterAdd(t: Table, b: BoardId, c: ControllerId)
    ensures TotalSize(Added(t, b, c)) == TotalSize(t) + (if c in Members(t, b) then 0 else 1)
  {
    TotalSizeUpdate(t, b, Members(t, b) + {c});
  }

  /** Pruning removes from the total exactly the pruned controllers that were registered. */
  lemma TotalAfterPrune(t: Table, b: BoardId, gone: set<ControllerId>)
    ensures TotalSize(Pruned(t, b, gone)) + |Members(t, b) * gone| == TotalSize(t)
  {
    var m := Members(t, b);
    assert m == (m - gone) + (m * gone);
    assert |m| == |m - gone| + |m * gone|;
    if b in t {
      if |m - gone| == 0 {
        TotalSizeSplit(t, b);
      } else {
        TotalSizeUpdate(t, b, m - gone);
      }
    }
  }

  /** SSEConnectionManager. */
  class ConnectionManager {
    var connections: Table
    /** For every controller, the chunks its stream has accepted. */
    var queued: Inbox<ControllerId, string>

    ghost predicate Valid()
      reads this
    {
      NoEmptySets(connections)
    }

    constructor ()
      ensures Valid()
      ensures connections == map[] && queued == map[]
    {
      connections := map[];
      queued := map[];
    }

    method AddConnection(boardId: BoardId, controller: ControllerId)
      requires Valid()
      modifies this
      ensures Valid()
      ensures connections == Added(old(connections), boardId, controller)
      ensures queued == old(queued)
    {
      if boardId !in connections {
        connections := connections[boardId := {}];
      }
      connections := connections[boardId := connections[boardId] + {controller}];
    }

    method RemoveConnection(boardId: BoardId, controller: ControllerId)
      requires Valid()
      modifies this
      ensures Valid()
      ensures connections == Pruned(old(connections), boardId, {controller})
      ensures queued == old(queued)
    {
      if boardId in connections {
        var boardConnections := connections[boardId] - {controller};
        connections := connections[boardId := boardConnections];
        if |boardConnections| == 0 {
          connections := connections - {boardId};
        }
      }
    }

    /**
     * Sends one frame to every controller of the board. A controller in
     * `failing` throws on `enqueue`; the others accept the frame whatever
     * happened before them, and afterwards exactly the failing ones are
     * removed from the board.
     */
    method BroadcastToBoard(boardId: BoardId, payload: string, failing: set<ControllerId>)
      requires Valid()
      modifies this
      ensures Valid()
      ensures connections == Pruned(old(connections), boardId, failing)
      ensures queued == Appended(old(queued), Members(old(connections), boardId) - failing, Frame(payload))
    {
      if boardId !in connections {
        AppendedNone(queued, Frame(payload));
        return;
      }
      var boardConnections := connections[boardId];
      var message := Frame(payload);
      var failedConnections := EnqueueEach(boardConnections, message, failing);
      RemoveEach(boardId, failedConnections);
      assert Elements(failedConnections) == boardConnections * failing;
      PrunedRegistered(old(connections), boardId, failing);
    }

    /** The first loop of a broadcast: one `enqueue` per controller, failures collected. */
    method EnqueueEach(controllers: set<ControllerId>, message: string, failing: set<ControllerId>)
      returns (failedConnections: seq<ControllerId>)
      requires Valid()
      modifies this
      ensures Valid()
      ensures connections == old(connections)
      ensures queued == Appended(old(queued), controllers - failing, message)
      ensures forall x :: x in failedConnections <==> x in controllers && x in failing
    {
      failedConnections := [];
      var pending := controllers;
      while pending != {}
        invariant pending <= controllers
        invariant connections == old(connections)
        invariant forall x :: x in failedConnections <==> x in controllers - pending && x in failing
        invariant queued == Appended(old(queued), (controllers - pending) - failing, message)
        decreases pending
      {
        var controller :| controller in pending;
        if controller in failing {
          failedConnections := failedConnections + [controller];
        } else {
          AppendedStep(old(queued), (controllers - pending) - failing, controller, message);
          queued := queued[controller := Received(queued, controller) + [message]];
        }
        pending := pending - {controller};
        assert controllers - pending
            == (controllers - (pending + {controller})) + {controller};
      }
      assert controllers - pending == controllers;
    }

    /** The second loop of a broadcast: `removeConnection` for each failed controller. */
    method RemoveEach(boardId: BoardId, failedConnections: seq<ControllerId>)
      requires Valid()
      modifies this
      ensures Valid()
      ensures connections == Pruned(old(connections), boardId, Elements(failedConnections))
      ensures queued == old(queued)
    {
      ghost var gone: set<ControllerId> := {};
      PrunedAbsent(connections, boardId, gone);
      var i := 0;
      while i < |failedConnections|
        invariant 0 <= i <= |failedConnections|
        invariant forall x :: x in gone <==> x in failedConnections[..i]
        invariant Valid()
        invariant connections == Pruned(old(connections), boardId, gone)
        invariant queued == old(queued)
      {
        PrunedStep(old(connections), boardId, gone, failedConnections[i]);
        assert failedConnections[..i + 1] == failedConnections[..i] + [failedConnections[i]];
        RemoveConnection(boardId, failedConnections[i]);
        gone := gone + {failedConnections[i]};
        i := i + 1;
      }
      assert failedConnections[..i] == failedConnections;
      assert forall x :: x in gone <==> x in failedConnections;
      assert gone == Elements(failedConnections);
    }

    method GetConnectionCount(boardId: BoardId) returns (n: nat)
      ensures n == |Members(connections, boardId)|
      ensures n == 0 <==> boardId !in connections || connections[boardId] == {}
    {
      if boardId in connections {
        n := |connections[boardId]|;
      } else {
        n := 0;
      }
    }

    method GetTotalConnections() returns (total: nat)
      ensures total == TotalSize(connections)
    {
      total := 0;
      var rest := connections;
      while rest != map[]
        invariant total + TotalSize(rest) == TotalSize(connections)
        decreases rest.Keys
      {
        var boardId :| boardId in rest;
        TotalSizeSplit(rest, boardId);
        total := total + |rest[boardId]|;
        rest := rest - {boardId};
      }
    }
  }
}
