/**
 * The cross-tab shared board store of src/lib/sharedState.ts: boards with
 * flat card lists, kept as one value in one browser storage slot, with a
 * periodic check that tells subscribers when the stored value changed.
 *
 * The storage slot is the field `storage`, JSON serialisation is the
 * identity, and the clock and the random card id are method parameters.
 * The constant `inBrowser` stands for the presence of `window`.
 */
module SharedState {
  import opened Wrappers
  import opened Inboxes

  type ListenerId = nat

  const StorageKey := "kanban_shared_state"

  datatype Card = Card(
    id: string,
    title: string,
    description: string,
    columnId: string,
    boardId: string,
    position: int,
    updatedAt: string)

  datatype Board = Board(id: string, title: string, cards: seq<Card>, updatedAt: string)

  datatype SharedState = SharedState(boards: seq<Board>, updatedAt: string)

  /** `Partial<SharedCard>`: each present field overrides the card's own. */
  datatype CardPatch = CardPatch(
    id: Option<string>,
    title: Option<string>,
    description: Option<string>,
    columnId: Option<string>,
    boardId: Option<string>,
    position: Option<int>,
    updatedAt: Option<string>)

  /** `Omit<SharedCard, 'id' | 'updated_at'>`: what a caller supplies for a new card. */
  datatype CardFields = CardFields(
    title: string,
    description: string,
    columnId: string,
    boardId: string,
    position: int)

  function Or<T>(o: Option<T>, d: T): T {
    if o.Some? then o.value else d
  }

  const DefaultBoardId := "9ecd54bf-c4db-4766-97dd-c6758c0d2f04"

  /** The state seeded into an empty slot: one board with two sample cards. */
  function DefaultState(now: string): SharedState {
    SharedState(
      [Board(DefaultBoardId, "Project Alpha",
        [ Card("card-1", "Sample Card 1", "This is a sample card in the To Do column",
               "col-1", DefaultBoardId, 0, now),
          Card("card-2", "Sample Card 2", "This is a sample card in the In Progress column",
               "col-2", DefaultBoardId, 0, now) ],
        now)],
      now)
  }

  /** What is read when there is no `window`. */
  const EmptyState := SharedState([], "")

  /** `getSharedState`: the stored value, the seeded default for an empty slot. */
  function Loaded(slot: Option<SharedState>, inBrowser: bool, now: string): SharedState {
    if !inBrowser then EmptyState
    else if slot.None? then DefaultState(now)
    else slot.value
  }

  /** The slot after `getSharedState`: an empty slot in a browser has been seeded. */
  function AfterRead(slot: Option<SharedState>, inBrowser: bool, now: string): Option<SharedState> {
    if inBrowser && slot.None? then Some(DefaultState(now)) else slot
  }

  /** The slot after `saveSharedState(s)`, which writes only in a browser. */
  function Saved(slot: Option<SharedState>, inBrowser: bool, s: SharedState): Option<SharedState> {
    if inBrowser then Some(s) else slot
  }

  /**
   * Reading an empty slot in a browser seeds one board holding two cards and
   * stores it; reading again, at any later time, returns what was stored and
   * stores nothing new.
   */
  lemma ReadSeedsThenStable(slot: Option<SharedState>, inBrowser: bool, now1: string, now2: string)
    ensures inBrowser && slot.None? ==>
              && AfterRead(slot, inBrowser, now1) == Some(Loaded(slot, inBrowser, now1))
              && |Loaded(slot, inBrowser, now1).boards| == 1
              && |Loaded(slot, inBrowser, now1).boards[0].cards| == 2
    ensures Loaded(AfterRead(slot, inBrowser, now1), inBrowser, now2) == Loaded(slot, inBrowser, now1)
    ensures AfterRead(AfterRead(slot, inBrowser, now1), inBrowser, now2) == AfterRead(slot, inBrowser, now1)
  {
  }

  /** The index of the first board with the given id (`Array.prototype.find`). */
  function FirstBoard(boards: seq<Board>, id: string): (r: Option<nat>)
    ensures r.Some? ==> r.value < |boards| && boards[r.value].id == id
    ensures r.Some? ==> forall j :: 0 <= j < r.value ==> boards[j].id != id
    ensures r.None? <==> forall j :: 0 <= j < |boards| ==> boards[j].id != id
  {
    if |boards| == 0 then None
    else if boards[0].id == id then Some(0)
    else
      var rest := FirstBoard(boards[1..], id);
      if rest.None? then None else Some(rest.value + 1)
  }

  /** `getBoard`'s lookup: the first board with the id, or null. */
  function FindBoard(boards: seq<Board>, id: string): (r: Option<Board>)
    ensures r.Some? ==> r.value in boards && r.value.id == id
    ensures r.Some? ==>
              exists k :: 0 <= k < |boards| && r.value == boards[k]
                          && forall j :: 0 <= j < k ==> boards[j].id != id
    ensures r.None? <==> forall b :: b in boards ==> b.id != id
  {
    var k := FirstBoard(boards, id);
    if k.Some? then Some(boards[k.value]) else None
  }

  /** `Array.prototype.findIndex` over the cards by id: -1 when there is none. */
  function FindCardIndex(cards: seq<Card>, id: string): (r: int)
    ensures -1 <= r < |cards|
    ensures r >= 0 ==> cards[r].id == id && forall j :: 0 <= j < r ==> cards[j].id != id
    ensures r == -1 <==> forall j :: 0 <= j < |cards| ==> cards[j].id != id
  {
    if |cards| == 0 then -1
    else if cards[0].id == id then 0
    else
      var rest := FindCardIndex(cards[1..], id);
      if rest == -1 then -1 else rest + 1
  }

  /** `{...card, ...updates, updated_at: now}`. */
  function Patched(c: Card, p: CardPatch, now: string): Card {
    Card(Or(p.id, c.id), Or(p.title, c.title), Or(p.description, c.description),
         Or(p.columnId, c.columnId), Or(p.boardId, c.boardId), Or(p.position, c.position), now)
  }

  const NoChanges := CardPatch(None, None, None, None, None, None, None)

  /**
   * The fields of a patch override those of the card, except the timestamp,
   * which is always the new clock value: an empty patch only refreshes it,
   * and applying the same patch again changes nothing but the timestamp.
   */
  lemma PatchedOverrides(c: Card, p: CardPatch, now: string, later: string)
    ensures Patched(c, NoChanges, now) == c.(updatedAt := now)
    ensures Patched(c, p, now).updatedAt == now
    ensures p.id.None? ==> Patched(c, p, now).id == c.id
    ensures Patched(Patched(c, p, now), p, later) == Patched(c, p, later)
  {
  }

  /** One board after `updateCard`: its first card with the id is patched. */
  function UpdatedBoard(b: Board, cardId: string, p: CardPatch, now: string): Board {
    var k := FindCardIndex(b.cards, cardId);
    if k == -1 then b
    else b.(cards := b.cards[k := Patched(b.cards[k], p, now)], updatedAt := now)
  }

  /** The state `updateCard` saves: every board updated, the top-level timestamp bumped. */
  function UpdatedState(s: SharedState, cardId: string, p: CardPatch, now: string): SharedState {
    SharedState(seq(|s.boards|, i requires 0 <= i < |s.boards| => UpdatedBoard(s.boards[i], cardId, p, now)), now)
  }

  /**
   * `updateCard` keeps the number of boards and of cards in each, changes in
   * each board only the first card with the id (to the patched card), leaves
   * a board without such a card entirely alone, and always bumps the
   * top-level timestamp, even when no card matched.
   */
  lemma UpdatedStateEffect(s: SharedState, cardId: string, p: CardPatch, now: string, i: nat)
    requires i < |s.boards|
    ensures var r := UpdatedState(s, cardId, p, now);
            var old_b := s.boards[i];
            var k := FindCardIndex(old_b.cards, cardId);
            && r.updatedAt == now
            && |r.boards| == |s.boards|
            && r.boards[i].id == old_b.id && r.boards[i].title == old_b.title
            && |r.boards[i].cards| == |old_b.cards|
            && (k == -1 ==> r.boards[i] == old_b)
            && (k != -1 ==> r.boards[i].updatedAt == now && r.boards[i].cards[k] == Patched(old_b.cards[k], p, now))
            && (forall j :: 0 <= j < |old_b.cards| && j != k ==> r.boards[i].cards[j] == old_b.cards[j])
  {
  }

  /** The patched card is still the first with the id when the patch keeps the id. */
  lemma FindCardIndexAfterPatch(cards: seq<Card>, cardId: string, p: CardPatch, now: string)
    requires p.id.None? || p.id == Some(cardId)
    requires FindCardIndex(cards, cardId) != -1
    ensures var k := FindCardIndex(cards, cardId);
            FindCardIndex(cards[k := Patched(cards[k], p, now)], cardId) == k
  {
    var k := FindCardIndex(cards, cardId);
    var cs := cards[k := Patched(cards[k], p, now)];
    var r := FindCardIndex(cs, cardId);
    assert cs[k].id == cardId;
    assert forall j :: 0 <= j < k ==> cs[j].id != cardId;
  }

  /**
   * Applying the same update twice is applying it once at the later time,
   * as long as the update does not change the card's id.
   */
  lemma UpdatedStateTwice(s: SharedState, cardId: string, p: CardPatch, now1: string, now2: string)
    requires p.id.None? || p.id == Some(cardId)
    ensures UpdatedState(UpdatedState(s, cardId, p, now1), cardId, p, now2) == UpdatedState(s, cardId, p, now2)
  {
    var r1 := UpdatedState(s, cardId, p, now1);
    var r2 := UpdatedState(r1, cardId, p, now2);
    var r := UpdatedState(s, cardId, p, now2);
    forall i | 0 <= i < |s.boards|
      ensures r2.boards[i] == r.boards[i]
    {
      var b := s.boards[i];
      if FindCardIndex(b.cards, cardId) != -1 {
        FindCardIndexAfterPatch(b.cards, cardId, p, now1);
        PatchedOverrides(b.cards[FindCardIndex(b.cards, cardId)], p, now1, now2);
      }
    }
  }

  /** The card `createCard` makes from the caller's fields, a fresh id and the clock. */
  function NewCard(fields: CardFields, freshId: string, now: string): Card {
    Card(freshId, fields.title, fields.description, fields.columnId, fields.boardId, fields.position, now)
  }

  /** The state after `card` was pushed onto the cards of board `k`. */
  function WithCard(s: SharedState, k: nat, card: Card, now: string): SharedState
    requires k < |s.boards|
  {
    var b := s.boards[k];
    SharedState(s.boards[k := b.(cards := b.cards + [card], updatedAt := now)], now)
  }

  /**
   * `createCard` on an existing board adds exactly one card, at the end of
   * that board's list, and touches no other board. When the fresh id is not
   * already used on that board, `updateCard` then finds the new card.
   */
  lemma WithCardEffect(s: SharedState, boardId: string, fields: CardFields, freshId: string, now: string)
    requires FirstBoard(s.boards, boardId).Some?
    ensures var k := FirstBoard(s.boards, boardId).value;
            var card := NewCard(fields, freshId, now);
            var r := WithCard(s, k, card, now);
            && |r.boards| == |s.boards|
            && r.boards[k].cards == s.boards[k].cards + [card]
            && r.boards[k].id == boardId && r.updatedAt == now
            && (forall i :: 0 <= i < |s.boards| && i != k ==> r.boards[i] == s.boards[i])
            && FindBoard(r.boards, boardId) == Some(r.boards[k])
            && ((forall c :: c in s.boards[k].cards ==> c.id != freshId) ==>
                  FindCardIndex(r.boards[k].cards, freshId) == |s.boards[k].cards|)
  {
    var k := FirstBoard(s.boards, boardId).value;
    var card := NewCard(fields, freshId, now);
    var r := WithCard(s, k, card, now);
    assert forall j :: 0 <= j < k ==> r.boards[j].id != boardId;
    if forall c :: c in s.boards[k].cards ==> c.id != freshId {
      var cs := r.boards[k].cards;
      var n := |s.boards[k].cards|;
      assert forall j :: 0 <= j < n ==> cs[j] == s.boards[k].cards[j] && cs[j].id != freshId;
      assert cs[n].id == freshId;
    }
  }

  /** Whether a sync tick tells the listeners: the stored timestamp moved. */
  predicate TickNotifies(stored: SharedState, lastSyncTime: string) {
    stored.updatedAt != lastSyncTime
  }

  /**
   * A tick that has recorded the stored timestamp is followed, with no write
   * in between, by a tick that notifies nobody.
   */
  lemma SecondTickQuiet(slot: Option<SharedState>, inBrowser: bool, now1: string, now2: string)
    ensures var seen := Loaded(slot, inBrowser, now1).updatedAt;
            !TickNotifies(Loaded(AfterRead(slot, inBrowser, now1), inBrowser, now2), seen)
  {
    ReadSeedsThenStable(slot, inBrowser, now1, now2);
  }

  /** The index of the first listener that throws, or the number of listeners when none does. */
  function FirstThrowing(ls: seq<ListenerId>, throwing: set<ListenerId>): (k: nat)
    ensures k <= |ls|
    ensures forall j :: 0 <= j < k ==> ls[j] !in throwing
    ensures k < |ls| ==> ls[k] in throwing
  {
    if |ls| == 0 then 0
    else if ls[0] in throwing then 0
    else FirstThrowing(ls[1..], throwing) + 1
  }

  /**
   * How many listeners one `notifyListeners` calls: all of them in order,
   * up to and including the first that throws, whose exception ends the loop.
   */
  function CalledCount(ls: seq<ListenerId>, throwing: set<ListenerId>): nat {
    var k := FirstThrowing(ls, throwing);
    if k < |ls| then k + 1 else |ls|
  }

  /**
   * Every listener before the first that throws is called once, that
   * listener is called once too, and every listener after it not at all.
   */
  lemma NotifiedCalls(q: Inbox<ListenerId, ()>, ls: seq<ListenerId>, throwing: set<ListenerId>, i: nat)
    requires Distinct(ls) && i < |ls|
    ensures Received(Appended(q, Elements(ls[..CalledCount(ls, throwing)]), ()), ls[i])
            == Received(q, ls[i]) + (if i <= FirstThrowing(ls, throwing) then [()] else [])
  {
    var c := CalledCount(ls, throwing);
    AppendedReceived(q, Elements(ls[..c]), (), ls[i]);
    if i < c {
      assert ls[..c][i] == ls[i];
    } else {
      assert forall j :: 0 <= j < c ==> ls[..c][j] != ls[i];
    }
  }

  /** `Set.prototype.delete` on a listener set kept in insertion order. */
  function Without(ls: seq<ListenerId>, l: ListenerId): (r: seq<ListenerId>)
    ensures Elements(r) == Elements(ls) - {l}
    ensures Distinct(ls) ==> Distinct(r)
    ensures l !in ls ==> r == ls
  {
    if |ls| == 0 then []
    else
      var rest := Without(ls[1..], l);
      assert ls == [ls[0]] + ls[1..];
      assert Elements(ls) == {ls[0]} + Elements(ls[1..]);
      if ls[0] == l then rest
      else
        var r := [ls[0]] + rest;
        assert Elements(r) == {ls[0]} + Elements(rest);
        assert ls[0] !in Elements(ls[1..]) ==> ls[0] !in Elements(rest);
        r
  }

  /** SharedStateManager. */
  class SharedStateManager {
    /** The storage slot under `StorageKey`. */
    var storage: Option<SharedState>
    /** The listener set, in insertion order. */
    var listeners: seq<ListenerId>
    var lastSyncTime: string
    /** Whether the periodic sync is running. */
    var syncing: bool
    const inBrowser: bool
    /** For every listener, one entry per call it received. */
    var notified: Inbox<ListenerId, ()>

    ghost predicate Valid()
      reads this
    {
      Distinct(listeners)
    }

    /** `slot` is what the storage slot held when the manager was made. */
    constructor (slot: Option<SharedState>, inBrowser: bool)
      ensures Valid()
      ensures storage == slot && listeners == [] && lastSyncTime == ""
      ensures syncing == inBrowser && this.inBrowser == inBrowser && notified == map[]
    {
      storage := slot;
      listeners := [];
      lastSyncTime := "";
      syncing := inBrowser;
      this.inBrowser := inBrowser;
      notified := map[];
    }

    /**
     * The handler of the window's `storage` event, registered only when
     * there is a window; `key` is null when the storage was cleared. The
     * listeners in `throwing` throw; `threw` says the exception left the handler.
     */
    method HandleStorageChange(key: Option<string>, throwing: set<ListenerId>) returns (threw: bool)
      requires inBrowser && Valid()
      modifies this`notified
      ensures threw == (key == Some(StorageKey) && FirstThrowing(listeners, throwing) < |listeners|)
      ensures notified == if key == Some(StorageKey)
                          then Appended(old(notified), Elements(listeners[..CalledCount(listeners, throwing)]), ())
                          else old(notified)
    {
      threw := false;
      if key == Some(StorageKey) {
        threw := NotifyListeners(throwing);
      }
    }

    /**
     * One run of the interval callback. The stored timestamp is recorded
     * before the listeners are called, so it stays recorded when one throws.
     */
    method SyncTick(now: string, throwing: set<ListenerId>) returns (changed: bool, threw: bool)
      requires syncing && Valid()
      modifies this`storage, this`lastSyncTime, this`notified
      ensures storage == AfterRead(old(storage), inBrowser, now)
      ensures changed == TickNotifies(Loaded(old(storage), inBrowser, now), old(lastSyncTime))
      ensures lastSyncTime == Loaded(old(storage), inBrowser, now).updatedAt
      ensures threw == (changed && FirstThrowing(listeners, throwing) < |listeners|)
      ensures notified == if changed
                          then Appended(old(notified), Elements(listeners[..CalledCount(listeners, throwing)]), ())
                          else old(notified)
    {
      threw := false;
      var state := GetSharedState(now);
      changed := state.updatedAt != lastSyncTime;
      if changed {
        lastSyncTime := state.updatedAt;
        threw := NotifyListeners(throwing);
      }
    }

    /**
     * Calls the listeners in insertion order. Nothing catches an exception
     * here: the first listener in `throwing` ends the loop, and `threw` says so.
     */
    method NotifyListeners(throwing: set<ListenerId>) returns (threw: bool)
      requires Valid()
      modifies this`notified
      ensures threw == (FirstThrowing(listeners, throwing) < |listeners|)
      ensures notified == Appended(old(notified), Elements(listeners[..CalledCount(listeners, throwing)]), ())
    {
      threw := false;
      var ls := listeners;
      var i := 0;
      while i < |ls|
        invariant 0 <= i <= |ls|
        invariant forall j :: 0 <= j < i ==> ls[j] !in throwing
        invariant notified == Appended(old(notified), Elements(ls[..i]), ())
      {
        var listener := ls[i];
        ElementsPrefixStep(ls, i);
        AppendedStep(old(notified), Elements(ls[..i]), listener, ());
        notified := notified[listener := Received(notified, listener) + [()]];
        if listener in throwing {
          threw := true;
          return;
        }
        i := i + 1;
      }
      assert ls[..i] == ls;
    }

    /** `Set.prototype.add`: a listener already there keeps its place. */
    method Subscribe(listener: ListenerId)
      requires Valid()
      modifies this`listeners
      ensures Valid()
      ensures listeners == if listener in old(listeners) then old(listeners) else old(listeners) + [listener]
    {
      if listener !in listeners {
        listeners := listeners + [listener];
      }
    }

    /** The unsubscribe function `subscribe` returns; it answers whether the listener was there. */
    method Unsubscribe(listener: ListenerId) returns (removed: bool)
      requires Valid()
      modifies this`listeners
      ensures Valid()
      ensures removed == (listener in old(listeners))
      ensures listeners == Without(old(listeners), listener)
    {
      removed := listener in listeners;
      listeners := Without(listeners, listener);
    }

    method GetSharedState(now: string) returns (state: SharedState)
      modifies this`storage
      ensures state == Loaded(old(storage), inBrowser, now)
      ensures storage == AfterRead(old(storage), inBrowser, now)
    {
      if !inBrowser {
        return EmptyState;
      }
      if storage.None? {
        state := DefaultState(now);
        storage := Some(state);
        return;
      }
      state := storage.value;
    }

    method SaveSharedState(state: SharedState)
      modifies this`storage
      ensures storage == Saved(old(storage), inBrowser, state)
    {
      if inBrowser {
        storage := Some(state);
      }
    }

    method GetBoard(boardId: string, now: string) returns (board: Option<Board>)
      modifies this`storage
      ensures board == FindBoard(Loaded(old(storage), inBrowser, now).boards, boardId)
      ensures storage == AfterRead(old(storage), inBrowser, now)
    {
      var state := GetSharedState(now);
      board := FindBoard(state.boards, boardId);
    }

    method GetBoards(now: string) returns (boards: seq<Board>)
      modifies this`storage
      ensures boards == Loaded(old(storage), inBrowser, now).boards
      ensures storage == AfterRead(old(storage), inBrowser, now)
    {
      var state := GetSharedState(now);
      boards := state.boards;
    }

    method UpdateCard(cardId: string, updates: CardPatch, now: string)
      modifies this`storage
      ensures storage == Saved(AfterRead(old(storage), inBrowser, now), inBrowser,
                               UpdatedState(Loaded(old(storage), inBrowser, now), cardId, updates, now))
    {
      var state := GetSharedState(now);
      var boards := state.boards;
      var i := 0;
      while i < |boards|
        invariant 0 <= i <= |boards| == |state.boards|
        invariant forall j :: 0 <= j < i ==> boards[j] == UpdatedBoard(state.boards[j], cardId, updates, now)
        invariant forall j :: i <= j < |boards| ==> boards[j] == state.boards[j]
      {
        var board := boards[i];
        var cardIndex := FindCardIndex(board.cards, cardId);
        if cardIndex != -1 {
          board := board.(cards := board.cards[cardIndex := Patched(board.cards[cardIndex], updates, now)],
                          updatedAt := now);
          boards := boards[i := board];
        }
        i := i + 1;
      }
      var updated := SharedState(boards, now);
      assert updated == UpdatedState(state, cardId, updates, now);
      SaveSharedState(updated);
    }

    method CreateCard(boardId: string, card: CardFields, freshId: string, now: string)
      returns (created: Option<Card>)
      modifies this`storage
      ensures var s := Loaded(old(storage), inBrowser, now);
              var k := FirstBoard(s.boards, boardId);
              && (k.None? ==> created.None? && storage == AfterRead(old(storage), inBrowser, now))
              && (k.Some? ==>
                    && created == Some(NewCard(card, freshId, now))
                    && storage == Saved(AfterRead(old(storage), inBrowser, now), inBrowser,
                                        WithCard(s, k.value, created.value, now)))
    {
      var state := GetSharedState(now);
      var k := FirstBoard(state.boards, boardId);
      if k.Some? {
        var newCard := NewCard(card, freshId, now);
        var board := state.boards[k.value];
        board := board.(cards := board.cards + [newCard], updatedAt := now);
        state := SharedState(state.boards[k.value := board], now);
        SaveSharedState(state);
        return Some(newCard);
      }
      return None;
    }

    /** Stops the periodic sync. */
    method Cleanup()
      modifies this`syncing
      ensures !syncing
    {
      syncing := false;
    }
  }
}
