/**
 * The shared game store: the coin counter, the game-over and
 * game-started flags, the id -> NPC registry, the ids that have a live
 * mesh handle, and whether the player's handle is set.
 *
 * Each action is specified by a pure transition on a snapshot of the
 * store (`StoreState`); the class `GameStore` holds the fields and its
 * methods replace them as the actions do.
 */
module Store {
  import opened Types

  datatype StoreState = StoreState(
    coins: nat,
    gameOver: bool,
    gameStarted: bool,
    npcs: map<string, NpcData>,
    npcRefs: set<string>,
    hasPlayerRef: bool)

  /** The store as created: nothing registered, no coins, not started. */
  function Initial(): (s: StoreState)
    ensures s.coins == 0 && !s.gameOver && !s.gameStarted
    ensures s.npcs == map[] && s.npcRefs == {} && !s.hasPlayerRef
  {
    StoreState(0, false, false, map[], {}, false)
  }

  /** addCoin: one more coin, nothing else changes. */
  function AfterAddCoin(s: StoreState): (r: StoreState)
    ensures r.coins == s.coins + 1
    ensures r.(coins := s.coins) == s
  {
    s.(coins := s.coins + 1)
  }

  /** removeCoin: one coin fewer, but the counter stops at zero. */
  function AfterRemoveCoin(s: StoreState): (r: StoreState)
    ensures s.coins > 0 ==> r.coins == s.coins - 1
    ensures s.coins == 0 ==> r.coins == 0
    ensures r.(coins := s.coins) == s
  {
    var c := s.coins - 1;
    s.(coins := if 0 > c then 0 else c)
  }

  /** setGameOver: the flag takes the given value, nothing else changes. */
  function AfterSetGameOver(s: StoreState, status: bool): (r: StoreState)
    ensures r.gameOver == status
    ensures r.(gameOver := s.gameOver) == s
  {
    s.(gameOver := status)
  }

  /** startGame: started, not over, no coins; the registry is kept. */
  function AfterStartGame(s: StoreState): (r: StoreState)
    ensures r.gameStarted && !r.gameOver && r.coins == 0
    ensures r.npcs == s.npcs && r.npcRefs == s.npcRefs && r.hasPlayerRef == s.hasPlayerRef
  {
    s.(gameStarted := true, gameOver := false, coins := 0)
  }

  /** resetGame: clears coins, the game-over flag and both registries. */
  function AfterResetGame(s: StoreState): (r: StoreState)
    ensures r.coins == 0 && !r.gameOver && r.npcs == map[] && r.npcRefs == {}
    ensures r.gameStarted == s.gameStarted && r.hasPlayerRef == s.hasPlayerRef
  {
    s.(coins := 0, gameOver := false, npcs := map[], npcRefs := {})
  }

  /** registerNpc: inserts the record, overwriting one already under `id`. */
  function AfterRegisterNpc(s: StoreState, id: string, data: NpcData): (r: StoreState)
    ensures id in r.npcs && r.npcs[id] == data
    ensures r.npcs.Keys == s.npcs.Keys + {id}
    ensures forall k :: k in s.npcs && k != id ==> r.npcs[k] == s.npcs[k]
    ensures r.(npcs := s.npcs) == s
  {
    s.(npcs := s.npcs[id := data])
  }

  /** registerNpcRef, reduced to recording that `id` now has a mesh handle. */
  function AfterRegisterNpcRef(s: StoreState, id: string): (r: StoreState)
    ensures r.npcRefs == s.npcRefs + {id}
    ensures r.(npcRefs := s.npcRefs) == s
  {
    s.(npcRefs := s.npcRefs + {id})
  }

  /**
   * updateNpcState, as corrected: on a registered id only the `state`
   * field is rewritten; on an absent id nothing happens.
   */
  function AfterUpdateNpcState(s: StoreState, id: string, newState: NpcState): (r: StoreState)
    ensures r.npcs.Keys == s.npcs.Keys
    ensures id in s.npcs ==> r.npcs[id] == s.npcs[id].(state := newState)
    ensures id in s.npcs ==>
      && r.npcs[id].id == s.npcs[id].id && r.npcs[id].npcType == s.npcs[id].npcType
      && r.npcs[id].position == s.npcs[id].position && r.npcs[id].state == newState
    ensures forall k :: k in s.npcs && k != id ==> r.npcs[k] == s.npcs[k]
    ensures id !in s.npcs ==> r == s
    ensures r.(npcs := s.npcs) == s
  {
    if id in s.npcs then s.(npcs := s.npcs[id := s.npcs[id].(state := newState)]) else s
  }

  /** removeNpc: drops `id` from the registry and from the handle ids. */
  function AfterRemoveNpc(s: StoreState, id: string): (r: StoreState)
    ensures r.npcs.Keys == s.npcs.Keys - {id} && r.npcRefs == s.npcRefs - {id}
    ensures forall k :: k in r.npcs ==> r.npcs[k] == s.npcs[k]
    ensures r.(npcs := s.npcs, npcRefs := s.npcRefs) == s
  {
    s.(npcs := s.npcs - {id}, npcRefs := s.npcRefs - {id})
  }

  /** setPlayerRef, reduced to recording that the player's handle is set. */
  function AfterSetPlayerRef(s: StoreState): (r: StoreState)
    ensures r.hasPlayerRef && r.(hasPlayerRef := s.hasPlayerRef) == s
  {
    s.(hasPlayerRef := true)
  }

  /** Removing twice is the same as removing once. */
  lemma RemoveNpcIdempotent(s: StoreState, id: string)
    ensures AfterRemoveNpc(AfterRemoveNpc(s, id), id) == AfterRemoveNpc(s, id)
  {
  }

  /** Removing an id that is not there changes nothing. */
  lemma RemoveAbsentNpc(s: StoreState, id: string)
    requires id !in s.npcs && id !in s.npcRefs
    ensures AfterRemoveNpc(s, id) == s
  {
    assert s.npcs - {id} == s.npcs;
  }

  /** The two coin actions, as the NPC interactions issue them. */
  datatype CoinOp = AddCoin | RemoveCoin

  /** The store after applying the coin actions in order. */
  function ApplyCoinOps(s: StoreState, ops: seq<CoinOp>): StoreState
    decreases |ops|
  {
    if ops == [] then s
    else
      var t := if ops[0] == AddCoin then AfterAddCoin(s) else AfterRemoveCoin(s);
      ApplyCoinOps(t, ops[1..])
  }

  function Occurrences(ops: seq<CoinOp>, op: CoinOp): nat
    decreases |ops|
  {
    if ops == [] then 0 else (if ops[0] == op then 1 else 0) + Occurrences(ops[1..], op)
  }

  /**
   * Any sequence of coin actions keeps the counter between
   * start + adds - removes (the floor only ever helps) and start + adds,
   * and touches no other field.
   */
  lemma {:induction false} CoinOpsBounds(s: StoreState, ops: seq<CoinOp>)
    ensures var r := ApplyCoinOps(s, ops);
      && s.coins + Occurrences(ops, AddCoin) - Occurrences(ops, RemoveCoin) <= r.coins
      && r.coins <= s.coins + Occurrences(ops, AddCoin)
      && r.(coins := s.coins) == s
    decreases |ops|
  {
    if ops != [] {
      var t := if ops[0] == AddCoin then AfterAddCoin(s) else AfterRemoveCoin(s);
      CoinOpsBounds(t, ops[1..]);
    }
  }

  /**
   * Only removals: the counter drops by one per action until it reaches
   * zero and then stays there.
   */
  lemma {:induction false} RemoveCoinsFloorAtZero(s: StoreState, ops: seq<CoinOp>)
    requires forall i :: 0 <= i < |ops| ==> ops[i] == RemoveCoin
    ensures ApplyCoinOps(s, ops).coins == if s.coins >= |ops| then s.coins - |ops| else 0
    decreases |ops|
  {
    if ops != [] {
      RemoveCoinsFloorAtZero(AfterRemoveCoin(s), ops[1..]);
    }
  }

  /**
   * The mutable store. Each method replaces the fields as the
   * corresponding action does.
   */
  class GameStore {
    var coins: nat
    var gameOver: bool
    var gameStarted: bool
    var npcs: map<string, NpcData>
    var npcRefs: set<string>
    var hasPlayerRef: bool

    function State(): StoreState
      reads this
    {
      StoreState(coins, gameOver, gameStarted, npcs, npcRefs, hasPlayerRef)
    }

    constructor ()
      ensures State() == Initial()
    {
      coins, gameOver, gameStarted := 0, false, false;
      npcs, npcRefs, hasPlayerRef := map[], {}, false;
    }

    method AddCoin()
      modifies this
      ensures State() == AfterAddCoin(old(State()))
    {
      coins := coins + 1;
    }

    method RemoveCoin()
      modifies this
      ensures State() == AfterRemoveCoin(old(State()))
    {
      coins := if 0 > coins - 1 then 0 else coins - 1;
    }

    method SetGameOver(status: bool)
      modifies this
      ensures State() == AfterSetGameOver(old(State()), status)
    {
      gameOver := status;
    }

    method StartGame()
      modifies this
      ensures State() == AfterStartGame(old(State()))
    {
      gameStarted, gameOver, coins := true, false, 0;
    }

    method ResetGame()
      modifies this
      ensures State() == AfterResetGame(old(State()))
    {
      coins, gameOver, npcs, npcRefs := 0, false, map[], {};
    }

    method RegisterNpc(id: string, data: NpcData)
      modifies this
      ensures State() == AfterRegisterNpc(old(State()), id, data)
    {
      npcs := npcs[id := data];
    }

    method RegisterNpcRef(id: string)
      modifies this
      ensures State() == AfterRegisterNpcRef(old(State()), id)
    {
      npcRefs := npcRefs + {id};
    }

    method UpdateNpcState(id: string, newState: NpcState)
      modifies this
      ensures State() == AfterUpdateNpcState(old(State()), id, newState)
    {
      if id in npcs {
        npcs := npcs[id := npcs[id].(state := newState)];
      }
    }

    method RemoveNpc(id: string)
      modifies this
      ensures State() == AfterRemoveNpc(old(State()), id)
    {
      npcs := npcs - {id};
      npcRefs := npcRefs - {id};
    }

    method SetPlayerRef()
      modifies this
      ensures State() == AfterSetPlayerRef(old(State()))
    {
      hasPlayerRef := true;
    }
  }

  // ---------------------------------------------------------------------
  // updateNpcState as written. The source spreads the old entry and sets
  // `state`; on an absent id the spread is of `undefined`, so the registry
  // gains an entry that has a state and nothing else.

  /** A registry entry as the script holds it: any field may be missing. */
  datatype LooseNpc = LooseNpc(id: Option<string>, npcType: Option<NpcType>,
                               state: Option<NpcState>, position: Option<Vec3>)

  function Loosen(d: NpcData): LooseNpc
  {
    LooseNpc(Some(d.id), Some(d.npcType), Some(d.state), Some(d.position))
  }

  function LoosenAll(npcs: map<string, NpcData>): map<string, LooseNpc>
  {
    map k | k in npcs :: Loosen(npcs[k])
  }

  /** `{ ...npcs, [id]: { ...npcs[id], state } }`, absent ids included. */
  function UpdateNpcStateAsWritten(npcs: map<string, LooseNpc>, id: string, newState: NpcState): (r: map<string, LooseNpc>)
    ensures r.Keys == npcs.Keys + {id}
    ensures r[id].state == Some(newState)
    ensures id in npcs ==> r[id] == npcs[id].(state := Some(newState))
    // every other entry is kept as it was
    ensures forall k :: k in npcs && k != id ==> r[k] == npcs[k]
  {
    var entry := if id in npcs then npcs[id] else LooseNpc(None, None, None, None);
    npcs[id := entry.(state := Some(newState))]
  }

  /** On a registered id the code as written and the corrected action agree. */
  lemma AsWrittenAgreesWhenPresent(s: StoreState, id: string, newState: NpcState)
    requires id in s.npcs
    ensures UpdateNpcStateAsWritten(LoosenAll(s.npcs), id, newState)
            == LoosenAll(AfterUpdateNpcState(s, id, newState).npcs)
  {
  }

  /**
   * On an absent id the code as written registers a record with no id,
   * type or position, where the corrected action changes nothing.
   */
  lemma AsWrittenInsertsPartialRecord(s: StoreState, id: string, newState: NpcState)
    requires id !in s.npcs
    ensures var r := UpdateNpcStateAsWritten(LoosenAll(s.npcs), id, newState);
      id in r && r[id] == LooseNpc(None, None, Some(newState), None)
    ensures id !in AfterUpdateNpcState(s, id, newState).npcs
  {
  }
}
