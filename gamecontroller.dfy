/**
 * The session controller: spawning a wave of NPCs into the store,
 * restarting (reset, then a new wave), and restarting on a key press
 * once the game is over.
 *
 * Fresh ids and random draws are inputs: one `SpawnRoll` per NPC.
 */
module GameController {
  import opened Types
  import opened Store
  import Npc
  import Player

  /** How many NPCs one wave registers. */
  const NPC_COUNT: nat := 20

  /** The fresh id and the three random draws in [0, 1) used for one NPC. */
  datatype SpawnRoll = SpawnRoll(id: string, typeDraw: real, xDraw: real, zDraw: real)

  predicate ValidRoll(roll: SpawnRoll)
  {
    0.0 <= roll.typeDraw < 1.0 && 0.0 <= roll.xDraw < 1.0 && 0.0 <= roll.zDraw < 1.0
  }

  predicate ValidRolls(rolls: seq<SpawnRoll>)
  {
    forall i :: 0 <= i < |rolls| ==> ValidRoll(rolls[i])
  }

  predicate DistinctIds(rolls: seq<SpawnRoll>)
  {
    forall i, j :: 0 <= i < j < |rolls| ==> rolls[i].id != rolls[j].id
  }

  /**
   * A spawn point drawn in the 80 x 80 square around the centre, pushed
   * 10 to the east when it falls in the central 10 x 10 box.
   */
  function SpawnPosition(xDraw: real, zDraw: real): (p: Vec3)
    requires 0.0 <= xDraw < 1.0 && 0.0 <= zDraw < 1.0
    ensures p.y == 0.0
    ensures !(Abs(p.x) < 5.0 && Abs(p.z) < 5.0)
    ensures -40.0 <= p.z < 40.0
    ensures -40.0 <= p.x < 40.0 || 5.0 < p.x < 15.0
  {
    var x := (xDraw - 0.5) * 80.0;
    var z := (zDraw - 0.5) * 80.0;
    var x' := if Abs(x) < 5.0 && Abs(z) < 5.0 then x + 10.0 else x;
    Vec3(x', 0.0, z)
  }

  /** The record registered for one roll: a fresh IDLE NPC of a random type. */
  function SpawnRecord(roll: SpawnRoll): (d: NpcData)
    requires ValidRoll(roll)
    ensures d.id == roll.id && d.state == Idle
    ensures d.npcType == Good <==> roll.typeDraw > 0.5
    ensures d.npcType == Hypocrite <==> roll.typeDraw <= 0.5
    ensures d.position.y == 0.0 && !(Abs(d.position.x) < 5.0 && Abs(d.position.z) < 5.0)
    ensures -40.0 <= d.position.z < 40.0
    ensures -40.0 <= d.position.x < 40.0 || 5.0 < d.position.x < 15.0
  {
    var npcType := if roll.typeDraw > 0.5 then Good else Hypocrite;
    NpcData(roll.id, npcType, Idle, SpawnPosition(roll.xDraw, roll.zDraw))
  }

  /** The registry after registering the records of `rolls` in order. */
  function Registered(npcs: map<string, NpcData>, rolls: seq<SpawnRoll>): (r: map<string, NpcData>)
    requires ValidRolls(rolls)
    // a wave only adds: every registered id stays, and every rolled id is registered
    ensures forall k :: k in npcs ==> k in r
    ensures forall i :: 0 <= i < |rolls| ==> rolls[i].id in r
    // the last roll's record is the one kept under its id
    ensures rolls != [] ==> r[rolls[|rolls| - 1].id] == SpawnRecord(rolls[|rolls| - 1])
    decreases |rolls|
  {
    if rolls == [] then npcs
    else
      var last := rolls[|rolls| - 1];
      Registered(npcs, rolls[..|rolls| - 1])[last.id := SpawnRecord(last)]
  }

  /** A record that a spawn would register: fresh, IDLE, keyed by its own id, off the centre. */
  predicate FreshSpawn(id: string, d: NpcData)
  {
    && d.id == id && d.state == Idle && d.position.y == 0.0
    && !(Abs(d.position.x) < 5.0 && Abs(d.position.z) < 5.0)
  }

  /** The ids a wave registers. */
  function WaveIds(rolls: seq<SpawnRoll>): set<string>
  {
    set i | 0 <= i < |rolls| :: rolls[i].id
  }

  lemma WaveIdsSnoc(rolls: seq<SpawnRoll>)
    requires rolls != []
    ensures WaveIds(rolls) == WaveIds(rolls[..|rolls| - 1]) + {rolls[|rolls| - 1].id}
  {
    var init := rolls[..|rolls| - 1];
    forall k | k in WaveIds(rolls)
      ensures k in WaveIds(init) + {rolls[|rolls| - 1].id}
    {
      var i :| 0 <= i < |rolls| && rolls[i].id == k;
      if i < |init| {
        assert init[i].id == k;
      }
    }
    forall k | k in WaveIds(init)
      ensures k in WaveIds(rolls)
    {
      var i :| 0 <= i < |init| && init[i].id == k;
      assert rolls[i].id == k;
    }
  }

  /** A wave adds exactly the rolled ids to the registry. */
  lemma {:induction false} RegisteredKeys(npcs: map<string, NpcData>, rolls: seq<SpawnRoll>)
    requires ValidRolls(rolls)
    ensures Registered(npcs, rolls).Keys == npcs.Keys + WaveIds(rolls)
    decreases |rolls|
  {
    if rolls != [] {
      RegisteredKeys(npcs, rolls[..|rolls| - 1]);
      WaveIdsSnoc(rolls);
    }
  }

  /** Every entry a wave writes is a fresh spawn keyed by its own id. */
  lemma {:induction false} RegisteredFresh(npcs: map<string, NpcData>, rolls: seq<SpawnRoll>)
    requires ValidRolls(rolls)
    ensures forall k :: k in WaveIds(rolls) ==>
      k in Registered(npcs, rolls) && FreshSpawn(k, Registered(npcs, rolls)[k])
    decreases |rolls|
  {
    if rolls != [] {
      var init := rolls[..|rolls| - 1];
      RegisteredFresh(npcs, init);
      WaveIdsSnoc(rolls);
    }
  }

  /** A wave leaves every entry whose id it does not roll as it was. */
  lemma {:induction false} RegisteredKeepsOthers(npcs: map<string, NpcData>, rolls: seq<SpawnRoll>)
    requires ValidRolls(rolls)
    ensures forall k :: k in npcs && k !in WaveIds(rolls) ==>
      k in Registered(npcs, rolls) && Registered(npcs, rolls)[k] == npcs[k]
    decreases |rolls|
  {
    if rolls != [] {
      RegisteredKeepsOthers(npcs, rolls[..|rolls| - 1]);
      WaveIdsSnoc(rolls);
    }
  }

  /** Distinct ids: a wave of n rolls registers n ids. */
  lemma {:induction false} WaveSize(rolls: seq<SpawnRoll>)
    ensures DistinctIds(rolls) ==> |WaveIds(rolls)| == |rolls|
    decreases |rolls|
  {
    if rolls != [] && DistinctIds(rolls) {
      var init := rolls[..|rolls| - 1];
      var last := rolls[|rolls| - 1];
      assert DistinctIds(init);
      WaveSize(init);
      WaveIdsSnoc(rolls);
      assert last.id !in WaveIds(init) by {
        forall i | 0 <= i < |init|
          ensures init[i].id != last.id
        {
          assert init[i] == rolls[i];
        }
      }
    }
  }

  /** The store after a restart: a reset followed by a fresh wave. */
  function Restarted(s: StoreState, rolls: seq<SpawnRoll>): (r: StoreState)
    requires ValidRolls(rolls)
    ensures r.coins == 0 && !r.gameOver && r.npcRefs == {}
    ensures r.gameStarted == s.gameStarted && r.hasPlayerRef == s.hasPlayerRef
    ensures r.npcs.Keys == WaveIds(rolls)
    ensures forall k :: k in r.npcs ==> FreshSpawn(k, r.npcs[k])
    ensures DistinctIds(rolls) ==> |r.npcs| == |rolls|
  {
    RegisteredKeys(map[], rolls);
    RegisteredFresh(map[], rolls);
    WaveSize(rolls);
    AfterResetGame(s).(npcs := Registered(map[], rolls))
  }

  /** One pass of the spawn loop registers the next roll's record. */
  lemma SpawnStep(npcs: map<string, NpcData>, rolls: seq<SpawnRoll>, i: nat, data: NpcData)
    requires i < |rolls| && ValidRolls(rolls) && data == SpawnRecord(rolls[i])
    ensures Registered(npcs, rolls[..i])[rolls[i].id := data] == Registered(npcs, rolls[..i + 1])
  {
    assert rolls[..i + 1][..i] == rolls[..i];
  }

  /** spawnWave: registers NPC_COUNT fresh NPCs, one per roll, in order. */
  method SpawnWave(store: GameStore, rolls: seq<SpawnRoll>)
    requires |rolls| == NPC_COUNT && ValidRolls(rolls)
    modifies store
    ensures store.State() == old(store.State()).(npcs := Registered(old(store.npcs), rolls))
  {
    for i := 0 to NPC_COUNT
      invariant store.State() == old(store.State()).(npcs := Registered(old(store.npcs), rolls[..i]))
    {
      var roll := rolls[i];
      var npcType := if roll.typeDraw > 0.5 then Good else Hypocrite;
      var x := (roll.xDraw - 0.5) * 80.0;
      var z := (roll.zDraw - 0.5) * 80.0;
      if Abs(x) < 5.0 && Abs(z) < 5.0 {
        x := x + 10.0;
      }
      var data := NpcData(roll.id, npcType, Idle, Vec3(x, 0.0, z));
      SpawnStep(old(store.npcs), rolls, i, data);
      store.RegisterNpc(roll.id, data);
    }
    assert rolls[..NPC_COUNT] == rolls;
  }

  /** handleRestart: reset the store, then spawn a new wave. */
  method HandleRestart(store: GameStore, rolls: seq<SpawnRoll>)
    requires |rolls| == NPC_COUNT && ValidRolls(rolls)
    modifies store
    ensures store.State() == Restarted(old(store.State()), rolls)
  {
    store.ResetGame();
    SpawnWave(store, rolls);
  }

  /** The key handler: any key restarts, but only once the game is over. */
  method OnKeyDown(store: GameStore, rolls: seq<SpawnRoll>)
    requires |rolls| == NPC_COUNT && ValidRolls(rolls)
    modifies store
    ensures old(store.gameOver) ==> store.State() == Restarted(old(store.State()), rolls)
    ensures !old(store.gameOver) ==> store.State() == old(store.State())
  {
    if store.gameOver {
      HandleRestart(store, rolls);
    }
  }

  /**
   * Scanning then collecting: an IDLE good NPC with a handle, within the
   * scan distance and passing the angle test, is revealed as good; when
   * the player then comes within interaction distance of it, the player
   * gains one coin and the NPC leaves the registry.
   */
  lemma ScanThenCollect(s: StoreState, id: string, positions: map<string, Vec3>, origin: Vec3,
                        angleTest: Vec3 -> bool, npcPos: Vec3, playerPos: Vec3)
    requires !s.gameOver && s.hasPlayerRef
    requires id in s.npcs && id in s.npcRefs && s.npcs[id].id == id
    requires s.npcs[id].npcType == Good && s.npcs[id].state == Idle
    requires Player.InScan(id, s.npcs, s.npcRefs, positions, origin, angleTest)
    requires Npc.InRange(npcPos, playerPos)
    ensures var (_, scanned) := Player.Scan(false, s, positions, origin, angleTest);
      && scanned.npcs[id].state == ScannedGood
      && var after := Npc.Interact(scanned, scanned.npcs[id], npcPos, playerPos);
      && after.coins == s.coins + 1
      && id !in after.npcs && id !in after.npcRefs
  {
  }
}
