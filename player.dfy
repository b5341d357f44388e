/**
 * The player: per-frame movement that is committed only when the new
 * position is free of buildings, and the scan that reveals the IDLE
 * NPCs in front of the player.
 *
 * The movement direction (key state composed into a local vector,
 * normalised and turned by the camera's yaw) and the cone's angle test
 * are computed by the rendering library; both are inputs here.
 */
module Player {
  import opened Types
  import opened Collision
  import opened Store

  /** The player's collision test: the building footprints only, with no city edge. */
  method CheckCollision(position: Vec3, buildings: seq<BuildingData>) returns (hit: bool)
    ensures hit <==> HitsBuilding(position, buildings)
  {
    for i := 0 to |buildings|
      invariant forall j :: 0 <= j < i ==> !InsideFootprint(position, buildings[j])
    {
      var b := buildings[i];
      var minX := b.position.x - b.size.x / 2.0 - BODY_RADIUS;
      var maxX := b.position.x + b.size.x / 2.0 + BODY_RADIUS;
      var minZ := b.position.z - b.size.z / 2.0 - BODY_RADIUS;
      var maxZ := b.position.z + b.size.z / 2.0 + BODY_RADIUS;
      if position.x > minX && position.x < maxX && position.z > minZ && position.z < maxZ {
        return true;
      }
    }
    return false;
  }

  /**
   * Where the player is after a frame: `moveDir` is the unit world-space
   * direction of the held keys (zero when none is held).
   */
  function Move(pos: Vec3, moveDir: Vec3, delta: real, gameOver: bool,
                buildings: seq<BuildingData>): (r: Vec3)
    ensures gameOver ==> r == pos
    ensures r != pos ==> !HitsBuilding(r, buildings)
    ensures !gameOver ==>
      var proposed := Add(pos, Scale(moveDir, PLAYER_SPEED * delta));
      r == if HitsBuilding(proposed, buildings) then pos else proposed
  {
    if gameOver then pos
    else
      var proposed := Add(pos, Scale(moveDir, PLAYER_SPEED * delta));
      if HitsBuilding(proposed, buildings) then pos else proposed
  }

  /** The vector from the player to a target, with the height difference dropped. */
  function PlanarOffset(origin: Vec3, target: Vec3): (v: Vec3)
    ensures v.y == 0.0
  {
    Sub(target, origin).(y := 0.0)
  }

  /** The state a scan reveals for an NPC of the given type. */
  function Revealed(t: NpcType): (st: NpcState)
    ensures st != Idle
    ensures st == ScannedGood <==> t == Good
    ensures st == ScannedBad <==> t == Hypocrite
  {
    match t
    case Good => ScannedGood
    case Hypocrite => ScannedBad
  }

  /**
   * The NPC `id` is caught by the scan: it has a mesh handle and a
   * registry record, lies strictly within the scan distance on the
   * ground plane, and passes the cone's angle test.
   */
  predicate InScan(id: string, npcs: map<string, NpcData>, refs: set<string>,
                   positions: map<string, Vec3>, origin: Vec3, angleTest: Vec3 -> bool)
  {
    && id in refs && id in npcs && id in positions
    && LengthSquared(PlanarOffset(origin, positions[id])) < SCAN_DISTANCE * SCAN_DISTANCE
    && angleTest(PlanarOffset(origin, positions[id]))
  }

  /** The registry after the NPCs with handles in `refs` have been tested and revealed. */
  function ScanResult(npcs: map<string, NpcData>, refs: set<string>, positions: map<string, Vec3>,
                      origin: Vec3, angleTest: Vec3 -> bool): (r: map<string, NpcData>)
    ensures r.Keys == npcs.Keys
    // a scan never changes an NPC's id, type or position
    ensures forall id :: id in npcs ==>
      r[id].id == npcs[id].id && r[id].npcType == npcs[id].npcType && r[id].position == npcs[id].position
    // an NPC already revealed is immune to scanning
    ensures forall id :: id in npcs && npcs[id].state != Idle ==> r[id] == npcs[id]
    // out of reach, or without a handle: never revealed
    ensures forall id :: id in npcs && !InScan(id, npcs, refs, positions, origin, angleTest) ==> r[id] == npcs[id]
    // an IDLE NPC in reach is revealed according to its type
    ensures forall id :: id in npcs && npcs[id].state == Idle && InScan(id, npcs, refs, positions, origin, angleTest) ==>
      r[id].state == Revealed(npcs[id].npcType)
  {
    map id | id in npcs ::
      if InScan(id, npcs, refs, positions, origin, angleTest) && npcs[id].state == Idle
      then npcs[id].(state := Revealed(npcs[id].npcType))
      else npcs[id]
  }

  /** Testing one more handle changes at most that NPC's entry. */
  lemma ScanOneMore(npcs: map<string, NpcData>, done: set<string>, id: string, positions: map<string, Vec3>,
                    origin: Vec3, angleTest: Vec3 -> bool)
    requires id !in done
    ensures var before := ScanResult(npcs, done, positions, origin, angleTest);
      && (id in npcs ==> before[id] == npcs[id])
      && ScanResult(npcs, done + {id}, positions, origin, angleTest)
         == if InScan(id, npcs, done + {id}, positions, origin, angleTest) && npcs[id].state == Idle
            then before[id := npcs[id].(state := Revealed(npcs[id].npcType))]
            else before
  {
    var before := ScanResult(npcs, done, positions, origin, angleTest);
    var after := ScanResult(npcs, done + {id}, positions, origin, angleTest);
    forall k | k in npcs && k != id
      ensures after[k] == before[k]
    {
      assert InScan(k, npcs, done + {id}, positions, origin, angleTest) == InScan(k, npcs, done, positions, origin, angleTest);
    }
  }

  /** Scanning again reveals nothing new. */
  lemma ScanIdempotent(npcs: map<string, NpcData>, refs: set<string>, positions: map<string, Vec3>,
                       origin: Vec3, angleTest: Vec3 -> bool)
    ensures var once := ScanResult(npcs, refs, positions, origin, angleTest);
      ScanResult(once, refs, positions, origin, angleTest) == once
  {
    var once := ScanResult(npcs, refs, positions, origin, angleTest);
    var twice := ScanResult(once, refs, positions, origin, angleTest);
    forall id | id in once
      ensures twice[id] == once[id]
    {
      if once[id].state == Idle {
        assert once[id] == npcs[id];
        assert !InScan(id, npcs, refs, positions, origin, angleTest);
        assert !InScan(id, once, refs, positions, origin, angleTest);
      }
    }
  }

  /** A scan press: ignored while a scan is showing or once the game is over. */
  function Scan(isScanning: bool, s: StoreState, positions: map<string, Vec3>,
                origin: Vec3, angleTest: Vec3 -> bool): (r: (bool, StoreState))
    ensures isScanning || s.gameOver ==> r == (isScanning, s)
    ensures !isScanning && !s.gameOver ==>
      r.0 && r.1 == s.(npcs := ScanResult(s.npcs, s.npcRefs, positions, origin, angleTest))
  {
    if isScanning || s.gameOver then (isScanning, s)
    else (true, s.(npcs := ScanResult(s.npcs, s.npcRefs, positions, origin, angleTest)))
  }

  /** A second press straight after the first changes nothing. */
  lemma SecondScanIsNoOp(isScanning: bool, s: StoreState, positions: map<string, Vec3>,
                         origin: Vec3, angleTest: Vec3 -> bool,
                         positions2: map<string, Vec3>, origin2: Vec3, angleTest2: Vec3 -> bool)
    ensures var first := Scan(isScanning, s, positions, origin, angleTest);
      Scan(first.0, first.1, positions2, origin2, angleTest2) == first
  {
  }

  // ---------------------------------------------------------------------
  // The scan key as written. The key listener is subscribed again only
  // when the game-over flag or the registry object is replaced between
  // renders; the scan handler it holds reads the scanning flag, the
  // game-over flag and the registry of the render that subscribed it. The
  // handle map is filled in place by registerNpcRef, so the handler sees
  // every handle registered so far, and the reveals go to the current
  // store.

  /** What the subscribed key listener captured from its render. */
  datatype Listener = Listener(isScanning: bool, gameOver: bool, npcs: map<string, NpcData>)

  /** The listener a render subscribes: the flags and the registry of the current state. */
  function Subscribed(isScanning: bool, s: StoreState): Listener
  {
    Listener(isScanning, s.gameOver, s.npcs)
  }

  /**
   * After a render the listener is subscribed again only when the
   * game-over flag or the registry changed; a new handle id alone does
   * not re-subscribe it.
   */
  function AfterRender(l: Listener, isScanning: bool, s: StoreState): (r: Listener)
    ensures l.gameOver == s.gameOver && l.npcs == s.npcs ==> r == l
    ensures r.gameOver == s.gameOver && r.npcs == s.npcs
    ensures r.isScanning != isScanning ==> r == l
  {
    if l.gameOver == s.gameOver && l.npcs == s.npcs then l
    else Subscribed(isScanning, s)
  }

  /**
   * The registry after a scan run by a listener: the captured registry
   * and the shared handle ids decide who is caught and how it is
   * revealed, and each reveal updates the current registry.
   */
  function CapturedScanResult(l: Listener, npcs: map<string, NpcData>, refs: set<string>,
                              positions: map<string, Vec3>, origin: Vec3, angleTest: Vec3 -> bool): (r: map<string, NpcData>)
    ensures r.Keys == npcs.Keys
    ensures l.npcs == npcs ==> r == ScanResult(npcs, refs, positions, origin, angleTest)
  {
    map id | id in npcs ::
      if InScan(id, l.npcs, refs, positions, origin, angleTest) && l.npcs[id].state == Idle
      then npcs[id].(state := Revealed(l.npcs[id].npcType))
      else npcs[id]
  }

  /** A scan press handled by the listener as written: the gate reads the captured flags. */
  function PressAsWritten(l: Listener, isScanning: bool, s: StoreState, positions: map<string, Vec3>,
                          origin: Vec3, angleTest: Vec3 -> bool): (r: (bool, StoreState))
    ensures l.isScanning || l.gameOver ==> r == (isScanning, s)
    ensures !l.isScanning && !l.gameOver ==>
      r.0 && r.1 == s.(npcs := CapturedScanResult(l, s.npcs, s.npcRefs, positions, origin, angleTest))
  {
    if l.isScanning || l.gameOver then (isScanning, s)
    else (true, s.(npcs := CapturedScanResult(l, s.npcs, s.npcRefs, positions, origin, angleTest)))
  }

  /** With a listener subscribed from the current state, the press as written is the scan. */
  lemma FreshListenerScans(isScanning: bool, s: StoreState, positions: map<string, Vec3>,
                           origin: Vec3, angleTest: Vec3 -> bool)
    ensures PressAsWritten(Subscribed(isScanning, s), isScanning, s, positions, origin, angleTest)
            == Scan(isScanning, s, positions, origin, angleTest)
  {
  }

  /**
   * Handles registered after the listener was subscribed: registerNpcRef
   * re-subscribes nothing, yet the press sees the new handle and scans as
   * the current state would.
   */
  lemma ListenerSeesLaterHandles(isScanning: bool, s: StoreState, id: string, positions: map<string, Vec3>,
                                 origin: Vec3, angleTest: Vec3 -> bool)
    ensures var s1 := AfterRegisterNpcRef(s, id);
      var l := AfterRender(Subscribed(isScanning, s), isScanning, s1);
      && l == Subscribed(isScanning, s)
      && PressAsWritten(l, isScanning, s1, positions, origin, angleTest) == Scan(isScanning, s1, positions, origin, angleTest)
  {
  }

  /**
   * The scan key goes dead, when the press's flag and its reveals reach
   * the same render: the reveal changes the registry, so the listener is
   * subscribed again while the scanning flag is set; when the timer clears
   * the flag no dependency changes, so the listener keeps the set flag and
   * every later press is ignored, although the current flag would let a
   * scan run.
   */
  lemma ScanKeyGoesDead(s: StoreState, id: string, positions: map<string, Vec3>, origin: Vec3, angleTest: Vec3 -> bool,
                        positions2: map<string, Vec3>, origin2: Vec3, angleTest2: Vec3 -> bool)
    requires !s.gameOver
    requires id in s.npcs && s.npcs[id].state == Idle && InScan(id, s.npcs, s.npcRefs, positions, origin, angleTest)
    ensures var l0 := Subscribed(false, s);
      var (flag1, s1) := PressAsWritten(l0, false, s, positions, origin, angleTest);
      var l1 := AfterRender(l0, flag1, s1);
      var l2 := AfterRender(l1, false, s1);
      && flag1 && s1.npcs[id].state != Idle
      && l2.isScanning && !s1.gameOver
      && PressAsWritten(l2, false, s1, positions2, origin2, angleTest2) == (false, s1)
      && Scan(false, s1, positions2, origin2, angleTest2).0
  {
    var l0 := Subscribed(false, s);
    var (flag1, s1) := PressAsWritten(l0, false, s, positions, origin, angleTest);
    assert s1.npcs[id].state != Idle;
    assert s1.npcs != s.npcs;
  }

  /**
   * A press that reveals nothing changes no dependency, so the listener
   * keeps its clear flag: a second press within the 300 ms is a full scan
   * with the new aim and positions, where the current flag would ignore it.
   */
  lemma QuickSecondPressScansAgain(s: StoreState, positions: map<string, Vec3>, origin: Vec3, angleTest: Vec3 -> bool,
                                   positions2: map<string, Vec3>, origin2: Vec3, angleTest2: Vec3 -> bool)
    requires !s.gameOver
    requires ScanResult(s.npcs, s.npcRefs, positions, origin, angleTest) == s.npcs
    ensures var l0 := Subscribed(false, s);
      var (flag1, s1) := PressAsWritten(l0, false, s, positions, origin, angleTest);
      var l1 := AfterRender(l0, flag1, s1);
      && flag1 && s1 == s && l1 == l0
      && PressAsWritten(l1, true, s1, positions2, origin2, angleTest2)
         == (true, s.(npcs := ScanResult(s.npcs, s.npcRefs, positions2, origin2, angleTest2)))
      && Scan(true, s1, positions2, origin2, angleTest2) == (true, s1)
  {
  }

  /**
   * The other order: when the store's reveal is rendered before the
   * press's flag, the listener is subscribed again with the flag still
   * clear, so a press while the scan is showing runs again instead of
   * being ignored.
   */
  lemma StoreRenderFirstSkipsGate(s: StoreState, id: string, positions: map<string, Vec3>, origin: Vec3, angleTest: Vec3 -> bool,
                                  positions2: map<string, Vec3>, origin2: Vec3, angleTest2: Vec3 -> bool)
    requires !s.gameOver
    requires id in s.npcs && s.npcs[id].state == Idle && InScan(id, s.npcs, s.npcRefs, positions, origin, angleTest)
    ensures var l0 := Subscribed(false, s);
      var (flag1, s1) := PressAsWritten(l0, false, s, positions, origin, angleTest);
      var l1 := AfterRender(l0, false, s1);
      && flag1 && !l1.isScanning
      && PressAsWritten(l1, true, s1, positions2, origin2, angleTest2).0
      && PressAsWritten(l1, true, s1, positions2, origin2, angleTest2).1
         == s1.(npcs := ScanResult(s1.npcs, s1.npcRefs, positions2, origin2, angleTest2))
      && Scan(true, s1, positions2, origin2, angleTest2) == (true, s1)
  {
    var l0 := Subscribed(false, s);
    var (flag1, s1) := PressAsWritten(l0, false, s, positions, origin, angleTest);
    assert s1.npcs[id].state != Idle;
    assert s1.npcs != s.npcs;
  }

  /** The player component: its group's position and the scan-in-progress flag. */
  class Controller {
    var pos: Vec3
    var isScanning: bool

    /** Mounting: the player starts at the origin, not scanning. */
    constructor ()
      ensures pos == Vec3(0.0, 0.0, 0.0) && !isScanning
    {
      pos, isScanning := Vec3(0.0, 0.0, 0.0), false;
    }

    /** The frame callback: move unless the game is over or the new position is blocked. */
    method Tick(store: GameStore, moveDir: Vec3, delta: real, buildings: seq<BuildingData>)
      modifies this`pos
      ensures pos == Move(old(pos), moveDir, delta, store.gameOver, buildings)
    {
      if store.gameOver {
        return;
      }
      var speed := PLAYER_SPEED * delta;
      var newPos := Add(pos, Scale(moveDir, speed));
      var blocked := CheckCollision(newPos, buildings);
      if !blocked {
        pos := newPos;
      }
    }

    /**
     * The scan key handler. `positions` gives the current position of
     * each NPC mesh; `angleTest` says whether a planar offset lies within
     * half the scan angle of the camera's flattened forward direction.
     */
    method HandleScan(store: GameStore, positions: map<string, Vec3>, angleTest: Vec3 -> bool)
      modifies this`isScanning, store
      ensures (isScanning, store.State()) == Scan(old(isScanning), old(store.State()), positions, pos, angleTest)
    {
      if isScanning || store.gameOver {
        return;
      }
      isScanning := true;

      var npcs := store.npcs;
      var refs := store.npcRefs;
      var remaining := refs;
      assert ScanResult(npcs, refs - remaining, positions, pos, angleTest) == npcs;
      while remaining != {}
        invariant isScanning && remaining <= refs
        invariant store.State() == old(store.State()).(npcs := ScanResult(npcs, refs - remaining, positions, pos, angleTest))
        decreases remaining
      {
        var id :| id in remaining;
        ghost var done := refs - remaining;
        ScanOneMore(npcs, done, id, positions, pos, angleTest);
        if id in npcs && id in positions {
          var toNpc := PlanarOffset(pos, positions[id]);
          if LengthSquared(toNpc) < SCAN_DISTANCE * SCAN_DISTANCE && angleTest(toNpc) {
            if npcs[id].state == Idle {
              store.UpdateNpcState(id, Revealed(npcs[id].npcType));
            }
          }
        }
        remaining := remaining - {id};
        assert refs - remaining == done + {id};
      }
      assert refs - remaining == refs;
    }

    /** The timer callback that ends the scan's display, 300 ms after a scan. */
    method EndScan()
      modifies this`isScanning
      ensures !isScanning
    {
      isScanning := false;
    }
  }
}
