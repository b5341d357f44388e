/**
 * One NPC's per-frame update: the wandering / standing / chasing
 * behaviour chosen by its reveal state, then the interaction with the
 * player (collect, pay the toll, or lose).
 *
 * Vector normalisation is done by the rendering library, so the
 * normalised direction towards the player and the re-rolled wander
 * direction are inputs, and so is the random draw for the next
 * direction change.
 */
module Npc {
  import opened Types
  import opened Collision
  import opened Store

  /** Half the width of the playable square: beyond it an NPC may not go. */
  const CITY_EDGE: real := 50.0

  predicate OutsideCity(p: Vec3)
  {
    Abs(p.x) > CITY_EDGE || Abs(p.z) > CITY_EDGE
  }

  /** What the NPC collision test answers: a building is hit or the point is past the edge. */
  predicate Blocked(p: Vec3, buildings: seq<BuildingData>)
  {
    HitsBuilding(p, buildings) || OutsideCity(p)
  }

  /** The NPC collision test: scan the buildings, return on the first hit, then check the edge. */
  method CheckCollision(position: Vec3, buildings: seq<BuildingData>) returns (hit: bool)
    ensures hit <==> Blocked(position, buildings)
  {
    for i := 0 to |buildings|
      invariant forall j :: 0 <= j < i ==> !InsideFootprint(position, buildings[j])
    {
      var b := buildings[i];
      var minX := b.position.x - b.size.x / 2.0 - BODY_RADIUS;
      var maxX := b.position.x + b.size.x / 2.0 + BODY_RADIUS;
      var minZ := b.position.z - b.size.z / 2.0 - BODY_RADIUS;
      var maxZ := b.position.z + b.size.z / 2.0 + BODY_RADIUS;
      if position.x > minX && position.x < maxX && position.z > minZ && position.z < maxZ {
        return true;
      }
    }
    if Abs(position.x) > CITY_EDGE || Abs(position.z) > CITY_EDGE {
      return true;
    }
    return false;
  }

  /** The edge is strict too: a point at exactly |x| = 50 or |z| = 50 is inside the city. */
  lemma CityEdgeIsInside(p: Vec3)
    requires Abs(p.x) <= CITY_EDGE && Abs(p.z) <= CITY_EDGE
    ensures !OutsideCity(p)
  {
  }

  /** The NPC's own mutable state: where it is, where it wanders, and when it turns next. */
  datatype Wander = Wander(pos: Vec3, direction: Vec3, timer: real)

  /** The player is within interaction distance (squared distance against 1.2 squared). */
  predicate InRange(npcPos: Vec3, playerPos: Vec3)
  {
    LengthSquared(Sub(npcPos, playerPos)) < INTERACTION_DISTANCE * INTERACTION_DISTANCE
  }

  /** The next wander interval for a random draw in [0, 1). */
  function NextInterval(draw: real): (t: real)
    requires 0.0 <= draw < 1.0
    ensures 1.0 <= t < 3.0
  {
    draw * 2.0 + 1.0
  }

  /**
   * The chase direction: the offset from the NPC to the player, scaled by
   * `invDist`, the reciprocal of its length that normalisation divides by
   * (zero for a zero offset), with the height component then dropped.
   */
  function ChaseDirection(pos: Vec3, playerPos: Vec3, invDist: real): Vec3
  {
    Scale(Sub(playerPos, pos), invDist).(y := 0.0)
  }

  /** Squared distance on the ground plane. */
  function PlanarDistanceSquared(a: Vec3, b: Vec3): real
  {
    (a.x - b.x) * (a.x - b.x) + (a.z - b.z) * (a.z - b.z)
  }

  /**
   * A chase step runs along the ground towards the player: the step is
   * the planar offset to the player times c = invDist * speed * delta >= 0,
   * and while the step is no longer than that offset (c <= 1) the NPC
   * ends no farther from the player than it started.
   */
  lemma ChaseStepsTowardPlayer(pos: Vec3, playerPos: Vec3, invDist: real, delta: real)
    requires 0.0 <= invDist && 0.0 <= delta
    ensures var next := Add(pos, Scale(ChaseDirection(pos, playerPos, invDist), NPC_SPEED_CHASE * delta));
      var c := invDist * (NPC_SPEED_CHASE * delta);
      && 0.0 <= c
      && next.y == pos.y
      && next.x - pos.x == c * (playerPos.x - pos.x)
      && next.z - pos.z == c * (playerPos.z - pos.z)
      && (c <= 1.0 ==> PlanarDistanceSquared(next, playerPos) <= PlanarDistanceSquared(pos, playerPos))
  {
    var next := Add(pos, Scale(ChaseDirection(pos, playerPos, invDist), NPC_SPEED_CHASE * delta));
    var c := invDist * (NPC_SPEED_CHASE * delta);
    assert 0.0 <= c;
    var dx, dz := pos.x - playerPos.x, pos.z - playerPos.z;
    assert next.x - playerPos.x == (1.0 - c) * dx;
    assert next.z - playerPos.z == (1.0 - c) * dz;
    if c <= 1.0 {
      var e := 1.0 - c;
      ProductNonNegative(e, 1.0 - e);
      assert PlanarDistanceSquared(next, playerPos) == (e * e) * (dx * dx + dz * dz);
      ProductNonNegative(1.0 - e * e, dx * dx + dz * dz);
    }
  }

  lemma ProductNonNegative(a: real, b: real)
    requires 0.0 <= a && 0.0 <= b
    ensures 0.0 <= a * b
  {
  }

  /**
   * The behaviour step. `hasPlayer` says the store holds the player's
   * handle and `playerPos` is the player's position; `invDist` is the
   * reciprocal of the distance to the player that normalisation divides
   * by, so never negative; `delta` is the frame's elapsed time; `rerollDir` and
   * `draw` are the random direction and the random draw used when the
   * timer runs out.
   */
  function Behave(w: Wander, state: NpcState, delta: real, hasPlayer: bool,
                  playerPos: Vec3, invDist: real, rerollDir: Vec3, draw: real,
                  buildings: seq<BuildingData>): (r: Wander)
    requires 0.0 <= draw < 1.0 && 0.0 <= invDist && 0.0 <= delta
    // a revealed good NPC stands still
    ensures state == ScannedGood ==> r == w
    // only wanderers touch the direction or the timer
    ensures state != Idle ==> r.direction == w.direction && r.timer == w.timer
    // the position only ever changes to a position that is not blocked
    ensures r.pos != w.pos ==> !Blocked(r.pos, buildings)
    // a chaser takes its step towards the player exactly when the player is there and the step is free
    ensures state == ScannedBad ==>
      var step := Add(w.pos, Scale(ChaseDirection(w.pos, playerPos, invDist), NPC_SPEED_CHASE * delta));
      r.pos == if hasPlayer && !Blocked(step, buildings) then step else w.pos
    // the wander timer counts down and is re-rolled into [1, 3) once it runs out
    ensures state == Idle && w.timer - delta > 0.0 ==> r.timer == w.timer - delta
    ensures state == Idle && w.timer - delta <= 0.0 ==> r.timer == NextInterval(draw) && 1.0 <= r.timer < 3.0
    // a wanderer either takes its step or stays and turns round
    ensures state == Idle ==>
      var dir := if w.timer - delta <= 0.0 then rerollDir else w.direction;
      var proposed := Add(w.pos, Scale(dir, NPC_SPEED_IDLE * delta));
      if Blocked(proposed, buildings) then r.pos == w.pos && r.direction == Negate(dir)
      else r.pos == proposed && r.direction == dir
  {
    match state
    case ScannedGood => w
    case ScannedBad =>
      if hasPlayer then
        var proposed := Add(w.pos, Scale(ChaseDirection(w.pos, playerPos, invDist), NPC_SPEED_CHASE * delta));
        if !Blocked(proposed, buildings) then w.(pos := proposed) else w
      else w
    case Idle =>
      var t := w.timer - delta;
      var (dir, timer) := if t <= 0.0 then (rerollDir, NextInterval(draw)) else (w.direction, t);
      var proposed := Add(w.pos, Scale(dir, NPC_SPEED_IDLE * delta));
      if !Blocked(proposed, buildings) then Wander(proposed, dir, timer)
      else Wander(w.pos, Negate(dir), timer)
  }

  /** What the interaction step does, decided by the state, the distance and the coins. */
  datatype Outcome = NoContact | Collected | TollPaid | Caught

  function Contact(state: NpcState, hasPlayer: bool, inRange: bool, coins: nat): (o: Outcome)
    ensures o == Collected <==> hasPlayer && inRange && state == ScannedGood
    ensures o == TollPaid <==> hasPlayer && inRange && state == ScannedBad && coins > 0
    ensures o == Caught <==> hasPlayer && inRange && state == ScannedBad && coins == 0
    ensures state == Idle ==> o == NoContact
  {
    if !hasPlayer || !inRange then NoContact
    else match state
      case Idle => NoContact
      case ScannedGood => Collected
      case ScannedBad => if coins > 0 then TollPaid else Caught
  }

  /** The store after the interaction step of the NPC `data` standing at `npcPos`. */
  function Interact(s: StoreState, data: NpcData, npcPos: Vec3, playerPos: Vec3): (r: StoreState)
    ensures data.state == Idle ==> r == s
    ensures !s.hasPlayerRef || !InRange(npcPos, playerPos) ==> r == s
    ensures s.hasPlayerRef && InRange(npcPos, playerPos) && data.state == ScannedGood ==>
      r.coins == s.coins + 1 && r.gameOver == s.gameOver && data.id !in r.npcs && r.npcRefs == s.npcRefs - {data.id}
    ensures s.hasPlayerRef && InRange(npcPos, playerPos) && data.state == ScannedBad && s.coins > 0 ==>
      r.coins == s.coins - 1 && r.gameOver == s.gameOver && data.id !in r.npcs && r.npcRefs == s.npcRefs - {data.id}
    ensures s.hasPlayerRef && InRange(npcPos, playerPos) && data.state == ScannedBad && s.coins == 0 ==>
      r.gameOver && r.coins == 0 && r.npcs == s.npcs && r.npcRefs == s.npcRefs
    // no other registry entry is touched, nor the flags the interaction does not own
    ensures forall k :: k in r.npcs ==> k in s.npcs && r.npcs[k] == s.npcs[k]
    ensures forall k :: k in s.npcs && k != data.id ==> k in r.npcs
    ensures r.gameStarted == s.gameStarted && r.hasPlayerRef == s.hasPlayerRef
  {
    match Contact(data.state, s.hasPlayerRef, InRange(npcPos, playerPos), s.coins)
    case NoContact => s
    case Collected => AfterRemoveNpc(AfterAddCoin(s), data.id)
    case TollPaid => AfterRemoveNpc(AfterRemoveCoin(s), data.id)
    case Caught => AfterSetGameOver(s, true)
  }

  /** One whole frame for one NPC: nothing at all once the game is over. */
  function FrameStep(w: Wander, s: StoreState, data: NpcData, delta: real, playerPos: Vec3,
                invDist: real, rerollDir: Vec3, draw: real,
                buildings: seq<BuildingData>): (r: (Wander, StoreState))
    requires 0.0 <= draw < 1.0 && 0.0 <= invDist && 0.0 <= delta
    ensures s.gameOver ==> r == (w, s)
    // the NPC only ever moves to a position that is not blocked
    ensures r.0.pos != w.pos ==> !Blocked(r.0.pos, buildings)
    // an IDLE NPC's frame never touches the store
    ensures data.state == Idle ==> r.1 == s
    // at most one coin changes hands, and no entry but the NPC's own can leave the registry
    ensures r.1.coins <= s.coins + 1 && s.coins <= r.1.coins + 1
    ensures forall k :: k in r.1.npcs ==> k in s.npcs && r.1.npcs[k] == s.npcs[k]
    ensures forall k :: k in s.npcs && k != data.id ==> k in r.1.npcs
    ensures r.1.gameStarted == s.gameStarted && r.1.hasPlayerRef == s.hasPlayerRef
  {
    if s.gameOver then (w, s)
    else
      var w' := Behave(w, data.state, delta, s.hasPlayerRef, playerPos, invDist, rerollDir, draw, buildings);
      (w', Interact(s, data, w'.pos, playerPos))
  }

  /** Once the game is over, every NPC's frame leaves it and the store as they are. */
  lemma GameOverFreezes(w: Wander, s: StoreState, data: NpcData, delta: real, playerPos: Vec3,
                        invDist: real, rerollDir: Vec3, draw: real, buildings: seq<BuildingData>)
    requires 0.0 <= draw < 1.0 && 0.0 <= invDist && 0.0 <= delta
    requires s.gameOver
    ensures FrameStep(w, s, data, delta, playerPos, invDist, rerollDir, draw, buildings) == (w, s)
  {
  }

  /**
   * A revealed hostile that reaches a player with no coins ends the game
   * and stays registered; from then on no NPC's frame changes anything.
   */
  lemma {:induction false} CaughtIsFinal(w: Wander, s: StoreState, data: NpcData, delta: real, playerPos: Vec3,
                       invDist: real, rerollDir: Vec3, draw: real, buildings: seq<BuildingData>,
                       other: Wander, otherData: NpcData, delta2: real, playerPos2: Vec3,
                       invDist2: real, rerollDir2: Vec3, draw2: real)
    requires 0.0 <= draw < 1.0 && 0.0 <= invDist && 0.0 <= delta
    requires 0.0 <= draw2 < 1.0 && 0.0 <= invDist2 && 0.0 <= delta2
    requires !s.gameOver && s.coins == 0 && s.hasPlayerRef && data.state == ScannedBad && data.id in s.npcs
    requires InRange(Behave(w, data.state, delta, true, playerPos, invDist, rerollDir, draw, buildings).pos, playerPos)
    ensures var (_, s1) := FrameStep(w, s, data, delta, playerPos, invDist, rerollDir, draw, buildings);
      && s1.gameOver && data.id in s1.npcs && s1.coins == 0
      && FrameStep(other, s1, otherData, delta2, playerPos2, invDist2, rerollDir2, draw2, buildings) == (other, s1)
  {
    var w1 := Behave(w, data.state, delta, true, playerPos, invDist, rerollDir, draw, buildings);
    var s1 := Interact(s, data, w1.pos, playerPos);
    assert s1 == AfterSetGameOver(s, true);
  }

  /**
   * An NPC component: the group whose position it moves, its wander
   * direction and the time left before it picks a new one.
   */
  class Agent {
    var pos: Vec3
    var direction: Vec3
    var timeToChangeDir: real

    function Local(): Wander
      reads this
    {
      Wander(pos, direction, timeToChangeDir)
    }

    /** Mounting: the group starts at the spawn position, the timer at zero. */
    constructor (data: NpcData, initialDir: Vec3)
      ensures Local() == Wander(data.position, initialDir, 0.0)
    {
      pos, direction, timeToChangeDir := data.position, initialDir, 0.0;
    }

    /** The frame callback. */
    method Tick(store: GameStore, data: NpcData, delta: real, playerPos: Vec3,
                invDist: real, rerollDir: Vec3, draw: real, buildings: seq<BuildingData>)
      requires 0.0 <= draw < 1.0 && 0.0 <= invDist && 0.0 <= delta
      modifies this, store
      ensures (Local(), store.State())
              == FrameStep(old(Local()), old(store.State()), data, delta, playerPos,
                          invDist, rerollDir, draw, buildings)
    {
      if store.gameOver {
        return;
      }

      // behaviour
      if data.state == ScannedGood {
        // stands still; only the interaction below applies
      } else if data.state == ScannedBad {
        if store.hasPlayerRef {
          var dirToPlayer := Scale(Sub(playerPos, pos), invDist);
          dirToPlayer := dirToPlayer.(y := 0.0);
          var newPos := Add(pos, Scale(dirToPlayer, NPC_SPEED_CHASE * delta));
          var blocked := CheckCollision(newPos, buildings);
          if !blocked {
            pos := newPos;
          }
        }
      } else {
        timeToChangeDir := timeToChangeDir - delta;
        if timeToChangeDir <= 0.0 {
          direction := rerollDir;
          timeToChangeDir := draw * 2.0 + 1.0;
        }
        var newPos := Add(pos, Scale(direction, NPC_SPEED_IDLE * delta));
        var blocked := CheckCollision(newPos, buildings);
        if !blocked {
          pos := newPos;
        } else {
          direction := Negate(direction);
        }
      }

      // interaction with the player
      if store.hasPlayerRef && data.state != Idle {
        if LengthSquared(Sub(pos, playerPos)) < INTERACTION_DISTANCE * INTERACTION_DISTANCE {
          if data.state == ScannedGood {
            store.AddCoin();
            store.RemoveNpc(data.id);
          } else if data.state == ScannedBad {
            if store.coins > 0 {
              store.RemoveCoin();
              store.RemoveNpc(data.id);
            } else {
              store.SetGameOver(true);
            }
          }
        }
      }
    }
  }
}
