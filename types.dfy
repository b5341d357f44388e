/**
 * Shared entities and tuning constants of the city game: NPC alignment
 * and reveal state, building and NPC records, and the speeds and
 * distances the simulation uses. Coordinates are exact reals.
 */
module Types {

  datatype Option<T> = None | Some(value: T)

  /** The hidden alignment an NPC is given at spawn time. */
  datatype NpcType = Good | Hypocrite

  /** What the player has learnt about an NPC by scanning it. */
  datatype NpcState = Idle | ScannedGood | ScannedBad

  /** A three-component position or direction (x east, y up, z south). */
  datatype Vec3 = Vec3(x: real, y: real, z: real)

  /** A static building: its centre and its full extent on each axis. */
  datatype BuildingData = BuildingData(id: string, position: Vec3, size: Vec3)

  /** An NPC as the registry keeps it; `position` is where it was spawned. */
  datatype NpcData = NpcData(id: string, npcType: NpcType, state: NpcState, position: Vec3)

  const CITY_SIZE: int := 100
  const STREET_WIDTH: int := 4
  const BUILDING_SIZE: int := 6
  const PLAYER_SPEED: real := 5.0
  const NPC_SPEED_IDLE: real := 2.0
  const NPC_SPEED_CHASE: real := 4.5
  const SCAN_DISTANCE: real := 15.0
  const INTERACTION_DISTANCE: real := 1.2

  function Add(a: Vec3, b: Vec3): Vec3
  {
    Vec3(a.x + b.x, a.y + b.y, a.z + b.z)
  }

  function Sub(a: Vec3, b: Vec3): Vec3
  {
    Vec3(a.x - b.x, a.y - b.y, a.z - b.z)
  }

  function Scale(v: Vec3, k: real): Vec3
  {
    Vec3(v.x * k, v.y * k, v.z * k)
  }

  function Negate(v: Vec3): Vec3
  {
    Vec3(-v.x, -v.y, -v.z)
  }

  /** Squared Euclidean length: comparing it with d * d stands for comparing the length with d. */
  function LengthSquared(v: Vec3): real
  {
    v.x * v.x + v.y * v.y + v.z * v.z
  }

  function Abs(r: real): real
  {
    if r < 0.0 then -r else r
  }
}
