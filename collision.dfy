/**
 * The axis-aligned box test that both the NPCs and the player run
 * against the building list: a body of radius 0.5 is blocked by a
 * building when its centre lies strictly inside the building's
 * footprint grown by that radius on x and z. Heights play no part.
 */
module Collision {
  import opened Types

  /** Radius of an NPC or of the player, used to grow every footprint. */
  const BODY_RADIUS: real := 0.5

  function MinX(b: BuildingData): real { b.position.x - b.size.x / 2.0 - BODY_RADIUS }
  function MaxX(b: BuildingData): real { b.position.x + b.size.x / 2.0 + BODY_RADIUS }
  function MinZ(b: BuildingData): real { b.position.z - b.size.z / 2.0 - BODY_RADIUS }
  function MaxZ(b: BuildingData): real { b.position.z + b.size.z / 2.0 + BODY_RADIUS }

  /** The point lies strictly inside the grown footprint of `b`. */
  predicate InsideFootprint(p: Vec3, b: BuildingData)
  {
    p.x > MinX(b) && p.x < MaxX(b) && p.z > MinZ(b) && p.z < MaxZ(b)
  }

  /** Some building of the list blocks the point. */
  predicate HitsBuilding(p: Vec3, buildings: seq<BuildingData>)
  {
    exists i :: 0 <= i < |buildings| && InsideFootprint(p, buildings[i])
  }

  /**
   * The test is strict: a point exactly on an edge of a grown footprint
   * is not inside it.
   */
  lemma EdgesAreFree(p: Vec3, b: BuildingData)
    requires p.x == MinX(b) || p.x == MaxX(b) || p.z == MinZ(b) || p.z == MaxZ(b)
    ensures !InsideFootprint(p, b)
  {
  }

  /** Only x and z matter, for the point and for every building. */
  lemma HeightIsIgnored(p: Vec3, q: Vec3, buildings: seq<BuildingData>, flat: seq<BuildingData>)
    requires p.x == q.x && p.z == q.z
    requires |flat| == |buildings|
    requires forall i :: 0 <= i < |buildings| ==>
               flat[i].position.x == buildings[i].position.x && flat[i].position.z == buildings[i].position.z &&
               flat[i].size.x == buildings[i].size.x && flat[i].size.z == buildings[i].size.z
    ensures HitsBuilding(p, buildings) <==> HitsBuilding(q, flat)
  {
    if HitsBuilding(p, buildings) {
      var i :| 0 <= i < |buildings| && InsideFootprint(p, buildings[i]);
      assert InsideFootprint(q, flat[i]);
    }
    if HitsBuilding(q, flat) {
      var i :| 0 <= i < |flat| && InsideFootprint(q, flat[i]);
      assert InsideFootprint(p, buildings[i]);
    }
  }
}
