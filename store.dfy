/** The simulation store of src/store/satelliteStore.ts: the satellites, the
    current collision predictions, the live explosions, the selection, the
    clock and the run controls, and the actions that update them.

    The store is a class whose methods assign its fields. The random ids and
    `Date.now()` timestamps of the source are parameters; the callers supply
    fresh ids, which is what keeps the ids of the store unique (`Valid`). */
module Store {
  import opened JsMath
  import opened Entities
  import opened Lists
  import opened OrbitalMechanics

  function SatelliteId(s: Satellite): string { s.id }

  function ExplosionId(x: Explosion): string { x.id }

  /** Keeps the satellites whose id is not `id`. */
  function OtherThan(id: string): Satellite -> bool {
    (s: Satellite) => s.id != id
  }

  /** Keeps the ids that are not `id`. */
  function Differs(id: string): string -> bool {
    (x: string) => x != id
  }

  /** Keeps the satellites whose id is not marked. */
  function Unmarked(marked: set<string>): Satellite -> bool {
    (s: Satellite) => s.id !in marked
  }

  /** Keeps the ids that are not marked. */
  function Outside(marked: set<string>): string -> bool {
    (x: string) => x !in marked
  }

  /** The satellite list after `updateSatellitePosition(id, position)`. */
  function WithPosition(satellites: seq<Satellite>, id: string, position: Vec3): (r: seq<Satellite>)
    ensures |r| == |satellites|
    ensures forall k :: 0 <= k < |r| ==> r[k].(position := satellites[k].position) == satellites[k]
    ensures forall k :: 0 <= k < |r| ==> r[k].position == if satellites[k].id == id then position else satellites[k].position
  {
    seq(|satellites|, k requires 0 <= k < |satellites| =>
      if satellites[k].id == id then satellites[k].(position := position) else satellites[k])
  }

  /** The satellite list after `updateSatelliteOrbit(id, orbitAngle)`. */
  function WithOrbitAngle(satellites: seq<Satellite>, id: string, orbitAngle: real): (r: seq<Satellite>)
    ensures |r| == |satellites|
    ensures forall k :: 0 <= k < |r| ==> r[k].(orbitAngle := satellites[k].orbitAngle) == satellites[k]
    ensures forall k :: 0 <= k < |r| ==> r[k].orbitAngle == if satellites[k].id == id then orbitAngle else satellites[k].orbitAngle
  {
    seq(|satellites|, k requires 0 <= k < |satellites| =>
      if satellites[k].id == id then satellites[k].(orbitAngle := orbitAngle) else satellites[k])
  }

  /** An update for an id no satellite has leaves the list as it was. */
  lemma UpdateUnknownIdIsNoOp(satellites: seq<Satellite>, id: string, position: Vec3, orbitAngle: real)
    requires forall k :: 0 <= k < |satellites| ==> satellites[k].id != id
    ensures WithPosition(satellites, id, position) == satellites
    ensures WithOrbitAngle(satellites, id, orbitAngle) == satellites
  {
    assert forall k :: 0 <= k < |satellites| ==> WithPosition(satellites, id, position)[k] == satellites[k];
    assert forall k :: 0 <= k < |satellites| ==> WithOrbitAngle(satellites, id, orbitAngle)[k] == satellites[k];
  }

  /** `removeSatellite(id)` drops exactly the satellites with that id and
      every selection of it, and changes nothing for an id that is not there. */
  lemma RemoveDropsExactlyId(satellites: seq<Satellite>, selection: seq<string>, id: string)
    ensures forall s :: s in Filter(satellites, OtherThan(id)) <==> s in satellites && s.id != id
    ensures forall x :: x in Filter(selection, Differs(id)) <==> x in selection && x != id
    ensures (forall k :: 0 <= k < |satellites| ==> satellites[k].id != id) ==> Filter(satellites, OtherThan(id)) == satellites
    ensures id !in selection ==> Filter(selection, Differs(id)) == selection
  {
    FilterMembers(satellites, OtherThan(id));
    FilterMembers(selection, Differs(id));
    if forall k :: 0 <= k < |satellites| ==> satellites[k].id != id {
      FilterKeepsAll(satellites, OtherThan(id));
    }
    if id !in selection {
      FilterKeepsAll(selection, Differs(id));
    }
  }

  /** The selection after `toggleSatelliteSelection(id)`: every occurrence
      of a selected id is removed, an unselected id is appended. */
  function Toggled(selection: seq<string>, id: string): seq<string> {
    if id in selection then Filter(selection, Differs(id)) else selection + [id]
  }

  /** Toggling flips whether `id` is selected and no other id's membership. */
  lemma ToggleFlips(selection: seq<string>, id: string)
    ensures id in Toggled(selection, id) <==> id !in selection
    ensures forall x :: x != id ==> (x in Toggled(selection, id) <==> x in selection)
  {
    FilterMembers(selection, Differs(id));
  }

  /** Selecting an unselected id and toggling it again restores the selection. */
  lemma ToggleTwice(selection: seq<string>, id: string)
    requires id !in selection
    ensures Toggled(Toggled(selection, id), id) == selection
  {
    assert id in selection + [id];
    FilterAppend(selection, [id], Differs(id));
    FilterKeepsAll(selection, Differs(id));
    assert Filter([id], Differs(id)) == [];
  }

  /** The source's filter for predictions worth resolving now: within about
      1.5 time units and of moderate probability. */
  predicate IsImminent(c: CollisionPrediction) {
    c.timeToCollision <= 1.5 && c.probability >= 0.5
  }

  function Imminent(collisions: seq<CollisionPrediction>): seq<CollisionPrediction> {
    Filter(collisions, IsImminent)
  }

  /** Both satellites of the prediction are in the list. */
  predicate Resolvable(satellites: seq<Satellite>, c: CollisionPrediction) {
    Find(satellites, c.satellite1Id).Some? && Find(satellites, c.satellite2Id).Some?
  }

  function ResolvableIn(satellites: seq<Satellite>): CollisionPrediction -> bool {
    (c: CollisionPrediction) => Resolvable(satellites, c)
  }

  /** The prediction names the id. */
  predicate Names(c: CollisionPrediction, id: string) {
    c.satellite1Id == id || c.satellite2Id == id
  }

  /** The two values `processCollisions` accumulates: `explosionsToAdd` and
      `satellitesToRemove`. */
  datatype Resolution = Resolution(explosions: seq<Explosion>, marked: set<string>)

  /** What the `forEach` of `processCollisions` has accumulated after the
      first k imminent predictions, looking both satellites up in the list
      as it was when the action began. The explosion for prediction j gets
      the id ids[j] and the timestamp `now`. */
  function Resolve(satellites: seq<Satellite>, imminent: seq<CollisionPrediction>, ids: seq<string>,
                   now: int, k: nat): Resolution
    requires k <= |imminent| <= |ids|
  {
    if k == 0 then Resolution([], {})
    else
      var r := Resolve(satellites, imminent, ids, now, k - 1);
      var c := imminent[k - 1];
      match (Find(satellites, c.satellite1Id), Find(satellites, c.satellite2Id))
      case (Some(sat1), Some(sat2)) =>
        Resolution(r.explosions + [Explosion(ids[k - 1], c.collisionPoint, sat1.color, now)],
                   r.marked + {sat1.id, sat2.id})
      case _ => r
  }

  /** An id is marked for removal exactly when one of the resolvable
      predictions so far names it. */
  lemma {:induction false} ResolveMarks(satellites: seq<Satellite>, imminent: seq<CollisionPrediction>,
                                        ids: seq<string>, now: int, k: nat)
    requires k <= |imminent| <= |ids|
    ensures forall x :: x in Resolve(satellites, imminent, ids, now, k).marked <==>
              exists j :: 0 <= j < k && Resolvable(satellites, imminent[j]) && Names(imminent[j], x)
  {
    if k > 0 {
      ResolveMarks(satellites, imminent, ids, now, k - 1);
    }
  }

  /** One explosion per resolvable prediction: the explosions so far are as
      many as the resolvable predictions among the first k. */
  lemma {:induction false} ResolveCount(satellites: seq<Satellite>, imminent: seq<CollisionPrediction>,
                                        ids: seq<string>, now: int, k: nat)
    requires k <= |imminent| <= |ids|
    ensures |Resolve(satellites, imminent, ids, now, k).explosions| == |Filter(imminent[..k], ResolvableIn(satellites))|
  {
    if k > 0 {
      ResolveCount(satellites, imminent, ids, now, k - 1);
      assert imminent[..k] == imminent[..k - 1] + [imminent[k - 1]];
      FilterAppend(imminent[..k - 1], [imminent[k - 1]], ResolvableIn(satellites));
    }
  }

  /** Each explosion sits at the collision point of a resolvable
      prediction, carries that prediction's id and its first satellite's
      colour, and is stamped `now`. */
  lemma {:induction false} ResolveExplosions(satellites: seq<Satellite>, imminent: seq<CollisionPrediction>,
                                             ids: seq<string>, now: int, k: nat)
    requires k <= |imminent| <= |ids|
    ensures forall x :: x in Resolve(satellites, imminent, ids, now, k).explosions ==>
      x.timestamp == now &&
      exists j :: 0 <= j < k && Resolvable(satellites, imminent[j]) && x.id == ids[j]
                  && x.position == imminent[j].collisionPoint
                  && x.color == Find(satellites, imminent[j].satellite1Id).value.color
  {
    if k > 0 {
      ResolveExplosions(satellites, imminent, ids, now, k - 1);
      var prev := Resolve(satellites, imminent, ids, now, k - 1).explosions;
      var c := imminent[k - 1];
      if Resolvable(satellites, c) {
        var added := Explosion(ids[k - 1], c.collisionPoint, Find(satellites, c.satellite1Id).value.color, now);
        assert Resolve(satellites, imminent, ids, now, k).explosions == prev + [added];
        forall x | x in prev + [added]
          ensures x.timestamp == now &&
            exists j :: 0 <= j < k && Resolvable(satellites, imminent[j]) && x.id == ids[j]
                        && x.position == imminent[j].collisionPoint
                        && x.color == Find(satellites, imminent[j].satellite1Id).value.color
        {
          if x !in prev {
            assert x == added;
          }
        }
      }
    }
  }

  /** With pairwise distinct ids, the explosions get distinct ids, each
      one of the first k. */
  lemma {:induction false} ResolveIdsUnique(satellites: seq<Satellite>, imminent: seq<CollisionPrediction>,
                                            ids: seq<string>, now: int, k: nat)
    requires k <= |imminent| <= |ids|
    requires forall i, j :: 0 <= i < j < |ids| ==> ids[i] != ids[j]
    ensures var xs := Resolve(satellites, imminent, ids, now, k).explosions;
      && UniqueBy(xs, ExplosionId)
      && forall x :: x in xs ==> exists j :: 0 <= j < k && x.id == ids[j]
  {
    if k > 0 {
      ResolveIdsUnique(satellites, imminent, ids, now, k - 1);
      var prev := Resolve(satellites, imminent, ids, now, k - 1).explosions;
      if Resolvable(satellites, imminent[k - 1]) {
        var x := Explosion(ids[k - 1], imminent[k - 1].collisionPoint,
                           Find(satellites, imminent[k - 1].satellite1Id).value.color, now);
        forall i | 0 <= i < |prev| ensures ExplosionId(prev[i]) != ExplosionId(x) {
          assert prev[i] in prev;
        }
        UniqueConcat(prev, [x], ExplosionId);
      }
    }
  }

  /** Appending the explosions of a resolution with fresh ids keeps the
      explosion ids unique. */
  lemma ResolutionKeepsIdsUnique(explosions: seq<Explosion>, satellites: seq<Satellite>,
                                 imminent: seq<CollisionPrediction>, ids: seq<string>, now: int)
    requires |imminent| <= |ids|
    requires UniqueBy(explosions, ExplosionId)
    requires FreshIds(ids, explosions)
    ensures UniqueBy(explosions + Resolve(satellites, imminent, ids, now, |imminent|).explosions, ExplosionId)
  {
    var added := Resolve(satellites, imminent, ids, now, |imminent|).explosions;
    ResolveIdsUnique(satellites, imminent, ids, now, |imminent|);
    forall i, j | 0 <= i < |explosions| && 0 <= j < |added|
      ensures ExplosionId(explosions[i]) != ExplosionId(added[j])
    {
      assert added[j] in added;
    }
    UniqueConcat(explosions, added, ExplosionId);
  }

  /** Fresh explosion ids: pairwise distinct and unused by the live explosions. */
  ghost predicate FreshIds(ids: seq<string>, explosions: seq<Explosion>) {
    && (forall i, j :: 0 <= i < j < |ids| ==> ids[i] != ids[j])
    && (forall i, k :: 0 <= i < |ids| && 0 <= k < |explosions| ==> ids[i] != explosions[k].id)
  }

  /** After the resolution no surviving satellite and no selected id is
      named by a resolvable imminent prediction, and every satellite that
      no such prediction names survives. */
  lemma SurvivorsUnreferenced(satellites: seq<Satellite>, selection: seq<string>,
                              imminent: seq<CollisionPrediction>, ids: seq<string>, now: int)
    requires |imminent| <= |ids|
    ensures var marked := Resolve(satellites, imminent, ids, now, |imminent|).marked;
      forall s :: s in satellites ==>
        (s in Filter(satellites, Unmarked(marked)) <==>
         forall j :: 0 <= j < |imminent| && Resolvable(satellites, imminent[j]) ==> !Names(imminent[j], s.id))
    ensures var marked := Resolve(satellites, imminent, ids, now, |imminent|).marked;
      forall x :: x in selection ==>
        (x in Filter(selection, Outside(marked)) <==>
         forall j :: 0 <= j < |imminent| && Resolvable(satellites, imminent[j]) ==> !Names(imminent[j], x))
  {
    var marked := Resolve(satellites, imminent, ids, now, |imminent|).marked;
    ResolveMarks(satellites, imminent, ids, now, |imminent|);
    FilterMembers(satellites, Unmarked(marked));
    FilterMembers(selection, Outside(marked));
  }

  /** The snapshot lookup: a satellite named by two imminent predictions is
      found by both, so both explode, and all three satellites go. */
  lemma SharedSatelliteExplodesTwice(a: Satellite, b: Satellite, c: Satellite, point1: Vec3, point2: Vec3)
    requires a.id == "a" && b.id == "b" && c.id == "c"
    ensures var imminent := [CollisionPrediction("a", "b", 1.0, point1, 0.9),
                             CollisionPrediction("a", "c", 1.0, point2, 0.9)];
      var r := Resolve([a, b, c], imminent, ["x1", "x2"], 7, 2);
      && Imminent(imminent) == imminent
      && r.explosions == [Explosion("x1", point1, a.color, 7), Explosion("x2", point2, a.color, 7)]
      && r.marked == {"a", "b", "c"}
  {
    var sats := [a, b, c];
    var c1 := CollisionPrediction("a", "b", 1.0, point1, 0.9);
    var c2 := CollisionPrediction("a", "c", 1.0, point2, 0.9);
    FilterKeepsAll([c1, c2], IsImminent);
    assert Find(sats, "a") == Some(a);
    assert sats[1..] == [b, c] && [b, c][1..] == [c];
    assert Find([c], "c") == Some(c);
    assert Find([b, c], "c") == Some(c) by {
      assert "c" != "b";
    }
    assert Find(sats, "c") == Some(c) by {
      assert "c" != "a";
    }
    assert Find(sats, "b") == Some(b) by {
      assert "b" != "a";
    }
    var r0 := Resolve(sats, [c1, c2], ["x1", "x2"], 7, 0);
    assert r0 == Resolution([], {});
    var r1 := Resolve(sats, [c1, c2], ["x1", "x2"], 7, 1);
    assert r1 == Resolution([Explosion("x1", point1, a.color, 7)], {"a", "b"});
  }

  /** The `forEach` of `processCollisions` over the imminent predictions,
      with the list as it was when the action began. */
  method ResolveAll(satellites: seq<Satellite>, imminent: seq<CollisionPrediction>, ids: seq<string>, now: int)
    returns (explosionsToAdd: seq<Explosion>, satellitesToRemove: set<string>)
    requires |imminent| <= |ids|
    ensures Resolution(explosionsToAdd, satellitesToRemove) == Resolve(satellites, imminent, ids, now, |imminent|)
  {
    satellitesToRemove := {};
    explosionsToAdd := [];
    var k := 0;
    while k < |imminent|
      invariant k <= |imminent|
      invariant Resolve(satellites, imminent, ids, now, k) == Resolution(explosionsToAdd, satellitesToRemove)
    {
      var collision := imminent[k];
      var sat1 := Find(satellites, collision.satellite1Id);
      var sat2 := Find(satellites, collision.satellite2Id);
      if sat1.Some? && sat2.Some? {
        explosionsToAdd := explosionsToAdd + [Explosion(ids[k], collision.collisionPoint, sat1.value.color, now)];
        satellitesToRemove := satellitesToRemove + {sat1.value.id, sat2.value.id};
      }
      k := k + 1;
    }
  }

  class SatelliteStore {
    var satellites: seq<Satellite>
    var collisions: seq<CollisionPrediction>
    var explosions: seq<Explosion>
    var isSimulationRunning: bool
    var simulationSpeed: real
    var time: real
    var selectedSatelliteIds: seq<string>
    var satelliteCounter: nat

    /** No two satellites and no two explosions share an id. */
    ghost predicate Valid()
      reads this
    {
      UniqueBy(satellites, SatelliteId) && UniqueBy(explosions, ExplosionId)
    }

    /** The initial state: nothing in the scene, running at speed 1 from time 0. */
    constructor ()
      ensures Valid()
      ensures satellites == [] && collisions == [] && explosions == [] && selectedSatelliteIds == []
      ensures isSimulationRunning && simulationSpeed == 1.0 && time == 0.0 && satelliteCounter == 0
    {
      satellites := [];
      collisions := [];
      explosions := [];
      isSimulationRunning := true;
      simulationSpeed := 1.0;
      time := 0.0;
      selectedSatelliteIds := [];
      satelliteCounter := 0;
    }

    /** `addSatellite(data)`: the new satellite takes the id `id` (the
        `id` of `data` is not used) and its position on the orbit at angle
        `orbitAngle`; it goes to the end of the list. */
    method AddSatellite(m: MathLib, data: Satellite, id: string)
      requires Valid()
      requires forall k :: 0 <= k < |satellites| ==> satellites[k].id != id
      modifies this
      ensures Valid()
      ensures satellites == old(satellites) + [data.(id := id, position := Position(m, data, 0.0))]
      ensures satelliteCounter == old(satelliteCounter) + 1
      ensures collisions == old(collisions) && explosions == old(explosions)
      ensures selectedSatelliteIds == old(selectedSatelliteIds)
      ensures isSimulationRunning == old(isSimulationRunning) && simulationSpeed == old(simulationSpeed)
      ensures time == old(time)
    {
      var x := data.orbitRadius * m.cos(data.orbitAngle) * m.cos(data.inclination);
      var y := data.orbitRadius * m.sin(data.orbitAngle);
      var z := data.orbitRadius * m.cos(data.orbitAngle) * m.sin(data.inclination);
      var satellite := data.(id := id, position := Vec3(x, y, z));
      assert Phase(data, 0.0) == data.orbitAngle;
      assert satellite.position == Position(m, data, 0.0);
      UniqueConcat(satellites, [satellite], SatelliteId);
      satellites := satellites + [satellite];
      satelliteCounter := satelliteCounter + 1;
    }

    /** `removeSatellite(id)`: drops the satellites with that id and the id
        from the selection. */
    method RemoveSatellite(id: string)
      requires Valid()
      modifies this
      ensures Valid()
      ensures satellites == Filter(old(satellites), OtherThan(id))
      ensures selectedSatelliteIds == Filter(old(selectedSatelliteIds), Differs(id))
      ensures collisions == old(collisions) && explosions == old(explosions)
      ensures satelliteCounter == old(satelliteCounter) && time == old(time)
      ensures isSimulationRunning == old(isSimulationRunning) && simulationSpeed == old(simulationSpeed)
    {
      FilterUnique(satellites, OtherThan(id), SatelliteId);
      satellites := Filter(satellites, OtherThan(id));
      selectedSatelliteIds := Filter(selectedSatelliteIds, Differs(id));
    }

    method UpdateSatellitePosition(id: string, position: Vec3)
      requires Valid()
      modifies this`satellites
      ensures Valid()
      ensures satellites == WithPosition(old(satellites), id, position)
    {
      satellites := WithPosition(satellites, id, position);
      assert forall k :: 0 <= k < |satellites| ==> satellites[k].id == old(satellites)[k].id;
    }

    method UpdateSatelliteOrbit(id: string, orbitAngle: real)
      requires Valid()
      modifies this`satellites
      ensures Valid()
      ensures satellites == WithOrbitAngle(old(satellites), id, orbitAngle)
    {
      satellites := WithOrbitAngle(satellites, id, orbitAngle);
      assert forall k :: 0 <= k < |satellites| ==> satellites[k].id == old(satellites)[k].id;
    }

    method SetSelectedSatellites(ids: seq<string>)
      modifies this`selectedSatelliteIds
      ensures selectedSatelliteIds == ids
    {
      selectedSatelliteIds := ids;
    }

    method ToggleSatelliteSelection(id: string)
      modifies this`selectedSatelliteIds
      ensures selectedSatelliteIds == Toggled(old(selectedSatelliteIds), id)
      ensures id in selectedSatelliteIds <==> id !in old(selectedSatelliteIds)
    {
      ToggleFlips(selectedSatelliteIds, id);
      if id in selectedSatelliteIds {
        selectedSatelliteIds := Filter(selectedSatelliteIds, Differs(id));
      } else {
        selectedSatelliteIds := selectedSatelliteIds + [id];
      }
    }

    method ClearSelection()
      modifies this`selectedSatelliteIds
      ensures selectedSatelliteIds == []
    {
      selectedSatelliteIds := [];
    }

    method ToggleSimulation()
      modifies this`isSimulationRunning
      ensures isSimulationRunning == !old(isSimulationRunning)
    {
      isSimulationRunning := !isSimulationRunning;
    }

    method SetSimulationSpeed(speed: real)
      modifies this`simulationSpeed
      ensures simulationSpeed == speed
    {
      simulationSpeed := speed;
    }

    /** `resetSimulation`: empties the scene and zeroes the clock and the
        counter; the run flag and the speed stay as they are. */
    method ResetSimulation()
      modifies this
      ensures Valid()
      ensures satellites == [] && collisions == [] && explosions == [] && selectedSatelliteIds == []
      ensures time == 0.0 && satelliteCounter == 0
      ensures isSimulationRunning == old(isSimulationRunning) && simulationSpeed == old(simulationSpeed)
    {
      satellites := [];
      collisions := [];
      explosions := [];
      time := 0.0;
      selectedSatelliteIds := [];
      satelliteCounter := 0;
    }

    method UpdateCollisions(newCollisions: seq<CollisionPrediction>)
      modifies this`collisions
      ensures collisions == newCollisions
    {
      collisions := newCollisions;
    }

    method UpdateTime(deltaTime: real)
      modifies this`time
      ensures time == old(time) + deltaTime
    {
      time := time + deltaTime;
    }

    /** `addExplosion(position, color)` with the id `id`, stamped `now`. */
    method AddExplosion(position: Vec3, color: string, id: string, now: int)
      requires Valid()
      requires forall k :: 0 <= k < |explosions| ==> explosions[k].id != id
      modifies this`explosions
      ensures Valid()
      ensures explosions == old(explosions) + [Explosion(id, position, color, now)]
    {
      UniqueConcat(explosions, [Explosion(id, position, color, now)], ExplosionId);
      explosions := explosions + [Explosion(id, position, color, now)];
    }

    method RemoveExplosion(id: string)
      requires Valid()
      modifies this`explosions
      ensures Valid()
      ensures explosions == Filter(old(explosions), (x: Explosion) => x.id != id)
    {
      FilterUnique(explosions, (x: Explosion) => x.id != id, ExplosionId);
      explosions := Filter(explosions, (x: Explosion) => x.id != id);
    }

    /** `processCollisions`: resolves the imminent predictions. With none,
        nothing changes. Otherwise each imminent prediction whose two
        satellites are both in the list as it was when the action began
        adds an explosion and marks both satellites; the marked satellites
        leave the list and the selection, the explosions are appended, and
        the predictions are cleared. `explosionIds[j]` is the id of the
        explosion for the j-th imminent prediction; `now` is the timestamp. */
    method ProcessCollisions(explosionIds: seq<string>, now: int)
      requires Valid()
      requires |collisions| <= |explosionIds|
      requires FreshIds(explosionIds, explosions)
      modifies this
      ensures Valid()
      ensures var imminent := Imminent(old(collisions));
        var r := Resolve(old(satellites), imminent, explosionIds, now, |imminent|);
        if imminent == [] then
          && satellites == old(satellites) && collisions == old(collisions)
          && explosions == old(explosions) && selectedSatelliteIds == old(selectedSatelliteIds)
        else
          && satellites == Filter(old(satellites), Unmarked(r.marked))
          && selectedSatelliteIds == Filter(old(selectedSatelliteIds), Outside(r.marked))
          && explosions == old(explosions) + r.explosions
          && collisions == []
      ensures satelliteCounter == old(satelliteCounter) && time == old(time)
      ensures isSimulationRunning == old(isSimulationRunning) && simulationSpeed == old(simulationSpeed)
    {
      var imminent := Imminent(collisions);
      if |imminent| > 0 {
        var explosionsToAdd, satellitesToRemove := ResolveAll(satellites, imminent, explosionIds, now);
        FilterUnique(satellites, Unmarked(satellitesToRemove), SatelliteId);
        ResolutionKeepsIdsUnique(explosions, satellites, imminent, explosionIds, now);
        satellites := Filter(satellites, Unmarked(satellitesToRemove));
        selectedSatelliteIds := Filter(selectedSatelliteIds, Outside(satellitesToRemove));
        explosions := explosions + explosionsToAdd;
        collisions := [];
      }
    }
  }
}
