/** `detectCollisions` of src/utils/orbitalMechanics.ts: for every pair of
    satellites, a look-ahead scan for the closest approach, a weighted risk
    score, and a ranking of the reported pairs.

    The scan variable `t` of the source (0, 0.2, 0.4, ... while t < 100) is
    the step index `k` with t = k / 5, 0 <= k < 500. The scan is specified by
    `Fold` (the running minimum over the first k steps), `StopsAt` (the early
    exit test) and `ScanLength` (how many steps run); the method
    `ClosestApproach` is proved to compute `Fold(ScanLength(0))`, and the
    lemmas below say what that value is. */
module CollisionDetection {
  import opened JsMath
  import opened Entities
  import opened OrbitalMechanics

  const MinSafeDistance: real := 0.5
  /** The number of look-ahead steps: t = 0, 0.2, ..., 99.8. */
  const Steps: nat := 500
  /** The scan may stop early only once t exceeds this. */
  const EarlyExitAfter: real := 10.0
  const DivergenceFactor: real := 1.5
  const ReportThreshold: real := 0.1

  /** A JavaScript number that may be `Infinity` (the start value of the running minimum). */
  datatype Extended = Infinity | Finite(value: real)

  /** `d < e`. */
  predicate Below(d: real, e: Extended) {
    e.Infinity? || d < e.value
  }

  /** `d > e * 1.5`; never true of `Infinity`. */
  predicate Exceeds(d: real, e: Extended) {
    e.Finite? && d > e.value * DivergenceFactor
  }

  /** The scan's three running variables: `minDistance`, `collisionTime` and `collisionPoint`. */
  datatype Approach = Approach(minDistance: Extended, collisionTime: real, collisionPoint: Vec3)

  const Initial: Approach := Approach(Infinity, -1.0, Vec3(0.0, 0.0, 0.0))

  /** One pair under scan, and the time the scan starts from. */
  datatype Encounter = Encounter(sat1: Satellite, sat2: Satellite, currentTime: real)

  function StepTime(k: nat): real {
    k as real / 5.0
  }

  function Midpoint(p: Vec3, q: Vec3): Vec3 {
    Vec3((p.x + q.x) / 2.0, (p.y + q.y) / 2.0, (p.z + q.z) / 2.0)
  }

  /** What the scan reads at one step: the distance between the two
      satellites and the point midway between them. */
  datatype Sample = Sample(distance: real, midpoint: Vec3)

  /** The sample at step k, t = currentTime + k / 5. */
  function SampleAt(m: MathLib, e: Encounter, k: nat): (r: Sample)
    requires SqrtLaws(m)
    ensures 0.0 <= r.distance
  {
    var t := e.currentTime + StepTime(k);
    var pos1 := Position(m, e.sat1, t);
    var pos2 := Position(m, e.sat2, t);
    Sample(Distance(m, pos1, pos2), Midpoint(pos1, pos2))
  }

  /** The samples of a pair, step by step. */
  function SamplesOf(m: MathLib, e: Encounter): nat -> Sample
    requires SqrtLaws(m)
  {
    (k: nat) => SampleAt(m, e, k)
  }

  /** Step k of the scan: take the sample's distance as the new minimum
      when it is strictly smaller. */
  function Advance(s: Sample, st: Approach, k: nat): Approach {
    if Below(s.distance, st.minDistance) then Approach(Finite(s.distance), StepTime(k), s.midpoint) else st
  }

  /** The scan state after steps 0 .. k-1, ignoring the early exit. */
  function Fold(samples: nat -> Sample, k: nat): Approach {
    if k == 0 then Initial else Advance(samples(k - 1), Fold(samples, k - 1), k - 1)
  }

  /** The scan breaks after step k: past t = 10, and the distance exceeds
      1.5 times the minimum found so far (step k included). */
  predicate StopsAt(samples: nat -> Sample, k: nat) {
    StepTime(k) > EarlyExitAfter && Exceeds(samples(k).distance, Fold(samples, k + 1).minDistance)
  }

  /** The number of steps the scan evaluates, counting from step k. */
  function ScanLength(samples: nat -> Sample, k: nat): nat
    requires k <= Steps
    decreases Steps - k
  {
    if k == Steps then Steps else if StopsAt(samples, k) then k + 1 else ScanLength(samples, k + 1)
  }

  /** What the scan of a sample sequence ends with. */
  function ScanOf(samples: nat -> Sample): Approach {
    Fold(samples, ScanLength(samples, 0))
  }

  /** What the scan of one pair ends with. */
  function ClosestApproachOf(m: MathLib, e: Encounter): Approach
    requires SqrtLaws(m)
  {
    ScanOf(SamplesOf(m, e))
  }

  /** `samples` gives the pair's sample at every step. */
  ghost predicate SamplesAgree(samples: nat -> Sample, m: MathLib, e: Encounter)
    requires SqrtLaws(m)
  {
    forall k: nat {:trigger SampleAt(m, e, k)} :: samples(k) == SampleAt(m, e, k)
  }

  /** The inner look-ahead loop of `detectCollisions`: it computes the scan
      of the pair's samples. */
  method ClosestApproach(m: MathLib, e: Encounter, ghost samples: nat -> Sample) returns (st: Approach)
    requires SqrtLaws(m)
    requires SamplesAgree(samples, m, e)
    ensures st == ScanOf(samples)
  {
    st := Initial;
    var k := 0;
    while k < Steps
      invariant k <= Steps
      invariant st == Fold(samples, k)
      invariant ScanLength(samples, k) == ScanLength(samples, 0)
    {
      var t := StepTime(k);
      var futureTime := e.currentTime + t;
      var pos1 := Position(m, e.sat1, futureTime);
      var pos2 := Position(m, e.sat2, futureTime);
      var distance := Distance(m, pos1, pos2);
      assert samples(k) == SampleAt(m, e, k) == Sample(distance, Midpoint(pos1, pos2));
      if Below(distance, st.minDistance) {
        st := Approach(Finite(distance), t, Midpoint(pos1, pos2));
      }
      if t > EarlyExitAfter && Exceeds(distance, st.minDistance) {
        break;
      }
      k := k + 1;
    }
  }

  /** kmin is the first of the first k steps at which the distance is
      smallest, and the state after k steps records that step. */
  ghost predicate IsFirstMinimum(samples: nat -> Sample, k: nat, kmin: nat) {
    && kmin < k
    && Fold(samples, k) == Approach(Finite(samples(kmin).distance), StepTime(kmin), samples(kmin).midpoint)
    && (forall i :: 0 <= i < k ==> samples(kmin).distance <= samples(i).distance)
    && (forall i :: 0 <= i < kmin ==> samples(kmin).distance < samples(i).distance)
  }

  /** After at least one step the running state holds the first step that
      attains the minimum distance, its time and the midpoint there. */
  lemma {:induction false} FoldIsFirstMinimum(samples: nat -> Sample, k: nat)
    requires 1 <= k
    ensures exists kmin :: IsFirstMinimum(samples, k, kmin)
  {
    if k == 1 {
      assert IsFirstMinimum(samples, 1, 0);
    } else {
      FoldIsFirstMinimum(samples, k - 1);
      var kmin: nat :| IsFirstMinimum(samples, k - 1, kmin);
      if samples(k - 1).distance < samples(kmin).distance {
        assert IsFirstMinimum(samples, k, k - 1);
      } else {
        assert IsFirstMinimum(samples, k, kmin);
      }
    }
  }

  /** How far the scan runs: it evaluates every step up to its end, and if
      it ends before the horizon it ends at a step whose distance exceeds
      1.5 times the minimum so far. */
  lemma {:induction false} ScanLengthFrom(samples: nat -> Sample, k: nat)
    requires k <= Steps
    ensures k <= ScanLength(samples, k) <= Steps
    ensures k < Steps ==> k < ScanLength(samples, k)
    ensures forall i :: k <= i < ScanLength(samples, k) - 1 ==> !StopsAt(samples, i)
    ensures ScanLength(samples, k) < Steps ==> StopsAt(samples, ScanLength(samples, k) - 1)
    decreases Steps - k
  {
    if k < Steps && !StopsAt(samples, k) {
      ScanLengthFrom(samples, k + 1);
    }
  }

  /** The scan never stops while t <= 10 (so it runs at least 52 steps), and
      it stops at the first step that diverges, if any. */
  lemma ScanStopsAtFirstDivergence(samples: nat -> Sample)
    ensures 52 <= ScanLength(samples, 0) <= Steps
    ensures forall i :: 0 <= i < ScanLength(samples, 0) - 1 ==> !StopsAt(samples, i)
    ensures ScanLength(samples, 0) < Steps ==> StopsAt(samples, ScanLength(samples, 0) - 1)
  {
    ScanLengthFrom(samples, 0);
    var len := ScanLength(samples, 0);
    if len < Steps {
      assert StepTime(len - 1) > EarlyExitAfter;
    }
  }

  /** The pair's scan result: the first step attaining the minimum over all
      steps the scan ran, a finite non-negative distance, and a time in [0, 100). */
  lemma ClosestApproachIsFirstMinimum(m: MathLib, e: Encounter)
    requires SqrtLaws(m)
    ensures exists kmin :: IsFirstMinimum(SamplesOf(m, e), ScanLength(SamplesOf(m, e), 0), kmin)
    ensures var st := ClosestApproachOf(m, e);
      && st.minDistance.Finite? && 0.0 <= st.minDistance.value
      && 0.0 <= st.collisionTime < 100.0
  {
    var samples := SamplesOf(m, e);
    ScanStopsAtFirstDivergence(samples);
    FoldIsFirstMinimum(samples, ScanLength(samples, 0));
    var kmin: nat :| IsFirstMinimum(samples, ScanLength(samples, 0), kmin);
    assert kmin < Steps;
    assert 0.0 <= samples(kmin).distance;
  }

  /** `Math.min(1, relativeVelocity / 0.1)`. */
  function VelocityFactor(relativeVelocity: real): (r: real)
    ensures r <= 1.0
    ensures 0.0 <= relativeVelocity ==> 0.0 <= r
  {
    Min(1.0, relativeVelocity / 0.1)
  }

  /** `Math.max(0, (0.5 - minDistance) / 0.5)`: positive exactly below the safe distance. */
  function DistanceFactor(minDistance: real): (r: real)
    ensures 0.0 <= r
    ensures 0.0 <= minDistance ==> r <= 1.0
    ensures 0.0 < r <==> minDistance < MinSafeDistance
  {
    Max(0.0, (MinSafeDistance - minDistance) / MinSafeDistance)
  }

  /** `Math.max(0, 1 - collisionTime / 100)`. */
  function TimeFactor(collisionTime: real): (r: real)
    ensures 0.0 <= r
    ensures 0.0 <= collisionTime ==> r <= 1.0
    ensures 0.0 < r <==> collisionTime < 100.0
  {
    Max(0.0, 1.0 - collisionTime / 100.0)
  }

  /** The weighted, clamped risk score. */
  function Probability(distanceFactor: real, velocityFactor: real, timeFactor: real): (r: real)
    ensures r <= 1.0
    ensures 0.0 <= distanceFactor && 0.0 <= velocityFactor && 0.0 <= timeFactor ==> 0.0 <= r
  {
    Min(1.0, distanceFactor * 0.6 + velocityFactor * 0.3 + timeFactor * 0.1)
  }

  /** The report decision for one scanned pair. */
  function Assess(m: MathLib, e: Encounter, st: Approach): (r: Option<CollisionPrediction>)
    requires SqrtLaws(m)
    ensures r.Some? ==> && st.minDistance.Finite? && st.minDistance.value < MinSafeDistance
                        && 0.0 <= st.collisionTime
                        && ReportThreshold < r.value.probability <= 1.0
                        && r.value.satellite1Id == e.sat1.id && r.value.satellite2Id == e.sat2.id
                        && r.value.timeToCollision == st.collisionTime
                        && r.value.collisionPoint == st.collisionPoint
    ensures st.minDistance.Finite? && 0.0 <= st.minDistance.value < MinSafeDistance
            && 0.0 <= st.collisionTime && DistanceFactor(st.minDistance.value) * 0.6 > ReportThreshold
            ==> r.Some?
  {
    if st.minDistance.Finite? && st.minDistance.value < MinSafeDistance && st.collisionTime >= 0.0 then
      var at := e.currentTime + st.collisionTime;
      var relativeVelocity := RelativeVelocity(m, Velocity(m, e.sat1, at), Velocity(m, e.sat2, at));
      var probability := Probability(DistanceFactor(st.minDistance.value),
                                     VelocityFactor(relativeVelocity),
                                     TimeFactor(st.collisionTime));
      if probability > ReportThreshold then
        Some(CollisionPrediction(e.sat1.id, e.sat2.id, st.collisionTime, st.collisionPoint, probability))
      else
        None
    else
      None
  }

  /** The report decision for a pair after its scan. */
  function Report(m: MathLib, e: Encounter): Option<CollisionPrediction>
    requires SqrtLaws(m)
  {
    Assess(m, e, ClosestApproachOf(m, e))
  }

  /** The decision for the pair of indices (i, j) of the input. */
  function PairReports(m: MathLib, sats: seq<Satellite>, currentTime: real): (nat, nat) -> Option<CollisionPrediction>
    requires SqrtLaws(m)
  {
    (i: nat, j: nat) => if i < j < |sats| then Report(m, Encounter(sats[i], sats[j], currentTime)) else None
  }

  /** What one `collisions.push` adds. */
  function Pushed(o: Option<CollisionPrediction>): seq<CollisionPrediction> {
    match o
    case Some(p) => [p]
    case None => []
  }

  /** The pushes of the inner loop for pairs (i, i+1), ..., (i, j-1), in that
      order, given the decision for each pair. */
  function Row(decide: (nat, nat) -> Option<CollisionPrediction>, i: nat, j: nat): seq<CollisionPrediction>
    requires i < j
    decreases j
  {
    if j == i + 1 then [] else Row(decide, i, j - 1) + Pushed(decide(i, j - 1))
  }

  /** The pushes for every pair (a, b) with a < i and a < b < n, in loop order. */
  function Rows(decide: (nat, nat) -> Option<CollisionPrediction>, n: nat, i: nat): seq<CollisionPrediction>
    requires i <= n
  {
    if i == 0 then [] else Rows(decide, n, i - 1) + Row(decide, i - 1, n)
  }

  /** The list `detectCollisions` has pushed before sorting. */
  function Collected(m: MathLib, sats: seq<Satellite>, currentTime: real): seq<CollisionPrediction>
    requires SqrtLaws(m)
  {
    Rows(PairReports(m, sats, currentTime), |sats|, |sats|)
  }

  lemma {:induction false} RowLength(decide: (nat, nat) -> Option<CollisionPrediction>, i: nat, j: nat)
    requires i < j
    ensures |Row(decide, i, j)| <= j - i - 1
    decreases j
  {
    if j > i + 1 {
      RowLength(decide, i, j - 1);
    }
  }

  /** The inner loop pushes only decisions of the pairs it visits. */
  lemma {:induction false} RowSound(decide: (nat, nat) -> Option<CollisionPrediction>, i: nat, j: nat)
    requires i < j
    ensures forall p :: p in Row(decide, i, j) ==> exists b: nat :: i < b < j && decide(i, b) == Some(p)
    decreases j
  {
    if j > i + 1 {
      RowSound(decide, i, j - 1);
      var before := Row(decide, i, j - 1);
      assert Row(decide, i, j) == before + Pushed(decide(i, j - 1));
      forall p | p in before + Pushed(decide(i, j - 1)) ensures exists b: nat :: i < b < j && decide(i, b) == Some(p) {
        if p in before {
          var b: nat :| i < b < j - 1 && decide(i, b) == Some(p);
          assert b < j;
        } else {
          assert decide(i, j - 1) == Some(p);
        }
      }
    }
  }

  /** The inner loop pushes every decision that reports. */
  lemma {:induction false} RowComplete(decide: (nat, nat) -> Option<CollisionPrediction>, i: nat, j: nat)
    requires i < j
    ensures forall b: nat :: i < b < j && decide(i, b).Some? ==> decide(i, b).value in Row(decide, i, j)
    decreases j
  {
    if j > i + 1 {
      RowComplete(decide, i, j - 1);
      var before := Row(decide, i, j - 1);
      assert Row(decide, i, j) == before + Pushed(decide(i, j - 1));
      forall b: nat | i < b < j && decide(i, b).Some?
        ensures decide(i, b).value in before + Pushed(decide(i, j - 1))
      {
        if b < j - 1 {
          assert decide(i, b).value in before;
        } else {
          assert Pushed(decide(i, b)) == [decide(i, b).value];
        }
      }
    }
  }

  lemma PairCountStep(before: int, row: int, i: int, n: int)
    requires 2 * before <= (i - 1) * (2 * n - (i - 1) - 1)
    requires row <= n - i
    ensures 2 * (before + row) <= i * (2 * n - i - 1)
  {
    assert (i - 1) * (2 * n - (i - 1) - 1) + 2 * (n - i) == i * (2 * n - i - 1);
  }

  /** The nested loops push at most one prediction per pair a < b. */
  lemma {:induction false} RowsLength(decide: (nat, nat) -> Option<CollisionPrediction>, n: nat, i: nat)
    requires i <= n
    ensures 2 * |Rows(decide, n, i)| <= i * (2 * n - i - 1)
  {
    if i > 0 {
      RowsLength(decide, n, i - 1);
      RowLength(decide, i - 1, n);
      PairCountStep(|Rows(decide, n, i - 1)|, |Row(decide, i - 1, n)|, i, n);
    }
  }

  /** The nested loops push only the decisions of pairs a < b. */
  lemma {:induction false} RowsSound(decide: (nat, nat) -> Option<CollisionPrediction>, n: nat, i: nat)
    requires i <= n
    ensures forall p :: p in Rows(decide, n, i) ==> exists a: nat, b: nat :: a < i && a < b < n && decide(a, b) == Some(p)
  {
    if i > 0 {
      RowsSound(decide, n, i - 1);
      RowSound(decide, i - 1, n);
      var before, row := Rows(decide, n, i - 1), Row(decide, i - 1, n);
      assert Rows(decide, n, i) == before + row;
      forall p | p in before + row
        ensures exists a: nat, b: nat :: a < i && a < b < n && decide(a, b) == Some(p)
      {
        if p in before {
          var a: nat, b: nat :| a < i - 1 && a < b < n && decide(a, b) == Some(p);
          assert a < i;
        } else {
          var b: nat :| i - 1 < b < n && decide(i - 1, b) == Some(p);
          assert i - 1 < i;
        }
      }
    }
  }

  /** The nested loops push every decision of a pair a < b that reports. */
  lemma {:induction false} RowsComplete(decide: (nat, nat) -> Option<CollisionPrediction>, n: nat, i: nat)
    requires i <= n
    ensures forall a: nat, b: nat :: a < i && a < b < n && decide(a, b).Some? ==> decide(a, b).value in Rows(decide, n, i)
  {
    if i > 0 {
      RowsComplete(decide, n, i - 1);
      RowComplete(decide, i - 1, n);
    }
  }

  /** The bounds every reported prediction meets. */
  predicate WithinReportBounds(p: CollisionPrediction) {
    && 0.0 <= p.timeToCollision < 100.0
    && ReportThreshold < p.probability <= 1.0
  }

  /** The prediction names two satellites of the input in input order. */
  ghost predicate FromOrderedPair(sats: seq<Satellite>, p: CollisionPrediction) {
    exists i, j :: 0 <= i < j < |sats| && sats[i].id == p.satellite1Id && sats[j].id == p.satellite2Id
  }

  /** A pair's report is within the bounds and names the pair in order. */
  lemma ReportFacts(m: MathLib, sats: seq<Satellite>, currentTime: real, i: nat, j: nat)
    requires SqrtLaws(m)
    requires i < j < |sats|
    ensures var r := PairReports(m, sats, currentTime)(i, j);
      r.Some? ==> && WithinReportBounds(r.value)
                  && r.value.satellite1Id == sats[i].id && r.value.satellite2Id == sats[j].id
  {
    var e := Encounter(sats[i], sats[j], currentTime);
    ClosestApproachIsFirstMinimum(m, e);
    assert PairReports(m, sats, currentTime)(i, j) == Assess(m, e, ClosestApproachOf(m, e));
  }

  /** Every collected prediction is within the report bounds and names an
      ordered pair of the input; every pair whose report is positive is
      collected; there are at most n(n-1)/2 predictions, and none at all for
      fewer than two satellites. */
  lemma CollectedFacts(m: MathLib, sats: seq<Satellite>, currentTime: real)
    requires SqrtLaws(m)
    ensures 2 * |Collected(m, sats, currentTime)| <= |sats| * (|sats| - 1)
    ensures |sats| <= 1 ==> Collected(m, sats, currentTime) == []
    ensures forall p :: p in Collected(m, sats, currentTime) ==> WithinReportBounds(p) && FromOrderedPair(sats, p)
    ensures forall i, j :: 0 <= i < j < |sats| && Report(m, Encounter(sats[i], sats[j], currentTime)).Some? ==>
              Report(m, Encounter(sats[i], sats[j], currentTime)).value in Collected(m, sats, currentTime)
  {
    var decide, n := PairReports(m, sats, currentTime), |sats|;
    RowsLength(decide, n, n);
    RowsSound(decide, n, n);
    RowsComplete(decide, n, n);
    forall p | p in Collected(m, sats, currentTime)
      ensures WithinReportBounds(p) && FromOrderedPair(sats, p)
    {
      var a: nat, b: nat :| a < b < n && decide(a, b) == Some(p);
      ReportFacts(m, sats, currentTime, a, b);
    }
    forall i, j | 0 <= i < j < n && Report(m, Encounter(sats[i], sats[j], currentTime)).Some?
      ensures Report(m, Encounter(sats[i], sats[j], currentTime)).value in Collected(m, sats, currentTime)
    {
      assert decide(i, j) == Report(m, Encounter(sats[i], sats[j], currentTime));
    }
  }

  /** The sort key: `probability * (1 / (timeToCollision + 1))`. */
  function Score(p: CollisionPrediction): real
    requires 0.0 <= p.timeToCollision
  {
    p.probability * (1.0 / (p.timeToCollision + 1.0))
  }

  predicate Scorable(s: seq<CollisionPrediction>) {
    forall k :: 0 <= k < |s| ==> 0.0 <= s[k].timeToCollision
  }

  /** Non-increasing in score: most severe and imminent first. */
  predicate SortedByScore(s: seq<CollisionPrediction>)
    requires Scorable(s)
  {
    forall i, j :: 0 <= i < j < |s| ==> Score(s[i]) >= Score(s[j])
  }

  method Swap(a: array<CollisionPrediction>, i: nat, j: nat)
    requires i < j < a.Length
    modifies a
    ensures a[..] == old(a[..])[i := old(a[j])][j := old(a[i])]
    ensures multiset(a[..]) == multiset(old(a[..]))
  {
    a[i], a[j] := a[j], a[i];
  }

  /** `collisions.sort(...)` with the comparator `scoreB - scoreA`, as an
      in-place insertion sort. */
  method SortByScore(a: array<CollisionPrediction>)
    requires Scorable(a[..])
    modifies a
    ensures Scorable(a[..]) && SortedByScore(a[..])
    ensures multiset(a[..]) == multiset(old(a[..]))
  {
    for i := 0 to a.Length
      invariant Scorable(a[..])
      invariant multiset(a[..]) == multiset(old(a[..]))
      invariant forall p, q :: 0 <= p < q < i ==> Score(a[p]) >= Score(a[q])
    {
      var j := i;
      while j > 0 && Score(a[j - 1]) < Score(a[j])
        invariant 0 <= j <= i
        invariant Scorable(a[..])
        invariant multiset(a[..]) == multiset(old(a[..]))
        invariant forall p, q :: 0 <= p < q <= i && q != j ==> Score(a[p]) >= Score(a[q])
      {
        Swap(a, j - 1, j);
        j := j - 1;
      }
    }
  }

  /** The per-pair decision is `Report` for every ordered pair of the input. */
  ghost predicate Decides(decide: (nat, nat) -> Option<CollisionPrediction>, m: MathLib,
                          sats: seq<Satellite>, currentTime: real)
    requires SqrtLaws(m)
  {
    forall i: nat, j: nat {:trigger Encounter(sats[i], sats[j], currentTime)} :: i < j < |sats| ==>
      decide(i, j) == Report(m, Encounter(sats[i], sats[j], currentTime))
  }

  /** The body of the inner loop of `detectCollisions` for the pair (i, j):
      the scan, then the risk assessment. */
  method AssessPair(m: MathLib, satellites: seq<Satellite>, currentTime: real, i: nat, j: nat,
                    ghost decide: (nat, nat) -> Option<CollisionPrediction>)
    returns (p: Option<CollisionPrediction>)
    requires SqrtLaws(m)
    requires i < j < |satellites|
    requires Decides(decide, m, satellites, currentTime)
    ensures p == decide(i, j)
  {
    var e := Encounter(satellites[i], satellites[j], currentTime);
    var st := ClosestApproach(m, e, SamplesOf(m, e));
    p := Assess(m, e, st);
  }

  /** The inner loop of `detectCollisions` for the first satellite i: one
      push per pair (i, j), j > i, that is reported. */
  method CollectRow(m: MathLib, satellites: seq<Satellite>, currentTime: real, i: nat,
                    ghost decide: (nat, nat) -> Option<CollisionPrediction>,
                    before: seq<CollisionPrediction>)
    returns (collisions: seq<CollisionPrediction>)
    requires SqrtLaws(m)
    requires i < |satellites|
    requires Decides(decide, m, satellites, currentTime)
    ensures collisions == before + Row(decide, i, |satellites|)
  {
    collisions := before;
    for j := i + 1 to |satellites|
      invariant collisions == before + Row(decide, i, j)
    {
      var p := AssessPair(m, satellites, currentTime, i, j, decide);
      if p.Some? {
        collisions := collisions + [p.value];
      }
    }
  }

  /** The two nested loops of `detectCollisions`: every unordered pair once,
      the first index outer. The loops are proved for any `decide` that
      agrees with `Report` on the pairs of the input. */
  method CollectPredictions(m: MathLib, satellites: seq<Satellite>, currentTime: real,
                            ghost decide: (nat, nat) -> Option<CollisionPrediction>)
    returns (collisions: seq<CollisionPrediction>)
    requires SqrtLaws(m)
    requires Decides(decide, m, satellites, currentTime)
    ensures collisions == Rows(decide, |satellites|, |satellites|)
  {
    collisions := [];
    for i := 0 to |satellites|
      invariant collisions == Rows(decide, |satellites|, i)
    {
      collisions := CollectRow(m, satellites, currentTime, i, decide, collisions);
    }
  }

  /** Reordering the predictions keeps their number and what holds of
      each of them. */
  lemma PermutedFacts(r: seq<CollisionPrediction>, c: seq<CollisionPrediction>, sats: seq<Satellite>)
    requires multiset(r) == multiset(c)
    requires forall p :: p in c ==> WithinReportBounds(p) && FromOrderedPair(sats, p)
    ensures |r| == |c|
    ensures forall k :: 0 <= k < |r| ==> WithinReportBounds(r[k]) && FromOrderedPair(sats, r[k])
  {
    assert |r| == |multiset(r)| == |multiset(c)| == |c|;
    forall k | 0 <= k < |r|
      ensures WithinReportBounds(r[k]) && FromOrderedPair(sats, r[k])
    {
      assert r[k] in multiset(c);
    }
  }

  /** `detectCollisions(satellites, currentTime)`: the collected predictions,
      ranked by score. */
  method DetectCollisions(m: MathLib, satellites: seq<Satellite>, currentTime: real)
    returns (r: seq<CollisionPrediction>)
    requires SqrtLaws(m)
    ensures multiset(r) == multiset(Collected(m, satellites, currentTime))
    ensures Scorable(r) && SortedByScore(r)
    ensures forall k :: 0 <= k < |r| ==> WithinReportBounds(r[k]) && FromOrderedPair(satellites, r[k])
    ensures 2 * |r| <= |satellites| * (|satellites| - 1)
    ensures |satellites| <= 1 ==> r == []
  {
    var collisions := CollectPredictions(m, satellites, currentTime, PairReports(m, satellites, currentTime));
    CollectedFacts(m, satellites, currentTime);
    assert Scorable(collisions) by {
      forall k | 0 <= k < |collisions| ensures 0.0 <= collisions[k].timeToCollision {
        assert collisions[k] in Collected(m, satellites, currentTime);
      }
    }
    var a := new CollisionPrediction[|collisions|](k requires 0 <= k < |collisions| => collisions[k]);
    assert a[..] == collisions;
    SortByScore(a);
    r := a[..];
    PermutedFacts(r, collisions, satellites);
  }
}
