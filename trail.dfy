/** The fading trail of a body: time-stamped samples of its position, the
    age filter that prunes them and the per-vertex opacity derived from a
    sample's age. The buffers handed to the line geometry are built by
    BuildAttributes. */
module Trail {
  import opened Vectors

  /** A trail point: a copy of the body's position and the clock reading
      (in seconds) at which it was taken. */
  datatype TrailPoint = TrailPoint(pos: Vec3, time: real)

  /** A point survives the filter when its age is at most `duration`;
      a point at exactly the boundary is kept. */
  predicate Fresh(p: TrailPoint, now: real, duration: real) {
    now - p.time <= duration
  }

  /** Samples are stored oldest first. */
  predicate Chronological(ps: seq<TrailPoint>) {
    forall i, j :: 0 <= i < j < |ps| ==> ps[i].time <= ps[j].time
  }

  /** `a` is `b` with some elements removed and the rest in their order
      (matched greedily from the front). */
  predicate IsSubsequence(a: seq<TrailPoint>, b: seq<TrailPoint>)
    decreases |b|
  {
    if a == [] then true
    else if b == [] then false
    else if a[0] == b[0] then IsSubsequence(a[1..], b[1..])
    else IsSubsequence(a, b[1..])
  }

  /** The points that `trailPoints.filter` keeps: the fresh ones, in their
      original order. */
  function Retain(ps: seq<TrailPoint>, now: real, duration: real): (r: seq<TrailPoint>)
    ensures |r| <= |ps|
    ensures forall i :: 0 <= i < |r| ==> now - r[i].time <= duration
    decreases |ps|
  {
    if ps == [] then []
    else if Fresh(ps[0], now, duration) then [ps[0]] + Retain(ps[1..], now, duration)
    else Retain(ps[1..], now, duration)
  }

  /** The filter keeps exactly the fresh points: nothing is invented and no
      fresh point is lost. */
  lemma {:induction false} RetainExactlyFresh(ps: seq<TrailPoint>, now: real, duration: real)
    ensures forall p :: p in Retain(ps, now, duration) <==> p in ps && Fresh(p, now, duration)
    decreases |ps|
  {
    if ps != [] {
      RetainExactlyFresh(ps[1..], now, duration);
      assert ps == [ps[0]] + ps[1..];
    }
  }

  /** The filter keeps every copy of a fresh point and no copy of a stale
      one: a point pushed twice (two equal clock readings of a paused body)
      survives twice. */
  lemma {:induction false} RetainCounts(ps: seq<TrailPoint>, now: real, duration: real)
    ensures forall p ::
      multiset(Retain(ps, now, duration))[p] == if Fresh(p, now, duration) then multiset(ps)[p] else 0
    decreases |ps|
  {
    if ps != [] {
      RetainCounts(ps[1..], now, duration);
      assert ps == [ps[0]] + ps[1..];
    }
  }

  /** The kept points appear in the same relative order as before. */
  lemma {:induction false} RetainIsSubsequence(ps: seq<TrailPoint>, now: real, duration: real)
    ensures IsSubsequence(Retain(ps, now, duration), ps)
    decreases |ps|
  {
    if ps != [] {
      var rest := Retain(ps[1..], now, duration);
      RetainIsSubsequence(ps[1..], now, duration);
      if Fresh(ps[0], now, duration) {
        assert ([ps[0]] + rest)[1..] == rest;
      } else if rest != [] {
        RetainExactlyFresh(ps[1..], now, duration);
        assert rest[0] in rest;
        assert rest[0] != ps[0];
      }
    }
  }

  /** A subsequence of a chronological trail is chronological. */
  lemma {:induction false} SubsequenceKeepsOrder(a: seq<TrailPoint>, b: seq<TrailPoint>)
    requires IsSubsequence(a, b) && Chronological(b)
    ensures Chronological(a)
    decreases |b|
  {
    if a != [] && b != [] {
      assert Chronological(b[1..]) by {
        forall i, j | 0 <= i < j < |b[1..]| ensures b[1..][i].time <= b[1..][j].time {
          assert b[1..][i] == b[i + 1] && b[1..][j] == b[j + 1];
        }
      }
      if a[0] == b[0] {
        SubsequenceKeepsOrder(a[1..], b[1..]);
        SubsequenceIn(a[1..], b[1..]);
        forall i, j | 0 <= i < j < |a| ensures a[i].time <= a[j].time {
          if i > 0 {
            assert a[1..][i - 1] == a[i] && a[1..][j - 1] == a[j];
          } else {
            assert a[1..][j - 1] == a[j];
            assert a[j] in b[1..];
          }
        }
      } else {
        SubsequenceKeepsOrder(a, b[1..]);
      }
    }
  }

  lemma {:induction false} SubsequenceIn(a: seq<TrailPoint>, b: seq<TrailPoint>)
    requires IsSubsequence(a, b)
    ensures forall p :: p in a ==> p in b
    decreases |b|
  {
    if a != [] && b != [] {
      if a[0] == b[0] {
        SubsequenceIn(a[1..], b[1..]);
        assert a == [a[0]] + a[1..];
      } else {
        SubsequenceIn(a, b[1..]);
      }
      assert forall p :: p in b[1..] ==> p in b;
    }
  }

  /** Filtering a chronological trail leaves it chronological. */
  lemma RetainKeepsOrder(ps: seq<TrailPoint>, now: real, duration: real)
    requires Chronological(ps)
    ensures Chronological(Retain(ps, now, duration))
  {
    RetainIsSubsequence(ps, now, duration);
    SubsequenceKeepsOrder(Retain(ps, now, duration), ps);
  }

  /** When every point is fresh the filter changes nothing. */
  lemma {:induction false} RetainAllFresh(ps: seq<TrailPoint>, now: real, duration: real)
    requires forall i :: 0 <= i < |ps| ==> Fresh(ps[i], now, duration)
    ensures Retain(ps, now, duration) == ps
    decreases |ps|
  {
    if ps != [] {
      assert forall i :: 0 <= i < |ps[1..]| ==> ps[1..][i] == ps[i + 1];
      RetainAllFresh(ps[1..], now, duration);
      assert ps == [ps[0]] + ps[1..];
    }
  }

  /** Opacity of a point: 1 for a point taken now, falling linearly to 0 at
      age `duration`. */
  function Alpha(p: TrailPoint, now: real, duration: real): (a: real)
    requires duration > 0.0
    ensures 0.0 <= now - p.time <= duration ==> 0.0 <= a <= 1.0
    ensures now - p.time <= duration ==> a >= 0.0
    ensures p.time <= now ==> a <= 1.0
    ensures p.time == now ==> a == 1.0
    ensures now - p.time == duration ==> a == 0.0
  {
    1.0 - ((now - p.time) / duration)
  }

  /** Appending a point and filtering equals filtering and then appending
      the point's own filter result. */
  lemma {:induction false} RetainAppend(ps: seq<TrailPoint>, p: TrailPoint, now: real, duration: real)
    ensures Retain(ps + [p], now, duration) ==
      Retain(ps, now, duration) + (if Fresh(p, now, duration) then [p] else [])
    decreases |ps|
  {
    if ps == [] {
      assert ps + [p] == [p];
      assert [p][1..] == [];
    } else {
      assert (ps + [p])[1..] == ps[1..] + [p];
      RetainAppend(ps[1..], p, now, duration);
    }
  }

  /** The point pushed in this frame (age 0) always survives the filter as
      the newest point, and the older points are filtered as before. */
  lemma PushedPointSurvives(ps: seq<TrailPoint>, pos: Vec3, now: real, duration: real)
    requires duration >= 0.0
    ensures var r := Retain(ps + [TrailPoint(pos, now)], now, duration);
      r == Retain(ps, now, duration) + [TrailPoint(pos, now)] &&
      |r| > 0 && r[|r| - 1] == TrailPoint(pos, now)
  {
    RetainAppend(ps, TrailPoint(pos, now), now, duration);
  }

  /** Pushing a point stamped `now` onto a chronological trail whose
      points are no later than `now` keeps it chronological. */
  lemma PushKeepsOrder(ps: seq<TrailPoint>, pos: Vec3, now: real)
    requires Chronological(ps)
    requires forall i :: 0 <= i < |ps| ==> ps[i].time <= now
    ensures Chronological(ps + [TrailPoint(pos, now)])
  {
    var qs := ps + [TrailPoint(pos, now)];
    forall i, j | 0 <= i < j < |qs| ensures qs[i].time <= qs[j].time {
      if j < |ps| {
        assert qs[i] == ps[i] && qs[j] == ps[j];
      } else {
        assert qs[i] == ps[i];
      }
    }
  }

  /** A trail as the clock leaves it when it never runs backwards: oldest
      first and no point stamped later than `now`. */
  predicate History(ps: seq<TrailPoint>, now: real) {
    Chronological(ps) && forall i :: 0 <= i < |ps| ==> ps[i].time <= now
  }

  /** One trail update (push a point stamped `now`, then filter) keeps the
      trail a history: the order is preserved, and every retained point has
      an age between 0 and `duration`. */
  lemma PushPruneKeepsHistory(ps: seq<TrailPoint>, pos: Vec3, now: real, duration: real)
    requires History(ps, now)
    ensures var r := Retain(ps + [TrailPoint(pos, now)], now, duration);
      History(r, now) && forall i :: 0 <= i < |r| ==> 0.0 <= now - r[i].time <= duration
  {
    var qs := ps + [TrailPoint(pos, now)];
    var r := Retain(qs, now, duration);
    PushKeepsOrder(ps, pos, now);
    RetainKeepsOrder(qs, now, duration);
    RetainExactlyFresh(qs, now, duration);
    forall i | 0 <= i < |r| ensures r[i].time <= now {
      assert r[i] in r;
      var j :| 0 <= j < |qs| && qs[j] == r[i];
    }
  }

  /** Flattens the trail into the `position` attribute and the opacities
      into the `aAlpha` attribute, one loop iteration per point. */
  method BuildAttributes(ps: seq<TrailPoint>, now: real, duration: real)
      returns (positions: seq<real>, alphas: seq<real>)
    requires duration > 0.0
    ensures |positions| == 3 * |ps| && |alphas| == |ps|
    ensures forall i :: 0 <= i < |ps| ==>
      positions[3 * i] == ps[i].pos.x && positions[3 * i + 1] == ps[i].pos.y &&
      positions[3 * i + 2] == ps[i].pos.z
    ensures forall i :: 0 <= i < |ps| ==> alphas[i] == Alpha(ps[i], now, duration)
  {
    positions, alphas := [], [];
    var k := 0;
    while k < |ps|
      invariant 0 <= k <= |ps|
      invariant |positions| == 3 * k && |alphas| == k
      invariant forall i :: 0 <= i < k ==>
        positions[3 * i] == ps[i].pos.x && positions[3 * i + 1] == ps[i].pos.y &&
        positions[3 * i + 2] == ps[i].pos.z
      invariant forall i :: 0 <= i < k ==> alphas[i] == Alpha(ps[i], now, duration)
    {
      var point := ps[k];
      positions := positions + [point.pos.x, point.pos.y, point.pos.z];
      var alpha := 1.0 - ((now - point.time) / duration);
      alphas := alphas + [alpha];
      k := k + 1;
    }
  }

  /** Pruning with a five-second window: samples taken at t = 0, 1, ..., 10
      and filtered at t = 10 keep t = 5 .. 10, the one at t = 5 with
      opacity 0 and the one at t = 10 with opacity 1. */
  lemma PruningExample(pos: Vec3)
    ensures var ps := seq(11, i => TrailPoint(pos, i as real));
      var r := Retain(ps, 10.0, 5.0);
      r == seq(6, i => TrailPoint(pos, (i + 5) as real)) &&
      Alpha(r[0], 10.0, 5.0) == 0.0 && Alpha(r[5], 10.0, 5.0) == 1.0
  {
    var ps := seq(11, i => TrailPoint(pos, i as real));
    var kept := seq(6, i => TrailPoint(pos, (i + 5) as real));
    assert ps == seq(5, i => TrailPoint(pos, i as real)) + kept;
    var k := 5;
    while k > 0
      invariant 0 <= k <= 5
      invariant Retain(ps[k..], 10.0, 5.0) == Retain(ps[5..], 10.0, 5.0)
    {
      assert ps[k - 1..][1..] == ps[k..];
      assert !Fresh(ps[k - 1], 10.0, 5.0);
      k := k - 1;
    }
    assert ps[0..] == ps;
    assert ps[5..] == kept;
    RetainAllFresh(kept, 10.0, 5.0);
  }
}
