/** Poisson-disk sampling of a surface from presampled points, as the calibration
    visualiser does it.  Whatever the random choices are, the accepted points are farther
    apart than the minimal distance, and they cover what they can reach. */
module PoissonDisk {

  datatype Point = Point(x: real, y: real, z: real)

  /** A presampled point with whatever else is known about it (normal and colour). */
  datatype Sample = Sample(at: Point, attributes: seq<real>)

  function Square(x: real): real {
    x * x
  }

  function SquaredDistance(a: Point, b: Point): real {
    Square(a.x - b.x) + Square(a.y - b.y) + Square(a.z - b.z)
  }

  /** What a range query around `a` finds: all samples up to and including the radius. */
  predicate Near(a: Sample, b: Sample, radius: real) {
    SquaredDistance(a.at, b.at) <= Square(radius)
  }

  lemma SquareOfDifference(x: real, y: real)
    ensures Square(x - y) == Square(y - x) && Square(x) >= 0.0
  {
    var d := x - y;
    assert (-d) * (-d) == d * d;
    assert x * x >= 0.0;
  }

  lemma NearIsSymmetric(a: Sample, b: Sample, radius: real)
    ensures Near(a, b, radius) <==> Near(b, a, radius)
  {
    SquareOfDifference(a.at.x, b.at.x);
    SquareOfDifference(a.at.y, b.at.y);
    SquareOfDifference(a.at.z, b.at.z);
  }

  lemma NearItself(a: Sample, radius: real)
    ensures Near(a, a, radius)
  {
    SquareOfDifference(radius, 0.0);
    assert Square(0.0) == 0.0;
  }

  predicate InAnnulus(c: Sample, p: Sample, r: real) {
    Near(c, p, 2.0 * r) && !Near(c, p, r)
  }

  // ---- What a sampling promises ----

  ghost predicate Separated(s: seq<Sample>, r: real) {
    forall i, j :: 0 <= i < |s| && 0 <= j < |s| && i != j ==> !Near(s[i], s[j], r)
  }

  ghost predicate Apart(s: seq<Sample>, t: seq<Sample>, r: real) {
    forall a, b :: a in s && b in t ==> !Near(a, b, r) && !Near(b, a, r)
  }

  ghost predicate IsCovered(p: Sample, s: seq<Sample>, r: real) {
    exists a :: a in s && Near(a, p, r)
  }

  ghost predicate IsOutOfReach(p: Sample, s: seq<Sample>, r: real) {
    forall a :: a in s ==> !Near(a, p, 2.0 * r)
  }

  // ---- Bookkeeping ----

  ghost function Unused(flags: seq<bool>): set<int> {
    set i | 0 <= i < |flags| && flags[i]
  }

  /** The points found so far; each used presample is covered by one of them, and around
      each accepted one all presamples in its annulus are used. */
  ghost predicate Progress(pre: seq<Sample>, flags: seq<bool>, candidates: seq<Sample>, accepted: seq<Sample>, r: real) {
    && |flags| == |pre|
    && Separated(candidates, r) && Separated(accepted, r) && Apart(candidates, accepted, r)
    && (forall a :: a in candidates + accepted ==> a in pre)
    && (forall k :: 0 <= k < |pre| && !flags[k] ==> IsCovered(pre[k], candidates + accepted, r))
    && (forall a, k :: a in accepted && 0 <= k < |pre| && InAnnulus(a, pre[k], r) ==> !flags[k])
  }

  lemma CoverageGrows(p: Sample, s: seq<Sample>, t: seq<Sample>, r: real)
    requires IsCovered(p, s, r) && forall a :: a in s ==> a in t
    ensures IsCovered(p, t, r)
  {
  }

  lemma AppendIsSeparated(s: seq<Sample>, t: seq<Sample>, a: Sample, r: real)
    requires Separated(s, r) && Apart(s, t, r)
    requires forall b :: b in s + t ==> !Near(a, b, r)
    ensures Separated(s + [a], r) && Apart(s + [a], t, r)
  {
    forall b | b in s + t
      ensures !Near(b, a, r)
    {
      NearIsSymmetric(a, b, r);
    }
    assert forall i | 0 <= i < |s| :: s[i] in s + t;
  }

  lemma MoveIsSeparated(candidates: seq<Sample>, j: nat, accepted: seq<Sample>, r: real)
    requires j < |candidates|
    requires Separated(candidates, r) && Separated(accepted, r) && Apart(candidates, accepted, r)
    ensures var rest := candidates[..j] + candidates[j+1..];
            Separated(rest, r) && Separated(accepted + [candidates[j]], r)
            && Apart(rest, accepted + [candidates[j]], r)
  {
    var rest := candidates[..j] + candidates[j+1..];
    assert forall i | 0 <= i < |rest| :: rest[i] == candidates[if i < j then i else i + 1];
    assert candidates[j] in candidates;
    assert forall i | 0 <= i < |accepted| :: accepted[i] in accepted;
  }

  // ---- The algorithm ----

  /** The unused presamples in the annulus around a candidate; they count as used from now
      on.  The set of indices is walked through in any order. */
  method AnnulusPoints(pre: seq<Sample>, flags: seq<bool>, c: Sample, r: real)
    returns (pool: seq<Sample>, flags': seq<bool>)
    requires |flags| == |pre|
    ensures |flags'| == |pre|
    ensures forall k :: 0 <= k < |pre| ==> (flags'[k] <==> flags[k] && !InAnnulus(c, pre[k], r))
    ensures forall a :: a in pool ==> a in pre
    ensures forall k :: 0 <= k < |pre| && flags[k] && InAnnulus(c, pre[k], r) ==> pre[k] in pool
    ensures Unused(flags') <= Unused(flags)
    ensures pool != [] ==> Unused(flags') < Unused(flags)
  {
    pool, flags' := [], flags;
    var indices := set i | 0 <= i < |pre| && InAnnulus(c, pre[i], r);
    var rest := indices;
    while rest != {}
      invariant rest <= indices && |flags'| == |pre|
      invariant forall k :: 0 <= k < |pre| ==> (flags'[k] <==> flags[k] && (k in indices ==> k in rest))
      invariant forall a :: a in pool ==> a in pre
      invariant forall k :: k in indices && k !in rest && flags[k] ==> pre[k] in pool
      invariant pool != [] ==> exists k :: k in indices && k !in rest && flags[k]
      decreases rest
    {
      var i :| i in rest;
      if flags'[i] {
        pool := pool + [pre[i]];
        flags' := flags'[i := false];
      }
      rest := rest - {i};
    }
    if pool != [] {
      ghost var k :| k in indices && flags[k];
      assert k in Unused(flags) && k !in Unused(flags');
    }
  }

  /** Whether some point found so far is within the minimal distance. */
  method IsTaken(a: Sample, points: seq<Sample>, r: real) returns (taken: bool)
    ensures taken <==> exists b :: b in points && Near(a, b, r)
  {
    for i := 0 to |points|
      invariant forall k :: 0 <= k < i ==> !Near(a, points[k], r)
    {
      if Near(a, points[i], r) {
        return true;
      }
    }
    return false;
  }

  /** Adds those points of the pool as candidates that are far enough from all others. */
  method AddCandidates(pre: seq<Sample>, pool: seq<Sample>, candidates: seq<Sample>, accepted: seq<Sample>, r: real)
    returns (candidates': seq<Sample>, added: bool)
    requires Separated(candidates, r) && Apart(candidates, accepted, r)
    requires forall a :: a in pool || a in candidates ==> a in pre
    ensures Separated(candidates', r) && Apart(candidates', accepted, r)
    ensures candidates <= candidates' && forall a :: a in candidates' ==> a in pre
    ensures forall a :: a in pool ==> IsCovered(a, candidates' + accepted, r)
    ensures if added then pool != [] else candidates' == candidates
  {
    candidates', added := candidates, false;
    for i := 0 to |pool|
      invariant Separated(candidates', r) && Apart(candidates', accepted, r)
      invariant candidates <= candidates' && forall a :: a in candidates' ==> a in pre
      invariant forall k :: 0 <= k < i ==> IsCovered(pool[k], candidates' + accepted, r)
      invariant if added then pool != [] else candidates' == candidates
    {
      var a, before := pool[i], candidates' + accepted;
      var taken := IsTaken(a, before, r);
      if taken {
        ghost var b :| b in before && Near(a, b, r);
        NearIsSymmetric(a, b, r);
      } else {
        AppendIsSeparated(candidates', accepted, a, r);
        candidates', added := candidates' + [a], true;
        forall k | 0 <= k < i
          ensures IsCovered(pool[k], candidates' + accepted, r)
        {
          CoverageGrows(pool[k], before, candidates' + accepted, r);
        }
        NearItself(a, r);
        assert a in candidates' + accepted;
      }
    }
  }

  /** Removes the first sample that equals `c`. */
  method RemoveFirst(s: seq<Sample>, c: Sample) returns (s': seq<Sample>, ghost j: nat)
    requires c in s
    ensures j < |s| && s[j] == c && s' == s[..j] + s[j+1..]
  {
    var i := 0;
    while s[i] != c
      invariant 0 <= i < |s| && c in s[i..]
      decreases |s| - i
    {
      i := i + 1;
    }
    j := i;
    s' := s[..i] + s[i+1..];
  }

  /** After the annulus of `c` was used up and its points were tried as candidates. */
  lemma TryingKeepsProgress(pre: seq<Sample>, flags: seq<bool>, flags': seq<bool>, c: Sample, pool: seq<Sample>,
                            candidates: seq<Sample>, candidates': seq<Sample>, accepted: seq<Sample>, r: real)
    requires Progress(pre, flags, candidates, accepted, r) && |flags'| == |pre|
    requires forall k :: 0 <= k < |pre| ==> (flags'[k] <==> flags[k] && !InAnnulus(c, pre[k], r))
    requires forall k :: 0 <= k < |pre| && flags[k] && InAnnulus(c, pre[k], r) ==> pre[k] in pool
    requires Separated(candidates', r) && Apart(candidates', accepted, r)
    requires candidates <= candidates' && forall a :: a in candidates' ==> a in pre
    requires forall a :: a in pool ==> IsCovered(a, candidates' + accepted, r)
    ensures Progress(pre, flags', candidates', accepted, r)
  {
    forall k | 0 <= k < |pre| && !flags'[k]
      ensures IsCovered(pre[k], candidates' + accepted, r)
    {
      if !flags[k] {
        CoverageGrows(pre[k], candidates + accepted, candidates' + accepted, r);
      }
    }
    forall a | a in candidates' + accepted
      ensures a in pre
    {
      assert a in accepted ==> a in candidates + accepted;
    }
  }

  /** After a candidate whose annulus is used up was accepted. */
  lemma AcceptingKeepsProgress(pre: seq<Sample>, flags: seq<bool>, candidates: seq<Sample>, j: nat,
                               accepted: seq<Sample>, r: real)
    requires Progress(pre, flags, candidates, accepted, r) && j < |candidates|
    requires forall k :: 0 <= k < |pre| && InAnnulus(candidates[j], pre[k], r) ==> !flags[k]
    ensures Progress(pre, flags, candidates[..j] + candidates[j+1..], accepted + [candidates[j]], r)
  {
    var rest, accepted' := candidates[..j] + candidates[j+1..], accepted + [candidates[j]];
    MoveIsSeparated(candidates, j, accepted, r);
    assert candidates == candidates[..j] + [candidates[j]] + candidates[j+1..];
    assert forall a :: a in candidates + accepted <==> a in rest + accepted';
    forall k | 0 <= k < |pre| && !flags[k]
      ensures IsCovered(pre[k], rest + accepted', r)
    {
      CoverageGrows(pre[k], candidates + accepted, rest + accepted', r);
    }
  }

  /** Chooses a subset of the presamples.  It ends whatever the random choices are: each
      turn either uses up presamples or turns a candidate into an accepted point. */
  method SampleSurface(pre: seq<Sample>, r: real) returns (accepted: seq<Sample>)
    requires pre != [] && r > 0.0
    ensures accepted != [] && forall a :: a in accepted ==> a in pre
    ensures Separated(accepted, r)
    ensures forall p :: p in pre ==> IsCovered(p, accepted, r) || IsOutOfReach(p, accepted, r)
  {
    var flags := seq(|pre|, _ => true);
    var start :| 0 <= start < |pre|;
    flags := flags[start := false];
    var candidates := [pre[start]];
    accepted := [];
    NearItself(pre[start], r);

    while |candidates| != 0
      invariant Progress(pre, flags, candidates, accepted, r)
      invariant candidates != [] || accepted != []
      decreases Unused(flags), |candidates|
    {
      var i :| 0 <= i < |candidates|;
      var c := candidates[i];
      var pool, flags' := AnnulusPoints(pre, flags, c, r);
      assert forall a :: a in candidates ==> a in candidates + accepted;
      var candidates', added := AddCandidates(pre, pool, candidates, accepted, r);
      TryingKeepsProgress(pre, flags, flags', c, pool, candidates, candidates', accepted, r);
      flags, candidates := flags', candidates';
      if !added {
        ghost var before := candidates;
        ghost var j;
        candidates, j := RemoveFirst(candidates, c);
        AcceptingKeepsProgress(pre, flags, before, j, accepted, r);
        accepted := accepted + [c];
      }
    }
    CoveredAtTheEnd(pre, flags, accepted, r);
  }

  lemma CoveredAtTheEnd(pre: seq<Sample>, flags: seq<bool>, accepted: seq<Sample>, r: real)
    requires Progress(pre, flags, [], accepted, r)
    ensures forall a :: a in accepted ==> a in pre
    ensures forall p :: p in pre ==> IsCovered(p, accepted, r) || IsOutOfReach(p, accepted, r)
  {
    assert [] + accepted == accepted;
    forall p | p in pre && !IsOutOfReach(p, accepted, r)
      ensures IsCovered(p, accepted, r)
    {
      var k :| 0 <= k < |pre| && pre[k] == p;
      var a :| a in accepted && Near(a, p, 2.0 * r);
      if !Near(a, p, r) {
        assert InAnnulus(a, pre[k], r);
      }
    }
  }
}
