// The time during which a step function of real time holds a given value.
//
// A tiling cuts [a, b) into consecutive non-empty half-open segments on each of
// which the function is constant. Any two tilings give every level the same
// total length (DwellIsUnique), so TimeAt is a property of the function alone.
// The dwell times of an occupancy and the covered time of a metric are both
// times of this kind: each sweep builds one tiling, and what it sums along the
// way is the time of the function it follows.
module Tilings {

  datatype Segment = Segment(from: real, to: real, level: int)

  ghost predicate Tiles(f: real -> int, t: seq<Segment>, a: real, b: real) {
    if t == [] then a == b
    else
      var last := t[|t| - 1];
      && a <= last.from < last.to == b
      && (forall x :: last.from <= x < last.to ==> f(x) == last.level)
      && Tiles(f, t[..|t| - 1], a, last.from)
  }

  function Dwell(t: seq<Segment>, k: int): real {
    if t == [] then 0.0
    else
      var last := t[|t| - 1];
      Dwell(t[..|t| - 1], k) + (if last.level == k then last.to - last.from else 0.0)
  }

  // Total time in [a, b) at which f equals k.
  ghost function TimeAt(f: real -> int, a: real, b: real, k: int): real
    requires exists t :: Tiles(f, t, a, b)
  {
    var t :| Tiles(f, t, a, b);
    Dwell(t, k)
  }

  lemma {:induction false} TilesExtend(f: real -> int, t: seq<Segment>, a: real, b: real, s: Segment)
    requires Tiles(f, t, a, b) && s.from == b < s.to
    requires forall x :: s.from <= x < s.to ==> f(x) == s.level
    ensures Tiles(f, t + [s], a, s.to)
    ensures forall k :: Dwell(t + [s], k) == Dwell(t, k) + (if s.level == k then s.to - s.from else 0.0)
  {
  }

  lemma {:induction false} DwellIsUnique(f: real -> int, t: seq<Segment>, u: seq<Segment>, a: real, b: real, k: int)
    requires Tiles(f, t, a, b) && Tiles(f, u, a, b)
    ensures Dwell(t, k) == Dwell(u, k)
    decreases |t| + |u|
  {
    if t != [] && u != [] {
      var p, q := t[|t| - 1], u[|u| - 1];
      if p.from < q.from {
        // q is the shorter last segment: cut p at q.from.
        CutLast(f, t, u, a, b, k);
      } else if q.from < p.from {
        CutLast(f, u, t, a, b, k);
      } else {
        assert f(p.from) == p.level == q.level;
        DwellIsUnique(f, t[..|t| - 1], u[..|u| - 1], a, p.from, k);
      }
    }
  }

  lemma {:induction false} CutLast(f: real -> int, t: seq<Segment>, u: seq<Segment>, a: real, b: real, k: int)
    requires t != [] && u != [] && Tiles(f, t, a, b) && Tiles(f, u, a, b)
    requires t[|t| - 1].from < u[|u| - 1].from
    ensures Dwell(t, k) == Dwell(u, k)
    decreases |t| + |u|, 0
  {
    var p, q := t[|t| - 1], u[|u| - 1];
    var front := t[..|t| - 1];
    var cut := front + [p.(to := q.from)];
    assert cut[..|front|] == front;
    assert Tiles(f, cut, a, q.from);
    assert f(q.from) == p.level == q.level;
    DwellIsUnique(f, cut, u[..|u| - 1], a, q.from, k);
  }

  lemma TimeAtIsDwell(f: real -> int, t: seq<Segment>, a: real, b: real)
    requires Tiles(f, t, a, b)
    ensures forall k :: TimeAt(f, a, b, k) == Dwell(t, k)
  {
    forall k ensures TimeAt(f, a, b, k) == Dwell(t, k) {
      var u :| Tiles(f, u, a, b) && TimeAt(f, a, b, k) == Dwell(u, k);
      DwellIsUnique(f, t, u, a, b, k);
    }
  }

  lemma {:induction false} DwellNonNegative(f: real -> int, t: seq<Segment>, a: real, b: real, k: int)
    requires Tiles(f, t, a, b)
    ensures Dwell(t, k) >= 0.0
  {
    if t != [] {
      DwellNonNegative(f, t[..|t| - 1], a, t[|t| - 1].from, k);
    }
  }

  // A level takes positive time exactly when the function reaches it in [a, b).
  lemma {:induction false} ReachedHasTime(f: real -> int, t: seq<Segment>, a: real, b: real, x: real)
    requires Tiles(f, t, a, b) && a <= x < b
    ensures Dwell(t, f(x)) > 0.0
  {
    var last := t[|t| - 1];
    var front := t[..|t| - 1];
    DwellNonNegative(f, front, a, last.from, f(x));
    if x < last.from {
      ReachedHasTime(f, front, a, last.from, x);
    }
  }

  lemma {:induction false} TimeIsReached(f: real -> int, t: seq<Segment>, a: real, b: real, k: int) returns (x: real)
    requires Tiles(f, t, a, b) && Dwell(t, k) > 0.0
    ensures a <= x < b && f(x) == k
  {
    var last := t[|t| - 1];
    if last.level == k {
      x := last.from;
    } else {
      x := TimeIsReached(f, t[..|t| - 1], a, last.from, k);
    }
  }
}
