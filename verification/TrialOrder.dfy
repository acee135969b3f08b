// The order of concurrency levels over rounds (spark_bench/experiment.py, trial_order):
// odd rounds run backwards, and every two rounds the start moves on by one.
module TrialOrder {

  function Reverse(s: seq<int>): (r: seq<int>)
    ensures |r| == |s| && forall i :: 0 <= i < |s| ==> r[i] == s[|s| - 1 - i]
  {
    if s == [] then [] else Reverse(s[1..]) + [s[0]]
  }

  // The levels of one round, in order.
  function Round(levels: seq<int>, r: nat): (round: seq<int>)
    requires levels != []
    ensures |round| == |levels|
  {
    var ordered := if r % 2 == 0 then levels else Reverse(levels);
    var shift := (r / 2) % |ordered|;
    ordered[shift..] + ordered[..shift]
  }

  function Numbered(r: nat, round: seq<int>): (s: seq<(nat, int)>)
    ensures |s| == |round| && forall p :: 0 <= p < |s| ==> s[p] == (r, round[p])
  {
    seq(|round|, p requires 0 <= p < |round| => (r, round[p]))
  }

  function Schedule(levels: seq<int>, rounds: nat): (s: seq<(nat, int)>)
    requires levels != []
    ensures |s| == rounds * |levels|
  {
    if rounds == 0 then [] else Schedule(levels, rounds - 1) + Numbered(rounds - 1, Round(levels, rounds - 1))
  }

  method Order(levels: seq<int>, iterations: nat) returns (order: seq<(nat, int)>)
    requires levels != []
    ensures order == Schedule(levels, iterations)
  {
    order := [];
    for iteration := 0 to iterations
      invariant order == Schedule(levels, iteration)
    {
      var ordered := if iteration % 2 == 0 then levels else Reverse(levels);
      var shift := (iteration / 2) % |ordered|;
      var round := YieldRound(iteration, ordered[shift..] + ordered[..shift]);
      order := order + round;
    }
  }

  method YieldRound(iteration: nat, round: seq<int>) returns (yielded: seq<(nat, int)>)
    ensures yielded == Numbered(iteration, round)
  {
    yielded := [];
    for p := 0 to |round|
      invariant yielded == Numbered(iteration, round[..p])
    {
      yielded := yielded + [(iteration, round[p])];
    }
    assert round[..|round|] == round;
  }

  // The p-th run of round r stands at place r * n + p of the whole order.
  lemma {:induction false} ScheduleAt(levels: seq<int>, rounds: nat, r: nat, p: nat)
    requires levels != [] && r < rounds && p < |levels|
    ensures r * |levels| + p < |Schedule(levels, rounds)|
    ensures Schedule(levels, rounds)[r * |levels| + p] == (r, Round(levels, r)[p])
  {
    var before, k := Schedule(levels, rounds - 1), r * |levels| + p;
    PlaceInOrder(r, rounds, p, |levels|);
    if r < rounds - 1 {
      ScheduleAt(levels, rounds - 1, r, p);
      assert k < |before|;
    } else {
      assert k == |before| + p;
    }
  }

  lemma PlaceInOrder(r: nat, rounds: nat, p: nat, n: nat)
    requires r < rounds && p < n
    ensures 0 <= r * n + p < rounds * n == (rounds - 1) * n + n
    ensures r < rounds - 1 ==> r * n + p < (rounds - 1) * n
  {
    if r < rounds - 1 {
      PlaceInOrder(r, rounds - 1, p, n);
    }
  }

  // ---- arithmetic of the rotation -------------------------------------------------------

  lemma NoMultipleBetween(n: nat, d: int)
    requires n * d < n && 0 < n * d + n
    ensures d == 0
  {
  }

  lemma RemainderIs(x: nat, n: nat, q: nat, r: nat)
    requires r < n && x == n * q + r
    ensures x % n == r
  {
    assert x == n * (x / n) + x % n;
    assert n * (x / n - q) == r - x % n;
    NoMultipleBetween(n, x / n - q);
  }

  // p + j around a circle of n places
  function Around(p: nat, j: nat, n: nat): nat
    requires p < n && j < n
  {
    if p + j < n then p + j else p + j - n
  }

  lemma HalfRound(n: nat, block: nat, q: nat)
    requires q < 2 * n
    ensures 0 <= 2 * (n * block) + q && (2 * (n * block) + q) % 2 == q % 2
    ensures ((2 * (n * block) + q) / 2) % n == q / 2
  {
    assert 0 <= n * block;
    RemainderIs((2 * (n * block) + q) / 2, n, block, q / 2);
  }

  // The level at position p of the q-th round of a block of 2n rounds.
  function At(levels: seq<int>, block: nat, q: nat, p: nat): int
    requires p < |levels| && q < 2 * |levels|
  {
    HalfRound(|levels|, block, q);
    Round(levels, 2 * (|levels| * block) + q)[p]
  }

  // The place of the level list that round q of a block brings to position p.
  function PlaceAt(p: nat, q: nat, n: nat): (place: nat)
    requires p < n && q < 2 * n
    ensures place < n
  {
    if q % 2 == 0 then Around(p, q / 2, n) else n - 1 - Around(p, q / 2, n)
  }

  lemma AtIs(levels: seq<int>, block: nat, q: nat, p: nat)
    requires p < |levels| && q < 2 * |levels|
    ensures At(levels, block, q, p) == levels[PlaceAt(p, q, |levels|)]
  {
    HalfRound(|levels|, block, q);
  }

  // ---- balance ------------------------------------------------------------------------------

  // Every round runs every level, as often as it is listed.
  lemma RoundIsPermutation(levels: seq<int>, r: nat)
    requires levels != []
    ensures multiset(Round(levels, r)) == multiset(levels)
  {
    var ordered := if r % 2 == 0 then levels else Reverse(levels);
    var shift := (r / 2) % |ordered|;
    ReverseKeeps(levels);
    assert ordered[..shift] + ordered[shift..] == ordered;
    assert multiset(ordered[shift..] + ordered[..shift]) == multiset(ordered[..shift] + ordered[shift..]);
  }

  lemma {:induction false} ReverseKeeps(s: seq<int>)
    ensures multiset(Reverse(s)) == multiset(s)
  {
    if s != [] {
      ReverseKeeps(s[1..]);
      assert s == [s[0]] + s[1..];
    }
  }

  ghost predicate Distinct(s: seq<int>) {
    forall i, j :: 0 <= i < j < |s| ==> s[i] != s[j]
  }

  // The rounds of one block of 2n in which a level stands at a position.
  ghost function RoundsWith(levels: seq<int>, block: nat, p: nat, level: int): set<nat>
    requires p < |levels|
  {
    set q: nat | q < 2 * |levels| && At(levels, block, q, p) == level
  }

  // How far a circle of n places turns to bring place l to place p.
  function Turn(l: nat, p: nat, n: nat): (j: nat)
    requires l < n && p < n
    ensures j < n && Around(p, j, n) == l
  {
    if l >= p then l - p else l + n - p
  }

  lemma PlaceIs(l: nat, p: nat, q: nat, n: nat)
    requires l < n && p < n && q < 2 * n
    ensures PlaceAt(p, q, n) == l <==> q == 2 * Turn(l, p, n) || q == 2 * Turn(n - 1 - l, p, n) + 1
  {
    assert q == 2 * (q / 2) + q % 2;
  }

  lemma SameLevel(levels: seq<int>, k: nat, l: nat)
    requires Distinct(levels) && k < |levels| && l < |levels|
    ensures levels[k] == levels[l] <==> k == l
  {
  }

  lemma StandsAt(levels: seq<int>, block: nat, p: nat, l: nat, q: nat)
    requires Distinct(levels) && p < |levels| && l < |levels| && q < 2 * |levels|
    ensures var n := |levels|;
            At(levels, block, q, p) == levels[l] <==> q == 2 * Turn(l, p, n) || q == 2 * Turn(n - 1 - l, p, n) + 1
  {
    AtIs(levels, block, q, p);
    SameLevel(levels, PlaceAt(p, q, |levels|), l);
    PlaceIs(l, p, q, |levels|);
  }

  lemma StandsTwice(levels: seq<int>, block: nat, p: nat, l: nat, a: nat, b: nat)
    requires Distinct(levels) && p < |levels| && l < |levels|
    requires a == Turn(l, p, |levels|) && b == Turn(|levels| - 1 - l, p, |levels|)
    ensures RoundsWith(levels, block, p, levels[l]) == {2 * a, 2 * b + 1}
  {
    forall q: nat ensures q in RoundsWith(levels, block, p, levels[l]) <==> q in {2 * a, 2 * b + 1} {
      if q < 2 * |levels| {
        StandsAt(levels, block, p, l, q);
      }
    }
  }

  lemma PairSize(s: set<nat>, a: nat, b: nat)
    requires s == {2 * a, 2 * b + 1}
    ensures |s| == 2
  {
    assert 2 * a != 2 * b + 1;
  }

  // Over any 2n rounds that start at a multiple of 2n, each level stands at each position
  // exactly twice: once in a forward round and once in a backward one.
  lemma BalancedOverBlock(levels: seq<int>, block: nat, p: nat, l: nat) returns (a: nat, b: nat)
    requires Distinct(levels) && p < |levels| && l < |levels|
    ensures RoundsWith(levels, block, p, levels[l]) == {2 * a, 2 * b + 1}
    ensures |RoundsWith(levels, block, p, levels[l])| == 2
  {
    a, b := Turn(l, p, |levels|), Turn(|levels| - 1 - l, p, |levels|);
    StandsTwice(levels, block, p, l, a, b);
    PairSize(RoundsWith(levels, block, p, levels[l]), a, b);
  }
}
