// The correction of fused gate and up block scales to one shared global scale
// (recipes/glm53-nvfp4/nvfp4_scale_reconcile.py). Scale factors and products are exact reals.
module ScaleCorrection {
  import opened Wrappers
  import opened E4M3

  const CHUNK := 8

  datatype Number = Finite(value: real) | NotFinite

  // The shapes of the tensor of global scales; the rows of a matrix have `columns` entries.
  datatype Globals =
    | Vector(values: seq<Number>)
    | Matrix(rows: seq<seq<Number>>, columns: nat)
    | OtherShape
  {
    ghost predicate Rectangular() {
      Matrix? ==> forall i :: 0 <= i < |rows| ==> |rows[i]| == columns
    }
  }

  datatype ScaleError = BadShape | BadGlobalShape | BadGlobals | BadScales

  // The global scales of one expert's gate and up halves.
  datatype Pair = Pair(gate: real, up: real) {
    predicate Valid() {
      gate >= 0.0 && up >= 0.0
    }

    predicate Unequal() {
      gate != up
    }

    function Shared(): real {
      if gate >= up then gate else up
    }

    function Own(isUp: bool): real {
      if isUp then up else gate
    }

    function Ratio(isUp: bool): (r: real)
      requires Valid()
      ensures 0.0 <= r <= 1.0
      ensures Shared() > 0.0 ==> r * Shared() == Own(isUp)
    {
      RatioBounds(Own(isUp), Shared());
      Own(isUp) / (if Shared() > 0.0 then Shared() else 1.0)
    }
  }

  lemma RatioBounds(own: real, shared: real)
    requires 0.0 <= own <= shared
    ensures var r := own / (if shared > 0.0 then shared else 1.0);
            0.0 <= r <= 1.0 && (shared > 0.0 ==> r * shared == own)
  {
  }

  // The conversion of a product x with scale b; the sign of a negative zero survives.
  function Converted(b: Byte, x: real): Byte
    requires x >= 0.0
  {
    if b == NEGATIVE_ZERO then NEGATIVE_ZERO else Convert(x)
  }

  function Rescaled(b: Byte, ratio: real): Byte
    requires IsScale(b) && ratio >= 0.0
  {
    Converted(b, Product(Value(b), ratio))
  }

  lemma NonNegativeProduct(a: real, b: real)
    requires a >= 0.0 && b >= 0.0
    ensures a * b >= 0.0
  {
  }

  function Product(a: real, b: real): (x: real)
    requires a >= 0.0 && b >= 0.0
    ensures x >= 0.0
  {
    NonNegativeProduct(a, b);
    a * b
  }

  // One scale of an expert, as the per-element map defines it.
  function Corrected(b: Byte, pair: Pair, isUp: bool): Byte
    requires IsScale(b) && pair.Valid()
  {
    if pair.Unequal() then Rescaled(b, pair.Ratio(isUp)) else b
  }

  // ---- what the correction does to one scale ---------------------------------------------

  // Equal globals, and the half whose own global is the shared one, keep their exact code.
  lemma ExactWhereDominant(b: Byte, pair: Pair, isUp: bool)
    requires IsScale(b) && pair.Valid()
    requires !pair.Unequal() || pair.Own(isUp) == pair.Shared()
    ensures Corrected(b, pair, isUp) == b
  {
    if pair.Unequal() && b != NEGATIVE_ZERO {
      assert pair.Ratio(isUp) == 1.0;
      ConvertKeepsGrid(b);
    }
  }

  lemma ProductBelow(v: real, r: real)
    requires v >= 0.0 && 0.0 <= r <= 1.0
    ensures Product(v, r) <= v
  {
  }

  lemma CodesOrdered(c: nat, b: nat)
    requires c <= b
    ensures Grid(c) <= Grid(b)
  {
    if c < b {
      GridIncreases(c, b);
    }
  }

  // A product no larger than the scale it comes from never overflows.
  lemma ConvertedNoOverflow(b: Byte, x: real)
    requires IsScale(b) && 0.0 <= x <= Value(b)
    ensures IsScale(Converted(b, x)) && Value(Converted(b, x)) <= Value(b)
    ensures b == NEGATIVE_ZERO <==> Converted(b, x) == NEGATIVE_ZERO
  {
    if b != NEGATIVE_ZERO {
      ConvertStaysBelow(x, b);
      CodesOrdered(Convert(x), b);
    }
  }

  lemma ConvertedIsNearest(b: Byte, x: real)
    requires IsScale(b) && b != NEGATIVE_ZERO && 0.0 <= x <= Value(b)
    ensures IsNearestEven(x, Converted(b, x))
    ensures Distance(x, Grid(Converted(b, x))) <= LocalStep(x) / 2.0
  {
    GridIncreases(b, NOT_A_NUMBER);
    ConvertIsNearestEven(x);
    ConvertWithinHalfStep(x);
  }

  lemma ConvertedError(b: Byte, x: real)
    requires IsScale(b) && 0.0 <= x <= Value(b)
    ensures IsScale(Converted(b, x))
    ensures Distance(Value(Converted(b, x)), x) <= LocalStep(x) / 2.0
  {
    ConvertedNoOverflow(b, x);
    if b != NEGATIVE_ZERO {
      ConvertedIsNearest(b, x);
    }
  }

  // The corrected code is again a scale no larger than the original one: no overflow.
  lemma NoOverflow(b: Byte, pair: Pair, isUp: bool)
    requires IsScale(b) && pair.Valid()
    ensures IsScale(Corrected(b, pair, isUp))
    ensures Value(Corrected(b, pair, isUp)) <= Value(b)
    ensures b == NEGATIVE_ZERO <==> Corrected(b, pair, isUp) == NEGATIVE_ZERO
  {
    ProductBelow(Value(b), pair.Ratio(isUp));
    ConvertedNoOverflow(b, Product(Value(b), pair.Ratio(isUp)));
  }

  // Of all codes, the corrected one is the nearest to the scale times own / shared.
  lemma CorrectedIsNearest(b: Byte, pair: Pair, isUp: bool)
    requires IsScale(b) && b != NEGATIVE_ZERO && pair.Valid() && pair.Unequal()
    ensures IsNearestEven(Product(Value(b), pair.Ratio(isUp)), Corrected(b, pair, isUp))
  {
    ProductBelow(Value(b), pair.Ratio(isUp));
    ConvertedIsNearest(b, Product(Value(b), pair.Ratio(isUp)));
  }

  // With the new scale c and the shared global, a weight's factor differs from scale v times
  // its own global by at most the shared global times `half`.
  ghost predicate MovesWithin(c: real, shared: real, v: real, own: real, half: real) {
    Distance(c * shared, v * own) <= shared * half
  }

  lemma MovesBy(c: real, shared: real, v: real, r: real, own: real, half: real)
    requires shared > 0.0 && v >= 0.0 && r >= 0.0 && r * shared == own
    requires Distance(c, Product(v, r)) <= half
    ensures MovesWithin(c, shared, v, own, half)
  {
  }

  lemma RescaledMoves(b: Byte, r: real, own: real, shared: real)
    requires IsScale(b) && 0.0 <= r <= 1.0 && shared > 0.0 && r * shared == own
    ensures IsScale(Rescaled(b, r))
    ensures MovesWithin(Value(Rescaled(b, r)), shared, Value(b), own, LocalStep(Product(Value(b), r)) / 2.0)
  {
    var x := Product(Value(b), r);
    ProductBelow(Value(b), r);
    ConvertedError(b, x);
    MovesBy(Value(Converted(b, x)), shared, Value(b), r, own, LocalStep(x) / 2.0);
  }

  // The represented value, scale times global, moves by at most the shared global times
  // half the step of the grid around the exact new scale.
  lemma ErrorBound(b: Byte, pair: Pair, isUp: bool)
    requires IsScale(b) && pair.Valid() && pair.Unequal()
    ensures IsScale(Corrected(b, pair, isUp)) && pair.Shared() > 0.0
    ensures MovesWithin(Value(Corrected(b, pair, isUp)), pair.Shared(), Value(b), pair.Own(isUp),
                        LocalStep(Product(Value(b), pair.Ratio(isUp))) / 2.0)
  {
    RescaledMoves(b, pair.Ratio(isUp), pair.Own(isUp), pair.Shared());
  }

  // ---- the chunked correction -----------------------------------------------------------------

  // One entry per expert: its gate and its up global, as the tensor's shape lays them out.
  function Paired(globals: Globals, experts: nat): (r: Option<seq<(Number, Number)>>)
    requires globals.Rectangular()
    ensures r.Some? ==> |r.value| == experts
  {
    match globals
    case Vector(values) =>
      if |values| == experts then Some(seq(experts, i requires 0 <= i < experts => (values[i], values[i]))) else None
    case Matrix(rows, columns) =>
      if |rows| == experts && columns == 1 then
        Some(seq(experts, i requires 0 <= i < experts => (rows[i][0], rows[i][0])))
      else if |rows| == experts && columns == 2 then
        Some(seq(experts, i requires 0 <= i < experts => (rows[i][0], rows[i][1])))
      else None
    case OtherShape => None
  }

  predicate Usable(n: Number) {
    n.Finite? && n.value >= 0.0
  }

  predicate AllUsable(paired: seq<(Number, Number)>) {
    forall i :: 0 <= i < |paired| ==> Usable(paired[i].0) && Usable(paired[i].1)
  }

  function ToPairs(paired: seq<(Number, Number)>): (r: seq<Pair>)
    requires AllUsable(paired)
    ensures |r| == |paired| && AllValid(r)
  {
    seq(|paired|, i requires 0 <= i < |paired| && AllUsable(paired) => Pair(paired[i].0.value, paired[i].1.value))
  }

  predicate AllValid(pairs: seq<Pair>) {
    forall i :: 0 <= i < |pairs| ==> pairs[i].Valid()
  }

  function UnequalCount(pairs: seq<Pair>): nat {
    if pairs == [] then 0
    else UnequalCount(pairs[..|pairs| - 1]) + if pairs[|pairs| - 1].Unequal() then 1 else 0
  }

  lemma {:induction false} NoneUnequal(pairs: seq<Pair>)
    ensures UnequalCount(pairs) == 0 <==> forall i :: 0 <= i < |pairs| ==> !pairs[i].Unequal()
  {
    if pairs != [] {
      NoneUnequal(pairs[..|pairs| - 1]);
    }
  }

  // Block scales: expert, gate rows then up rows, group.
  predicate ShapeOk(block: array3<Byte>) {
    block.Length0 >= 1 && block.Length1 >= 2 && block.Length1 % 2 == 0 && block.Length2 >= 1
  }

  predicate SameShape(a: array3<Byte>, b: array3<Byte>) {
    a.Length0 == b.Length0 && a.Length1 == b.Length1 && a.Length2 == b.Length2
  }

  predicate IsUpRow(block: array3<Byte>, r: nat) {
    r >= block.Length1 / 2
  }

  lemma HalfOfRow(rows: nat, r: nat)
    requires r < rows && rows % 2 == 0
    ensures r / (rows / 2) == 1 <==> r >= rows / 2
  {
  }

  predicate ScalesIn(block: array3<Byte>, start: nat, stop: nat)
    requires stop <= block.Length0
    reads block
  {
    forall e, r, g :: start <= e < stop && 0 <= r < block.Length1 && 0 <= g < block.Length2 ==> IsScale(block[e, r, g])
  }

  ghost predicate SameIn(result: array3<Byte>, block: array3<Byte>, start: nat, stop: nat)
    requires SameShape(result, block) && stop <= block.Length0
    reads result, block
  {
    forall e, r, g :: start <= e < stop && 0 <= r < block.Length1 && 0 <= g < block.Length2 ==>
      result[e, r, g] == block[e, r, g]
  }

  // The per-element map over experts start..stop.
  ghost predicate CorrectedIn(result: array3<Byte>, block: array3<Byte>, pairs: seq<Pair>, start: nat, stop: nat)
    requires SameShape(result, block) && stop <= block.Length0 == |pairs| && AllValid(pairs)
    requires ScalesIn(block, start, stop)
    reads result, block
  {
    forall e, r, g :: start <= e < stop && 0 <= r < block.Length1 && 0 <= g < block.Length2 ==>
      result[e, r, g] == Corrected(block[e, r, g], pairs[e], IsUpRow(block, r))
  }

  datatype Correction = Correction(result: array3<Byte>, shared: seq<real>, changed: nat)

  method Clone(block: array3<Byte>) returns (copy: array3<Byte>)
    ensures fresh(copy) && SameShape(copy, block) && SameIn(copy, block, 0, block.Length0)
  {
    copy := new Byte[block.Length0, block.Length1, block.Length2];
    forall e, r, g | 0 <= e < block.Length0 && 0 <= r < block.Length1 && 0 <= g < block.Length2 {
      copy[e, r, g] := block[e, r, g];
    }
  }

  // The vectorised body of one chunk: rescale both halves, keep the bytes of equal experts.
  method CorrectChunk(block: array3<Byte>, result: array3<Byte>, pairs: seq<Pair>, start: nat, stop: nat)
    requires result != block && SameShape(result, block) && ShapeOk(block)
    requires start <= stop <= block.Length0 == |pairs| && AllValid(pairs) && ScalesIn(block, start, stop)
    modifies result
    ensures CorrectedIn(result, block, pairs, start, stop)
    ensures forall e, r, g :: 0 <= e < block.Length0 && !(start <= e < stop) && 0 <= r < block.Length1 && 0 <= g < block.Length2 ==>
              result[e, r, g] == old(result[e, r, g])
  {
    forall e, r, g | start <= e < stop && 0 <= r < block.Length1 && 0 <= g < block.Length2 {
      result[e, r, g] := if pairs[e].Unequal()
                         then Rescaled(block[e, r, g], pairs[e].Ratio(r / (block.Length1 / 2) == 1))
                         else block[e, r, g];
    }
    forall e, r, g | start <= e < stop && 0 <= r < block.Length1 && 0 <= g < block.Length2
      ensures result[e, r, g] == Corrected(block[e, r, g], pairs[e], IsUpRow(block, r))
    {
      HalfOfRow(block.Length1, r);
    }
  }

  function Min(a: nat, b: nat): nat {
    if a <= b then a else b
  }

  method CorrectScales(block: array3<Byte>, pairs: seq<Pair>) returns (valid: bool, result: array3<Byte>)
    requires ShapeOk(block) && |pairs| == block.Length0 && AllValid(pairs)
    ensures valid <==> ScalesIn(block, 0, block.Length0)
    ensures UnequalCount(pairs) == 0 ==> result == block
    ensures UnequalCount(pairs) > 0 ==> fresh(result)
    ensures valid ==> SameShape(result, block) && CorrectedIn(result, block, pairs, 0, block.Length0)
  {
    var experts := block.Length0;
    var changed := UnequalCount(pairs);
    NoneUnequal(pairs);
    result := block;
    if changed > 0 {
      result := Clone(block);
    }
    var start := 0;
    while start < experts
      invariant start <= experts && ScalesIn(block, 0, start)
      invariant changed == 0 ==> result == block
      invariant changed > 0 ==> fresh(result) && SameShape(result, block) && CorrectedIn(result, block, pairs, 0, start)
    {
      var stop := Min(start + CHUNK, experts);
      if !ScalesIn(block, start, stop) {
        return false, result;
      }
      if changed > 0 {
        CorrectChunk(block, result, pairs, start, stop);
      }
      start := stop;
    }
    valid := true;
  }

  function SharedGlobals(pairs: seq<Pair>): (r: seq<real>)
    ensures |r| == |pairs| && forall e :: 0 <= e < |pairs| ==> r[e] == pairs[e].Shared()
  {
    seq(|pairs|, e requires 0 <= e < |pairs| => pairs[e].Shared())
  }

  method Reconcile(block: array3<Byte>, globals: Globals) returns (r: Result<Correction, ScaleError>)
    requires globals.Rectangular()
    ensures r == Err(BadShape) <==> !ShapeOk(block)
    ensures r == Err(BadGlobalShape) <==> ShapeOk(block) && Paired(globals, block.Length0).None?
    ensures ShapeOk(block) && Paired(globals, block.Length0).Some? ==>
              var paired := Paired(globals, block.Length0).value;
              && (r == Err(BadGlobals) <==> !AllUsable(paired))
              && (r == Err(BadScales) <==> AllUsable(paired) && !ScalesIn(block, 0, block.Length0))
              && (r.Ok? ==>
                    && SameShape(r.value.result, block)
                    && CorrectedIn(r.value.result, block, ToPairs(paired), 0, block.Length0)
                    && r.value.shared == SharedGlobals(ToPairs(paired))
                    && r.value.changed == UnequalCount(ToPairs(paired))
                    && (r.value.changed == 0 ==> r.value.result == block)
                    && (r.value.changed > 0 ==> fresh(r.value.result)))
  {
    if !ShapeOk(block) {
      return Err(BadShape);
    }
    var shaped := Paired(globals, block.Length0);
    if shaped.None? {
      return Err(BadGlobalShape);
    }
    if !AllUsable(shaped.value) {
      return Err(BadGlobals);
    }
    var pairs := ToPairs(shaped.value);
    var valid, result := CorrectScales(block, pairs);
    if !valid {
      return Err(BadScales);
    }
    return Ok(Correction(result, SharedGlobals(pairs), UnequalCount(pairs)));
  }
}
