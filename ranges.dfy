/** `to_tuple`: normalises "a magnitude or an explicit range" configuration into a tuple. */
module Ranges {
  import opened Wrappers
  import opened Values

  /** The offset `bias` adds to every element: zero when no bias is given. */
  function Offset(bias: Option<real>): real {
    if bias.Some? then bias.value else 0.0
  }

  function Min(a: real, b: real): real { if a <= b then a else b }
  function Max(a: real, b: real): real { if a <= b then b else a }

  /**
   * `isinstance(v, (list, tuple))`. A `TransformsList` derives from `UserList` under Python 3,
   * which is not a `list`, so a list carrying a history does not qualify.
   */
  predicate IsSequence(v: Value) {
    v.Tup? || (v.Lst? && v.hist.None?)
  }

  predicate AllScalar(xs: seq<Value>) {
    forall i :: 0 <= i < |xs| ==> IsScalar(xs[i])
  }

  /** `[bias + x for x in xs]`: the TypeError of the first element that is not a number. */
  function AddBias(bias: real, xs: seq<Value>): (r: Result<seq<Value>>)
    ensures r.Success? <==> AllScalar(xs)
    ensures r.Success? ==> |r.value| == |xs|
    ensures r.Success? ==> forall i :: 0 <= i < |xs| ==> r.value[i] == Num(bias + ScalarValue(xs[i]))
    ensures r.Failure? ==> r.error.TypeError?
    decreases |xs|
  {
    if xs == [] then Success([])
    else if !IsScalar(xs[0]) then Failure(TypeError("unsupported operand type(s) for +"))
    else
      var rest :- AddBias(bias, xs[1..]);
      assert forall i :: 1 <= i < |xs| ==> xs[i] == xs[1..][i - 1];
      Success([Num(bias + ScalarValue(xs[0]))] + rest)
  }

  /**
   * `to_tuple(param, low, bias)`. A scalar becomes a two-element range around the offset, or,
   * with `low`, the ascending pair of `low` and the scalar; a plain list or a tuple becomes a tuple of
   * its elements; `bias` is then added to every element. `low` and `bias` together, or a
   * `param` of any other kind, raise ValueError; a `param` of None is returned as None.
   */
  function ToTuple(param: Value, low: Option<real>, bias: Option<real>): (r: Result<Value>)
    ensures low.Some? && bias.Some? ==> r.Failure? && r.error.ValueError?
    ensures low.None? || bias.None? ==> (param == Nil <==> r == Success(Nil))
    ensures (low.None? || bias.None?) && param != Nil && !IsScalar(param) && !IsSequence(param) ==>
      r.Failure? && r.error.ValueError?
    // a scalar without low: the range (offset - v, offset + v)
    ensures low.None? && IsScalar(param) ==>
      r == Success(Tup([Num(Offset(bias) - ScalarValue(param)), Num(Offset(bias) + ScalarValue(param))]))
    // a scalar with low: the ascending pair, shifted by the offset
    ensures low.Some? && bias.None? && IsScalar(param) ==>
      r.Success? && r.value.Tup? && |r.value.items| == 2 && AllScalar(r.value.items) &&
      ScalarValue(r.value.items[0]) == Min(low.value, ScalarValue(param)) &&
      ScalarValue(r.value.items[1]) == Max(low.value, ScalarValue(param))
    // a list or tuple keeps its elements and their order, and ignores low
    ensures bias.None? && IsSequence(param) ==> r == Success(Tup(param.items))
    ensures low.None? && bias.Some? && IsSequence(param) ==>
      (r.Success? <==> AllScalar(param.items)) &&
      (r.Success? ==> r.value.Tup? && |r.value.items| == |param.items|) &&
      (r.Success? ==> forall i :: 0 <= i < |param.items| ==>
        r.value.items[i] == Num(bias.value + ScalarValue(param.items[i])))
    ensures low.None? && bias.Some? && IsSequence(param) && r.Failure? ==> r.error.TypeError?
  {
    if low.Some? && bias.Some? then Failure(ValueError("Arguments low and bias are mutually exclusive"))
    else if param == Nil then Success(Nil)
    else
      var elements :-
        if IsScalar(param) then
          if low.None? then Success([Num(-ScalarValue(param)), Num(ScalarValue(param))])
          else if low.value < ScalarValue(param) then Success([Num(low.value), param])
          else Success([param, Num(low.value)])
        else if IsSequence(param) then Success(param.items)
        else Failure(ValueError("Argument param must be either scalar (int, float) or tuple"));
      if bias.Some? then
        var shifted :- AddBias(bias.value, elements);
        assert |elements| == 2 ==> shifted == [shifted[0], shifted[1]];
        Success(Tup(shifted))
      else Success(Tup(elements))
  }

  /** Without `low` a scalar range is ascending exactly when the scalar is not negative. */
  lemma SymmetricRangeAscendingIff(param: Value, bias: Option<real>)
    requires IsScalar(param)
    ensures ToTuple(param, None, bias).value.items[0].x <= ToTuple(param, None, bias).value.items[1].x
      <==> ScalarValue(param) >= 0.0
  {
  }

  /** The documented examples. */
  lemma ToTupleExamples()
    ensures ToTuple(Num(5.0), None, None) == Success(Tup([Num(-5.0), Num(5.0)]))
    ensures ToTuple(Num(5.0), Some(2.0), None) == Success(Tup([Num(2.0), Num(5.0)]))
    ensures ToTuple(Tup([Num(1.0), Num(2.0)]), None, None) == Success(Tup([Num(1.0), Num(2.0)]))
    ensures ToTuple(Num(5.0), None, Some(1.0)) == Success(Tup([Num(-4.0), Num(6.0)]))
    ensures ToTuple(Num(5.0), Some(2.0), Some(1.0)).Failure?
    ensures ToTuple(Nil, Some(2.0), Some(1.0)).Failure?
    ensures ToTuple(Lst([Num(1.0), Num(2.0)], Some([])), None, None).Failure?
  {
  }
}
