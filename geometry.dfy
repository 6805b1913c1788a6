/**
 * The composition rules of a dual (raster plus annotation) transform: boxes and keypoints are
 * split into a four-field geometric head, which the leaf transforms, and a payload tail, which is
 * re-appended; masks go through the raster leaf with nearest-neighbour interpolation.
 */
module Geometry {
  import opened Wrappers
  import opened Values

  /** `cv2.INTER_NEAREST`. */
  const InterNearest: Value := Num(0.0)

  /** A raster leaf, `apply(img, **params)` or `apply_to_mask(img, **params)`. */
  type Leaf = (Value, Params) -> Result<Value>

  /** A box or keypoint leaf, `apply_to_bbox(bbox, **params)`, returning a list. */
  type RecordLeaf = (seq<Value>, Params) -> Result<seq<Value>>

  /** The number of geometric fields of a box or keypoint. */
  const HeadLength: nat := 4

  /** `b[:4]`. */
  function Head(b: seq<Value>): seq<Value> {
    if |b| <= HeadLength then b else b[..HeadLength]
  }

  /** `b[4:]`. */
  function Tail(b: seq<Value>): seq<Value> {
    if |b| <= HeadLength then [] else b[HeadLength..]
  }

  lemma HeadTailSplit(b: seq<Value>)
    ensures Head(b) + Tail(b) == b
    ensures |Head(b)| == if |b| <= HeadLength then |b| else HeadLength
  {
  }

  /**
   * The parameters `apply_to_mask` passes on: the value under `interpolation` becomes
   * nearest-neighbour, every other parameter is kept, and no key is added.
   */
  function MaskParams(params: Params): (r: Params)
    ensures r.Keys == params.Keys
    ensures "interpolation" in params ==> r["interpolation"] == InterNearest
    ensures forall k :: k in params && k != "interpolation" ==> r[k] == params[k]
  {
    map k | k in params :: if k == "interpolation" then InterNearest else params[k]
  }

  /** `[list(b) for b in items]`: stops at the first item that is not iterable. */
  function ToLists(items: seq<Value>): (r: Result<seq<seq<Value>>>)
    ensures r.Success? <==> forall i :: 0 <= i < |items| ==> Iterate(items[i]).Success?
    ensures r.Success? ==> |r.value| == |items|
    ensures r.Success? ==> forall i :: 0 <= i < |items| ==> r.value[i] == Iterate(items[i]).value
    ensures r.Failure? ==>
      exists i :: 0 <= i < |items| && Iterate(items[i]) == Failure(r.error) &&
        forall j :: 0 <= j < i ==> Iterate(items[j]).Success?
    decreases |items|
  {
    if items == [] then Success([])
    else
      var first :- Iterate(items[0]);
      var rest :- ToLists(items[1..]);
      Success([first] + rest)
  }

  /** `[leaf(b[:4]) + b[4:] for b in rows]`: element by element, in order, stopping at the first failure. */
  function MapHeads(rows: seq<seq<Value>>, leaf: RecordLeaf, params: Params): (r: Result<seq<Value>>)
    ensures r.Success? <==> forall i :: 0 <= i < |rows| ==> leaf(Head(rows[i]), params).Success?
    ensures r.Success? ==> |r.value| == |rows|
    ensures r.Success? ==> forall i :: 0 <= i < |rows| ==>
      r.value[i] == Lst(leaf(Head(rows[i]), params).value + Tail(rows[i]), None)
    ensures r.Failure? ==>
      exists i :: 0 <= i < |rows| && leaf(Head(rows[i]), params) == Failure(r.error) &&
        forall j :: 0 <= j < i ==> leaf(Head(rows[j]), params).Success?
    decreases |rows|
  {
    if rows == [] then Success([])
    else
      var head :- leaf(Head(rows[0]), params);
      var rest :- MapHeads(rows[1..], leaf, params);
      Success([Lst(head + Tail(rows[0]), None)] + rest)
  }

  /**
   * `apply_to_bboxes` and `apply_to_keypoints`: every record is turned into a list, its head goes
   * through the leaf and its tail is re-appended; the result is a plain list.
   */
  function ApplyToRecords(records: Value, leaf: RecordLeaf, params: Params): (r: Result<Value>)
    ensures Iterate(records).Failure? ==> r == Failure(Iterate(records).error)
    ensures r.Success? ==> r.value.Lst? && r.value.hist.None? && |r.value.items| == |Iterate(records).value|
    // `list(b)` runs on every record before the leaf runs on any
    ensures Iterate(records).Success? && ToLists(Iterate(records).value).Failure? ==>
      r == Failure(ToLists(Iterate(records).value).error)
    ensures Iterate(records).Success? ==>
      (r.Success? <==> forall i :: 0 <= i < |Iterate(records).value| ==>
        Iterate(Iterate(records).value[i]).Success? &&
        leaf(Head(Iterate(Iterate(records).value[i]).value), params).Success?)
    ensures Iterate(records).Success? && ToLists(Iterate(records).value).Success? && r.Failure? ==>
      exists i :: 0 <= i < |Iterate(records).value| &&
        leaf(Head(Iterate(Iterate(records).value[i]).value), params) == Failure(r.error) &&
        forall j :: 0 <= j < i ==> leaf(Head(Iterate(Iterate(records).value[j]).value), params).Success?
  {
    var items :- Iterate(records);
    var rows :- ToLists(items);
    var out :- MapHeads(rows, leaf, params);
    Success(Lst(out, None))
  }

  /** `[apply_to_mask(m, **params) for m in items]`. */
  function MapMasks(items: seq<Value>, leaf: Leaf, params: Params): (r: Result<seq<Value>>)
    ensures r.Success? <==> forall i :: 0 <= i < |items| ==> leaf(items[i], params).Success?
    ensures r.Success? ==> |r.value| == |items|
    ensures r.Success? ==> forall i :: 0 <= i < |items| ==> r.value[i] == leaf(items[i], params).value
    ensures r.Failure? ==>
      exists i :: 0 <= i < |items| && leaf(items[i], params) == Failure(r.error) &&
        forall j :: 0 <= j < i ==> leaf(items[j], params).Success?
    decreases |items|
  {
    if items == [] then Success([])
    else
      var first :- leaf(items[0], params);
      var rest :- MapMasks(items[1..], leaf, params);
      Success([first] + rest)
  }

  /** `apply_to_masks`: the mask leaf on every mask, in order; the result is a plain list. */
  function ApplyToMasks(masks: Value, leaf: Leaf, params: Params): (r: Result<Value>)
    ensures Iterate(masks).Failure? ==> r == Failure(Iterate(masks).error)
    ensures r.Success? ==> r.value.Lst? && r.value.hist.None? && |r.value.items| == |Iterate(masks).value|
    ensures Iterate(masks).Success? ==>
      (r.Success? <==> forall i :: 0 <= i < |Iterate(masks).value| ==> leaf(Iterate(masks).value[i], params).Success?)
    ensures Iterate(masks).Success? && r.Failure? ==>
      exists i :: 0 <= i < |Iterate(masks).value| && leaf(Iterate(masks).value[i], params) == Failure(r.error) &&
        forall j :: 0 <= j < i ==> leaf(Iterate(masks).value[j], params).Success?
  {
    var items :- Iterate(masks);
    var out :- MapMasks(items, leaf, params);
    Success(Lst(out, None))
  }

  /**
   * The box and keypoint rule: output record i is the leaf's head of input record i followed by
   * that record's untouched tail, in the input order.
   */
  lemma RecordsElementwise(records: Value, leaf: RecordLeaf, params: Params)
    requires ApplyToRecords(records, leaf, params).Success?
    ensures var items := Iterate(records).value;
      var out := ApplyToRecords(records, leaf, params).value.items;
      |out| == |items| &&
      forall i :: 0 <= i < |items| ==>
        Iterate(items[i]).Success? &&
        out[i] == Lst(leaf(Head(Iterate(items[i]).value), params).value + Tail(Iterate(items[i]).value), None)
  {
  }

  /** A leaf that keeps the length of the head leaves every payload field where it was. */
  lemma TailPreserved(records: Value, leaf: RecordLeaf, params: Params, i: nat)
    requires ApplyToRecords(records, leaf, params).Success?
    requires i < |Iterate(records).value|
    requires var b := Iterate(Iterate(records).value[i]);
      b.Success? && |leaf(Head(b.value), params).value| == |Head(b.value)|
    ensures var b := Iterate(Iterate(records).value[i]).value;
      var o := ApplyToRecords(records, leaf, params).value.items[i].items;
      |o| == |b| && o[|Head(b)|..] == Tail(b) && o[..|Head(b)|] == leaf(Head(b), params).value
  {
  }

  /** An empty box list never reaches the leaf, so even an unimplemented leaf does not raise. */
  lemma EmptyRecordsSkipLeaf(records: Value, params: Params, what: string)
    requires Iterate(records) == Success([])
    ensures ApplyToRecords(records, (h, p) => Failure(NotImplemented(what)), params) == Success(Lst([], None))
  {
  }

  /** A non-empty box list reaches the leaf, so an unimplemented leaf raises its NotImplementedError. */
  lemma UnimplementedLeafRaises(records: Value, params: Params, what: string)
    requires Iterate(records).Success? && |Iterate(records).value| > 0
    requires ToLists(Iterate(records).value).Success?
    ensures ApplyToRecords(records, (h, p) => Failure(NotImplemented(what)), params) == Failure(NotImplemented(what))
  {
  }

  /** With the identity leaf each record comes back as `list(b)`. */
  lemma IdentityLeafCopiesRecords(records: Value, params: Params)
    requires Iterate(records).Success?
    requires ToLists(Iterate(records).value).Success?
    ensures var items := Iterate(records).value;
      var r := ApplyToRecords(records, (h, p) => Success(h), params);
      r.Success? && |r.value.items| == |items| &&
      forall i :: 0 <= i < |items| ==> r.value.items[i] == Lst(Iterate(items[i]).value, None)
  {
  }

  /** Masks keep their count and order: output mask i is the leaf's result on input mask i. */
  lemma MasksElementwise(masks: Value, leaf: Leaf, params: Params)
    requires ApplyToMasks(masks, leaf, params).Success?
    ensures var items := Iterate(masks).value;
      forall i :: 0 <= i < |items| ==>
        ApplyToMasks(masks, leaf, params).value.items[i] == leaf(items[i], params).value
  {
  }
}
