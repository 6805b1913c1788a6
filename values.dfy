/** The Python values a transform call sees: bundle artifacts, parameter values and history entries. */
module Values {
  import opened Wrappers

  /** An ordered record of the transforms applied to an artifact (its `transforms` attribute). */
  type History = seq<Entry>

  /**
   * A Python value. Lists, arrays and attribute-settable objects may carry a `transforms`
   * attribute: `hist` is `None` when the attribute is absent. `Lst(_, Some(_))` is a
   * `TransformsList`, `Arr(_, _, Some(_))` a `TransformsArray`. An array is given by its
   * `shape` and by the items a loop over its first axis visits.
   */
  datatype Value =
    | Nil
    | Flag(b: bool)
    | Num(x: real)
    | Text(s: string)
    | Tup(items: seq<Value>)
    | Lst(items: seq<Value>, hist: Option<History>)
    | Arr(shape: seq<nat>, items: seq<Value>, hist: Option<History>)
    | Obj(name: string, hist: Option<History>)

  /** One history entry, the dictionary `{'transform': t, 'params': params}`. */
  datatype Entry = Entry(transform: object, params: Params)

  /** Keyword arguments and parameter dictionaries. */
  type Params = map<string, Value>

  /** `isinstance(v, (int, float))`; a Python bool is an int. */
  predicate IsScalar(v: Value) {
    v.Flag? || v.Num?
  }

  /** The number a scalar stands for (`True` is 1). */
  function ScalarValue(v: Value): real
    requires IsScalar(v)
  {
    if v.Flag? then (if v.b then 1.0 else 0.0) else v.x
  }

  /** The items a `for` loop over `v` visits, or the TypeError of a value that is not iterable. */
  function Iterate(v: Value): (r: Result<seq<Value>>)
    ensures r.Success? <==> v.Tup? || v.Lst? || v.Text? || (v.Arr? && |v.shape| > 0)
    ensures r.Success? && !v.Text? ==> r.value == v.items
    ensures r.Success? && v.Text? ==> |r.value| == |v.s|
    ensures r.Success? && v.Text? ==> forall i :: 0 <= i < |v.s| ==> r.value[i] == Text([v.s[i]])
  {
    match v
    case Tup(items) => Success(items)
    case Lst(items, _) => Success(items)
    case Arr(shape, items, _) =>
      if |shape| == 0 then Failure(TypeError("iteration over a 0-d array")) else Success(items)
    case Text(s) => Success(seq(|s|, i requires 0 <= i < |s| => Text([s[i]])))
    case _ => Failure(TypeError("object is not iterable"))
  }

  /**
   * The dictionary comprehension `{k: lookup(k) for k in names}`: it evaluates the names in
   * order and stops at the first lookup that raises.
   */
  function Collect(names: seq<string>, lookup: string -> Result<Value>): (r: Result<Params>)
    ensures r.Success? <==> forall i :: 0 <= i < |names| ==> lookup(names[i]).Success?
    ensures r.Success? ==> forall k :: k in r.value <==> k in names
    ensures r.Success? ==> forall k :: k in r.value ==> lookup(k) == Success(r.value[k])
    ensures r.Failure? ==>
      exists i :: 0 <= i < |names| && lookup(names[i]) == Failure(r.error) &&
        forall j :: 0 <= j < i ==> lookup(names[j]).Success?
    decreases |names|
  {
    if names == [] then Success(map[])
    else
      var first :- lookup(names[0]);
      var rest :- Collect(names[1..], lookup);
      assert forall k :: k in names <==> k == names[0] || k in names[1..];
      Success(rest[names[0] := first])
  }

  /** `kwargs[k]`: the bundle entry under `k`, or the KeyError of a missing key. */
  function Lookup(bundle: map<string, Value>): (lookup: string -> Result<Value>)
    ensures forall k :: k in bundle ==> lookup(k) == Success(bundle[k])
    ensures forall k :: k !in bundle ==> lookup(k) == Failure(KeyError(k))
  {
    k => if k in bundle then Success(bundle[k]) else Failure(KeyError(k))
  }

  /** `e` is the KeyError of the first of `names` that `bundle` lacks. */
  ghost predicate FirstMissing(names: seq<string>, bundle: map<string, Value>, e: Error) {
    exists i :: 0 <= i < |names| && names[i] !in bundle && e == KeyError(names[i]) &&
      forall j :: 0 <= j < i ==> names[j] in bundle
  }

  /** Collecting keys of a bundle succeeds exactly when every key is present, and copies their values. */
  lemma CollectFromBundle(names: seq<string>, bundle: map<string, Value>)
    ensures Collect(names, Lookup(bundle)).Success? <==> forall k :: k in names ==> k in bundle
    ensures Collect(names, Lookup(bundle)).Success? ==>
      Collect(names, Lookup(bundle)).value == map k | k in names :: bundle[k]
    ensures Collect(names, Lookup(bundle)).Failure? ==>
      exists k :: k in names && k !in bundle && Collect(names, Lookup(bundle)).error == KeyError(k)
    ensures Collect(names, Lookup(bundle)).Failure? ==> FirstMissing(names, bundle, Collect(names, Lookup(bundle)).error)
  {
  }
}
