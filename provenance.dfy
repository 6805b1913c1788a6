/** `keep_memory`: attaching a history entry to an artifact before a transform processes it. */
module Provenance {
  import opened Wrappers
  import opened Values

  /** The closed set of artifact kinds `keep_memory` distinguishes. */
  datatype Kind =
    | Tracked     // already has a `transforms` attribute
    | Settable    // an object on which `transforms` can be set
    | PlainArray  // an ndarray without history
    | PlainList   // a list without history
    | Other       // anything else: setting the attribute raises AttributeError

  /** Which branch of `keep_memory` an artifact takes. */
  function KindOf(v: Value): (k: Kind)
    ensures k == Tracked <==> HistoryOf(v).Some?
    ensures k == Settable <==> v.Obj? && v.hist.None?
    ensures k == PlainArray <==> v.Arr? && v.hist.None?
    ensures k == PlainList <==> v.Lst? && v.hist.None?
    ensures k == Other <==> !(v.Lst? || v.Arr? || v.Obj?)
  {
    match v
    case Lst(_, Some(_)) => Tracked
    case Arr(_, _, Some(_)) => Tracked
    case Obj(_, Some(_)) => Tracked
    case Obj(_, None) => Settable
    case Arr(_, _, None) => PlainArray
    case Lst(_, None) => PlainList
    case _ => Other
  }

  /** The `transforms` attribute of `v`, when it has one. */
  function HistoryOf(v: Value): Option<History> {
    match v
    case Lst(_, h) => h
    case Arr(_, _, h) => h
    case Obj(_, h) => h
    case _ => None
  }

  /** `v` with its `transforms` attribute removed: what it holds apart from provenance. */
  function Bare(v: Value): Value {
    match v
    case Lst(items, _) => Lst(items, None)
    case Arr(shape, items, _) => Arr(shape, items, None)
    case Obj(name, _) => Obj(name, None)
    case _ => v
  }

  /**
   * `keep_memory(quant, **params)`: the artifact as its owner sees it afterwards. A tracked
   * artifact gains the entry at the end of its history; a settable object gets a history holding
   * only that entry; a plain array or list is wrapped in a local `TransformsArray` or
   * `TransformsList` that is then dropped, so it comes back unchanged; any other value raises
   * the AttributeError of setting the attribute.
   */
  function KeepMemory(quant: Value, transform: object, params: Params): (r: Result<Value>)
    ensures r.Success? <==> KindOf(quant) != Other
    ensures r.Failure? ==> r.error == AttributeError("transforms")
    ensures r.Success? ==> Bare(r.value) == Bare(quant)
    ensures KindOf(quant) == Tracked ==>
      var before := HistoryOf(quant).value;
      HistoryOf(r.value).Some? && |HistoryOf(r.value).value| == |before| + 1 &&
      HistoryOf(r.value).value[..|before|] == before &&
      HistoryOf(r.value).value[|before|] == Entry(transform, params)
    ensures KindOf(quant) == Settable ==> HistoryOf(r.value) == Some([Entry(transform, params)])
    ensures KindOf(quant) in {PlainArray, PlainList} ==> r == Success(quant)
  {
    var entry := Entry(transform, params);
    match KindOf(quant)
    case Tracked => Success(Record(quant, HistoryOf(quant).value + [entry]))
    case Settable => Success(Record(quant, [entry]))
    case PlainArray => Success(quant)
    case PlainList => Success(quant)
    case Other => Failure(AttributeError("transforms"))
  }

  /** `quant.transforms = h` on a value that can carry the attribute. */
  function Record(quant: Value, h: History): (r: Value)
    requires quant.Lst? || quant.Arr? || quant.Obj?
    ensures Bare(r) == Bare(quant) && HistoryOf(r) == Some(h)
  {
    quant.(hist := Some(h))
  }

  /** Recording twice appends in call order and never rewrites earlier entries. */
  lemma KeepMemoryTwice(quant: Value, t1: object, p1: Params, t2: object, p2: Params)
    requires KindOf(quant) in {Tracked, Settable}
    ensures KeepMemory(quant, t1, p1).Success?
    ensures KeepMemory(KeepMemory(quant, t1, p1).value, t2, p2).Success?
    ensures
      var earlier := if KindOf(quant) == Tracked then HistoryOf(quant).value else [];
      HistoryOf(KeepMemory(KeepMemory(quant, t1, p1).value, t2, p2).value) ==
        Some(earlier + [Entry(t1, p1), Entry(t2, p2)])
  {
    var once := KeepMemory(quant, t1, p1).value;
    var h := if KindOf(quant) == Tracked then HistoryOf(quant).value else [];
    var h1 := HistoryOf(once).value;
    assert h1 == h + [Entry(t1, p1)] by {
      if KindOf(quant) == Tracked {
        assert h1 == h1[..|h|] + [h1[|h|]];
      }
    }
    assert KindOf(once) == Tracked;
    var h2 := HistoryOf(KeepMemory(once, t2, p2).value).value;
    assert h2 == h1[..|h1|] + [h2[|h1|]];
    assert h2 == (h + [Entry(t1, p1)]) + [Entry(t2, p2)] == h + [Entry(t1, p1), Entry(t2, p2)];
  }

  /** Provenance is invisible to iteration: a value and its recorded form visit the same items. */
  lemma IterateIgnoresHistory(a: Value, b: Value)
    requires Bare(a) == Bare(b)
    ensures Iterate(a) == Iterate(b)
  {
  }
}
