/**
 * The transform contract: activation, the shared parameter set, routing of every bundle entry to
 * its target function, and the constructor-argument maps used for serialisation.
 */
module Transforms {
  import opened Wrappers
  import opened Values
  import opened Provenance
  import opened Geometry

  /** The structural variant of a transform, which fixes its target table. */
  datatype Variant =
    | Basic      // the base class itself: its `targets` property raises NotImplementedError
    | Dual       // raster plus mask, masks, boxes and keypoints
    | ImageOnly  // the raster only, straight to `apply`
    | NoOp       // a dual transform whose leaves are identities

  /**
   * The members a concrete subclass overrides. `None` is "not overridden": the inherited member
   * raises NotImplementedError, except `applyToMask`, whose inherited form calls `apply` with
   * nearest-neighbour interpolation.
   */
  datatype Leaves = Leaves(
    getParams: Params,
    paramsOnTargets: Option<Params -> Result<Params>>,
    apply: Option<Leaf>,
    applyToBbox: Option<RecordLeaf>,
    applyToKeypoint: Option<RecordLeaf>,
    applyToMask: Option<Leaf>)

  /** The target names of a dual transform. */
  const DualTargets: set<string> := {"image", "mask", "masks", "bboxes", "keypoints"}

  class Transform {
    const variant: Variant
    const p: real
    const alwaysApply: bool
    /** `_additional_targets`: alias key to canonical target name. */
    var additionalTargets: map<string, string>
    /** The `interpolation` and `fill_value` attributes, when the transform has them. */
    const interpolation: Option<Value>
    const fillValue: Option<Value>
    const targetsAsParams: seq<string>
    /** `target_dependence`: per bundle key, the keys whose artifacts it also receives. */
    const targetDependence: map<string, seq<string>>
    const leaves: Leaves
    /** `get_transform_init_args_names()`; `None` when the class does not declare it. */
    const initArgNames: Option<seq<string>>
    /** The remaining attributes `getattr` can find on the transform. */
    const config: Params
    /** `get_class_fullname()`. */
    const fullname: string

    constructor (variant: Variant, alwaysApply: bool, p: real, interpolation: Option<Value>,
                 fillValue: Option<Value>, targetsAsParams: seq<string>,
                 targetDependence: map<string, seq<string>>, leaves: Leaves,
                 initArgNames: Option<seq<string>>, config: Params, fullname: string)
      requires variant != Variant.NoOp
      requires forall k :: k in config ==> k !in {"p", "always_apply", "interpolation", "fill_value"}
      ensures this.variant == variant && this.alwaysApply == alwaysApply && this.p == p
      ensures this.interpolation == interpolation && this.fillValue == fillValue
      ensures this.targetsAsParams == targetsAsParams && this.targetDependence == targetDependence
      ensures this.leaves == leaves && this.initArgNames == initArgNames
      ensures this.config == config && this.fullname == fullname
      ensures additionalTargets == map[]
    {
      this.variant := variant;
      this.alwaysApply := alwaysApply;
      this.p := p;
      this.interpolation := interpolation;
      this.fillValue := fillValue;
      this.targetsAsParams := targetsAsParams;
      this.targetDependence := targetDependence;
      this.leaves := leaves;
      this.initArgNames := initArgNames;
      this.config := config;
      this.fullname := fullname;
      additionalTargets := map[];
    }

    /** `NoOp(always_apply, p)`: every other member is inherited. */
    constructor NoOp(alwaysApply: bool, p: real, fullname: string)
      ensures variant == Variant.NoOp && this.alwaysApply == alwaysApply && this.p == p
      ensures interpolation.None? && fillValue.None? && targetsAsParams == [] && targetDependence == map[]
      ensures leaves.getParams == map[] && initArgNames.None? && config == map[]
      ensures this.fullname == fullname && additionalTargets == map[]
    {
      variant := Variant.NoOp;
      this.alwaysApply := alwaysApply;
      this.p := p;
      interpolation := None;
      fillValue := None;
      targetsAsParams := [];
      targetDependence := map[];
      leaves := Leaves(map[], None, None, None, None, None);
      initArgNames := None;
      config := map[];
      this.fullname := fullname;
      additionalTargets := map[];
    }

    /** `add_targets`: the alias table is replaced as a whole. */
    method AddTargets(targets: map<string, string>)
      modifies this`additionalTargets
      ensures additionalTargets == targets
    {
      additionalTargets := targets;
    }

    // ---------------------------------------------------------------- activation

    /** The activation rule, for a draw of `random.random()`. */
    predicate Active(forceApply: bool, draw: real)
      ensures alwaysApply || forceApply ==> Active(forceApply, draw)
      ensures p >= 1.0 && draw < 1.0 ==> Active(forceApply, draw)
      ensures p <= 0.0 && 0.0 <= draw && !alwaysApply && !forceApply ==> !Active(forceApply, draw)
    {
      draw < p || alwaysApply || forceApply
    }

    // ---------------------------------------------------------------- shared parameters

    /**
     * `update_params(params, **kwargs)`: the transform's interpolation and fill value, when it has
     * them, then the frame geometry of the `image` entry.
     */
    function UpdatedParams(params: Params, bundle: map<string, Value>): (r: Result<Params>)
      ensures "image" !in bundle ==> r == Failure(KeyError("image"))
      ensures "image" in bundle && !bundle["image"].Arr? ==> r == Failure(AttributeError("shape"))
      ensures "image" in bundle && bundle["image"].Arr? && |bundle["image"].shape| < 2 ==> r == Failure(IndexError)
      ensures r.Success? <==> "image" in bundle && bundle["image"].Arr? && |bundle["image"].shape| >= 2
      ensures r.Success? ==> "rows" in r.value && "cols" in r.value
      ensures r.Success? ==>
        r.value["rows"] == Num(bundle["image"].shape[0] as real) &&
        r.value["cols"] == Num(bundle["image"].shape[1] as real)
      ensures r.Success? ==> ("interpolation" in r.value <==> "interpolation" in params || interpolation.Some?)
      ensures r.Success? && interpolation.Some? ==> r.value["interpolation"] == interpolation.value
      ensures r.Success? ==> ("fill_value" in r.value <==> "fill_value" in params || fillValue.Some?)
      ensures r.Success? && fillValue.Some? ==> r.value["fill_value"] == fillValue.value
      ensures r.Success? ==>
        r.value.Keys == params.Keys + {"rows", "cols"} +
          (if interpolation.Some? then {"interpolation"} else {}) + (if fillValue.Some? then {"fill_value"} else {})
      ensures r.Success? ==> forall k ::
        (k in params && k != "rows" && k != "cols" &&
         !(k == "interpolation" && interpolation.Some?) && !(k == "fill_value" && fillValue.Some?)) ==>
        r.value[k] == params[k]
    {
      var withInterpolation := if interpolation.Some? then params["interpolation" := interpolation.value] else params;
      var withFill := if fillValue.Some? then withInterpolation["fill_value" := fillValue.value] else withInterpolation;
      if "image" !in bundle then Failure(KeyError("image"))
      else if !bundle["image"].Arr? then Failure(AttributeError("shape"))
      else if |bundle["image"].shape| < 2 then Failure(IndexError)
      else
        var shape := bundle["image"].shape;
        Success(withFill["cols" := Num(shape[1] as real)]["rows" := Num(shape[0] as real)])
    }

    /** `update_params`, writing into the dictionary it is given. */
    method UpdateParams(params: Params, bundle: map<string, Value>) returns (r: Result<Params>)
      ensures r == UpdatedParams(params, bundle)
    {
      var out := params;
      if interpolation.Some? {
        out := out["interpolation" := interpolation.value];
      }
      if fillValue.Some? {
        out := out["fill_value" := fillValue.value];
      }
      if "image" !in bundle {
        return Failure(KeyError("image"));
      }
      var image := bundle["image"];
      if !image.Arr? {
        return Failure(AttributeError("shape"));
      }
      if |image.shape| < 2 {
        return Failure(IndexError);
      }
      out := out["cols" := Num(image.shape[1] as real)];
      out := out["rows" := Num(image.shape[0] as real)];
      return Success(out);
    }

    /** `get_params_dependent_on_targets`, which raises unless the subclass defines it. */
    function ParamsOnTargets(targets: Params): (r: Result<Params>)
      ensures leaves.paramsOnTargets.None? ==> r == Failure(NotImplemented("get_params_dependent_on_targets"))
      ensures leaves.paramsOnTargets.Some? ==> r == leaves.paramsOnTargets.value(targets)
    {
      if leaves.paramsOnTargets.Some? then leaves.paramsOnTargets.value(targets)
      else Failure(NotImplemented("get_params_dependent_on_targets"))
    }

    /** `{k: kwargs[k] for k in self.targets_as_params}`, over the names present in the bundle. */
    function TargetEntries(bundle: map<string, Value>): Params {
      map k | k in targetsAsParams && k in bundle :: bundle[k]
    }

    /**
     * The parameter set of an active call: `get_params()`, then `update_params`, then, when
     * `targets_as_params` is not empty, the parameters computed from those bundle entries.
     */
    function SharedParams(bundle: map<string, Value>): (r: Result<Params>)
      ensures UpdatedParams(leaves.getParams, bundle).Failure? ==> r == Failure(UpdatedParams(leaves.getParams, bundle).error)
      ensures "image" !in bundle ==> r == Failure(KeyError("image"))
      ensures UpdatedParams(leaves.getParams, bundle).Success? && (exists k :: k in targetsAsParams && k !in bundle) ==>
        r.Failure? && r.error.KeyError? && r.error.key in targetsAsParams && r.error.key !in bundle
      ensures UpdatedParams(leaves.getParams, bundle).Success? && (exists k :: k in targetsAsParams && k !in bundle) ==>
        r.Failure? && FirstMissing(targetsAsParams, bundle, r.error)
      ensures r.Success? ==> forall k :: k in targetsAsParams ==> k in bundle
      ensures r.Success? ==> "rows" in r.value && "cols" in r.value
      ensures r.Success? && targetsAsParams == [] ==> r == UpdatedParams(leaves.getParams, bundle)
      // the data-dependent layer: the named entries go to `get_params_dependent_on_targets`,
      // whose result overrides the updated parameters and whose failure propagates
      ensures r.Success? && targetsAsParams != [] ==>
        UpdatedParams(leaves.getParams, bundle).Success? && ParamsOnTargets(TargetEntries(bundle)).Success? &&
        r.value == UpdatedParams(leaves.getParams, bundle).value + ParamsOnTargets(TargetEntries(bundle)).value
      ensures (UpdatedParams(leaves.getParams, bundle).Success? && targetsAsParams != [] &&
               (forall k :: k in targetsAsParams ==> k in bundle) && ParamsOnTargets(TargetEntries(bundle)).Failure?) ==>
        r == Failure(ParamsOnTargets(TargetEntries(bundle)).error)
      ensures (UpdatedParams(leaves.getParams, bundle).Success? && targetsAsParams != [] &&
               (forall k :: k in targetsAsParams ==> k in bundle) && leaves.paramsOnTargets.None?) ==>
        r == Failure(NotImplemented("get_params_dependent_on_targets"))
    {
      var params :- UpdatedParams(leaves.getParams, bundle);
      if targetsAsParams == [] then Success(params)
      else
        CollectFromBundle(targetsAsParams, bundle);
        var targets :- Collect(targetsAsParams, Lookup(bundle));
        assert targets == TargetEntries(bundle);
        var dependent :- ParamsOnTargets(targets);
        Success(params + dependent)
    }

    // ---------------------------------------------------------------- routing

    /** `_get_target_function`'s lookup key: one level of alias resolution. */
    function TargetKey(key: string): (r: string)
      reads this
      ensures key in additionalTargets ==> r == additionalTargets[key]
      ensures key !in additionalTargets ==> r == key
    {
      if key in additionalTargets then additionalTargets[key] else key
    }

    /** Whether the variant's target table has an entry for `target`. */
    predicate Routes(target: string) {
      match variant
      case Basic => false
      case ImageOnly => target == "image"
      case _ => target in DualTargets
    }

    /** `target_dependence.get(key, [])`, looked up by the bundle key as given. */
    function Dependence(key: string): seq<string> {
      if key in targetDependence then targetDependence[key] else []
    }

    /**
     * `dict(params, **target_dependencies)`: the keyword arguments a target function receives.
     * Each dependency is the bundle entry of that name, and it overrides a shared parameter of
     * the same name.
     */
    function Keywords(key: string, params: Params, bundle: map<string, Value>): (r: Result<Params>)
      ensures r.Success? <==> forall k :: k in Dependence(key) ==> k in bundle
      ensures r.Failure? ==> r.error.KeyError? && r.error.key in Dependence(key) && r.error.key !in bundle
      ensures r.Failure? ==> FirstMissing(Dependence(key), bundle, r.error)
      ensures r.Success? ==> forall k :: k in r.value <==> k in params || k in Dependence(key)
      ensures r.Success? ==> forall k :: k in Dependence(key) ==> r.value[k] == bundle[k]
      ensures r.Success? ==> forall k :: k in params && k !in Dependence(key) ==> r.value[k] == params[k]
    {
      CollectFromBundle(Dependence(key), bundle);
      var deps :- Collect(Dependence(key), Lookup(bundle));
      Success(params + deps)
    }

    /** `self.apply`. */
    function Apply(img: Value, params: Params): (r: Result<Value>)
      ensures variant == Variant.NoOp ==> r == Success(img)
      ensures variant != Variant.NoOp && leaves.apply.None? ==> r == Failure(NotImplemented("apply"))
      ensures variant != Variant.NoOp && leaves.apply.Some? ==> r == leaves.apply.value(img, params)
    {
      if variant == Variant.NoOp then Success(img)
      else if leaves.apply.Some? then leaves.apply.value(img, params)
      else Failure(NotImplemented("apply"))
    }

    /** `self.apply_to_mask`. */
    function ApplyToMask(img: Value, params: Params): (r: Result<Value>)
      ensures variant == Variant.NoOp ==> r == Success(img)
      ensures variant != Variant.NoOp && leaves.applyToMask.Some? ==> r == leaves.applyToMask.value(img, params)
      ensures variant != Variant.NoOp && leaves.applyToMask.None? ==> r == Apply(img, MaskParams(params))
      ensures variant != Variant.NoOp && leaves.applyToMask.None? && leaves.apply.None? ==>
        r == Failure(NotImplemented("apply"))
    {
      if variant == Variant.NoOp then Success(img)
      else if leaves.applyToMask.Some? then leaves.applyToMask.value(img, params)
      else Apply(img, MaskParams(params))
    }

    /** `self.apply_to_bbox`. */
    function BboxLeaf(): (leaf: RecordLeaf)
      ensures variant != Variant.NoOp && leaves.applyToBbox.Some? ==> leaf == leaves.applyToBbox.value
    {
      if variant == Variant.NoOp then (h, q) => Success(h)
      else if leaves.applyToBbox.Some? then leaves.applyToBbox.value
      else (h, q) => Failure(NotImplemented("apply_to_bbox"))
    }

    /** `self.apply_to_keypoint`. */
    function KeypointLeaf(): (leaf: RecordLeaf)
      ensures variant != Variant.NoOp && leaves.applyToKeypoint.Some? ==> leaf == leaves.applyToKeypoint.value
    {
      if variant == Variant.NoOp then (h, q) => Success(h)
      else if leaves.applyToKeypoint.Some? then leaves.applyToKeypoint.value
      else (h, q) => Failure(NotImplemented("apply_to_keypoint"))
    }

    /**
     * The box and keypoint leaves a transform does not override: the identity for a NoOp, the
     * NotImplementedError of the dual base class otherwise.
     */
    lemma InheritedRecordLeaves(b: seq<Value>, q: Params)
      ensures variant == Variant.NoOp ==> BboxLeaf()(b, q) == Success(b) && KeypointLeaf()(b, q) == Success(b)
      ensures variant != Variant.NoOp && leaves.applyToBbox.None? ==>
        BboxLeaf()(b, q) == Failure(NotImplemented("apply_to_bbox"))
      ensures variant != Variant.NoOp && leaves.applyToKeypoint.None? ==>
        KeypointLeaf()(b, q) == Failure(NotImplemented("apply_to_keypoint"))
    {
    }

    /**
     * The target function registered for `target`, called on `arg`. The recording targets of a
     * dual transform run `keep_memory` before the leaf; `masks` records nothing; a name missing
     * from the table is the identity.
     */
    function Invoke(target: string, arg: Value, kw: Params): (r: Result<Value>)
      ensures variant == Basic ==> r == Failure(NotImplemented("targets"))
      ensures variant != Basic && !Routes(target) ==> r == Success(arg)
      ensures (variant == Dual || variant == Variant.NoOp) && target in {"bboxes", "keypoints"} && KindOf(arg) != Other ==>
        r == ApplyToRecords(KeepMemory(arg, this, kw).value, if target == "bboxes" then BboxLeaf() else KeypointLeaf(), kw)
    {
      match variant
      case Basic => Failure(NotImplemented("targets"))
      case ImageOnly => if target == "image" then Apply(arg, kw) else Success(arg)
      case _ =>
        if target == "image" then
          var q :- KeepMemory(arg, this, kw);
          Apply(q, kw)
        else if target == "mask" then
          var q :- KeepMemory(arg, this, kw);
          ApplyToMask(q, kw)
        else if target == "masks" then
          ApplyToMasks(arg, (m, q) => ApplyToMask(m, q), kw)
        else if target == "bboxes" then
          var q :- KeepMemory(arg, this, kw);
          ApplyToRecords(q, BboxLeaf(), kw)
        else if target == "keypoints" then
          var q :- KeepMemory(arg, this, kw);
          ApplyToRecords(q, KeypointLeaf(), kw)
        else Success(arg)
    }

    /** One non-None bundle entry: resolve the target function, gather dependencies, call it. */
    function TargetCall(key: string, arg: Value, params: Params, bundle: map<string, Value>): (r: Result<Value>)
      reads this
      ensures variant == Basic ==> r == Failure(NotImplemented("targets"))
      ensures variant != Basic && Keywords(key, params, bundle).Failure? ==> r == Failure(Keywords(key, params, bundle).error)
      ensures variant != Basic && Keywords(key, params, bundle).Success? ==>
        r == Invoke(TargetKey(key), arg, Keywords(key, params, bundle).value)
    {
      if variant == Basic then Failure(NotImplemented("targets"))
      else
        var kw :- Keywords(key, params, bundle);
        Invoke(TargetKey(key), arg, kw)
    }

    /** What an active call puts under `key`: None stays None, anything else goes through its target. */
    function RouteKey(key: string, params: Params, bundle: map<string, Value>): (r: Result<Value>)
      requires key in bundle
      reads this
      ensures bundle[key] == Nil ==> r == Success(Nil)
      ensures bundle[key] != Nil ==> r == TargetCall(key, bundle[key], params, bundle)
    {
      if bundle[key] == Nil then Success(Nil) else TargetCall(key, bundle[key], params, bundle)
    }

    /** The outcome of the loop over the bundle with the shared parameters `params`. */
    ghost predicate Dispatched(r: Result<map<string, Value>>, params: Params, bundle: map<string, Value>)
      reads this
    {
      && (r.Success? <==> forall k :: k in bundle ==> RouteKey(k, params, bundle).Success?)
      && (r.Success? ==> r.value.Keys == bundle.Keys)
      && (r.Success? ==> forall k :: k in bundle ==> r.value[k] == RouteKey(k, params, bundle).value)
      && (r.Failure? ==> exists k :: k in bundle && RouteKey(k, params, bundle) == Failure(r.error))
    }

    // ---------------------------------------------------------------- the call

    /**
     * `__call__(force_apply, **kwargs)` with `draw` the value of `random.random()`. An inactive
     * call returns the bundle itself; an active one builds the shared parameters once and then
     * fills a fresh result map with one entry per bundle key.
     */
    method Call(forceApply: bool, draw: real, bundle: map<string, Value>) returns (r: Result<map<string, Value>>)
      requires 0.0 <= draw < 1.0
      ensures !Active(forceApply, draw) ==> r == Success(bundle)
      ensures p <= 0.0 && !alwaysApply && !forceApply ==> r == Success(bundle)
      ensures Active(forceApply, draw) && SharedParams(bundle).Failure? ==> r == Failure(SharedParams(bundle).error)
      ensures Active(forceApply, draw) && SharedParams(bundle).Success? ==> Dispatched(r, SharedParams(bundle).value, bundle)
      ensures r.Success? ==> r.value.Keys == bundle.Keys
      ensures r.Success? ==> forall k :: k in bundle && bundle[k] == Nil ==> r.value[k] == Nil
      ensures Active(forceApply, draw) && "image" !in bundle ==> r == Failure(KeyError("image"))
    {
      if !(draw < p || alwaysApply || forceApply) {
        return Success(bundle);
      }
      var updated := UpdateParams(leaves.getParams, bundle);
      if updated.Failure? {
        return Failure(updated.error);
      }
      var params := updated.value;
      if targetsAsParams != [] {
        var targets := Collect(targetsAsParams, Lookup(bundle));
        if targets.Failure? {
          return Failure(targets.error);
        }
        var dependent := ParamsOnTargets(targets.value);
        if dependent.Failure? {
          return Failure(dependent.error);
        }
        params := params + dependent.value;
      }
      assert SharedParams(bundle) == Success(params);
      r := Dispatch(params, bundle);
      if r.Success? {
        NilKeysStayNil(r, params, bundle);
      }
    }

    /** The loop of an active call: one pass over the bundle, writing a fresh result map. */
    method Dispatch(params: Params, bundle: map<string, Value>) returns (r: Result<map<string, Value>>)
      ensures Dispatched(r, params, bundle)
    {
      var res: map<string, Value> := map[];
      var todo := bundle.Keys;
      while todo != {}
        invariant todo <= bundle.Keys
        invariant res.Keys == bundle.Keys - todo
        invariant forall k :: k in res ==> RouteKey(k, params, bundle) == Success(res[k])
        decreases todo
      {
        var key :| key in todo;
        var arg := bundle[key];
        if arg != Nil {
          var out := TargetCall(key, arg, params, bundle);
          if out.Failure? {
            return Failure(out.error);
          }
          res := res[key := out.value];
        } else {
          res := res[key := Nil];
        }
        todo := todo - {key};
      }
      return Success(res);
    }

    /** A key present with None is present with None afterwards. */
    lemma NilKeysStayNil(r: Result<map<string, Value>>, params: Params, bundle: map<string, Value>)
      requires Dispatched(r, params, bundle) && r.Success?
      ensures r.value.Keys == bundle.Keys
      ensures forall k :: k in bundle && bundle[k] == Nil ==> r.value[k] == Nil
    {
    }

    // ---------------------------------------------------------------- routing properties

    /**
     * An alias key is resolved exactly one level: its entry goes to the target function of the
     * name it is mapped to, even when that name is itself an alias, and it is the alias key's own
     * artifact and dependencies that reach that function.
     */
    lemma AliasRoutesOneLevel(alias: string, params: Params, bundle: map<string, Value>)
      requires alias in bundle && bundle[alias] != Nil && alias in additionalTargets
      requires variant != Basic && Keywords(alias, params, bundle).Success?
      ensures RouteKey(alias, params, bundle) ==
        Invoke(additionalTargets[alias], bundle[alias], Keywords(alias, params, bundle).value)
    {
    }

    /** A key without a registered target comes back exactly as given, history included. */
    lemma UnregisteredKeyIsIdentity(key: string, params: Params, bundle: map<string, Value>)
      requires key in bundle && variant != Basic && !Routes(TargetKey(key))
      requires forall k :: k in Dependence(key) ==> k in bundle
      ensures RouteKey(key, params, bundle) == Success(bundle[key])
    {
    }

    /**
     * Dual transforms record on the image, mask, boxes and keypoints before their leaf runs, so
     * an artifact that cannot carry history makes the call fail; an image-only transform hands
     * the unrecorded image straight to `apply`.
     */
    lemma RecordingTargets(target: string, arg: Value, kw: Params)
      ensures (variant == Dual || variant == Variant.NoOp) && target in {"image", "mask", "bboxes", "keypoints"} ==>
        (KindOf(arg) == Other ==> Invoke(target, arg, kw) == Failure(AttributeError("transforms")))
      ensures (variant == Dual || variant == Variant.NoOp) && target == "image" && KindOf(arg) != Other ==>
        Invoke(target, arg, kw) == Apply(KeepMemory(arg, this, kw).value, kw)
      ensures (variant == Dual || variant == Variant.NoOp) && target == "mask" && KindOf(arg) != Other ==>
        Invoke(target, arg, kw) == ApplyToMask(KeepMemory(arg, this, kw).value, kw)
      ensures variant == ImageOnly ==>
        Invoke(target, arg, kw) == if target == "image" then Apply(arg, kw) else Success(arg)
    {
    }

    /** `masks` records nothing: each mask of the list goes through `apply_to_mask` as given. */
    lemma MasksRecordNothing(arg: Value, kw: Params)
      requires variant == Dual || variant == Variant.NoOp
      requires Invoke("masks", arg, kw).Success?
      ensures Iterate(arg).Success?
      ensures var out := Invoke("masks", arg, kw).value; var items := Iterate(arg).value;
        out.Lst? && out.hist.None? && |out.items| == |items| &&
        forall i :: 0 <= i < |items| ==> out.items[i] == ApplyToMask(items[i], kw).value
    {
    }

    /**
     * An active NoOp changes no content: the image and the mask come back with the entry recorded
     * by `keep_memory`, boxes and keypoints come back as `[list(b) for b in input]`, masks as a
     * list of the same masks, and anything else unchanged.
     */
    lemma NoOpKeepsContent(key: string, params: Params, bundle: map<string, Value>)
      requires variant == Variant.NoOp && key in bundle && bundle[key] != Nil
      requires RouteKey(key, params, bundle).Success?
      ensures Keywords(key, params, bundle).Success?
      ensures var arg := bundle[key]; var out := RouteKey(key, params, bundle).value;
        var target := TargetKey(key); var entry := Entry(this, Keywords(key, params, bundle).value);
        && (target in {"image", "mask"} ==> Bare(out) == Bare(arg))
        && (target in {"image", "mask"} && KindOf(arg) == Tracked ==>
              HistoryOf(out) == Some(HistoryOf(arg).value + [entry]))
        && (target in {"image", "mask"} && KindOf(arg) == Settable ==> HistoryOf(out) == Some([entry]))
        && (target in {"image", "mask"} && KindOf(arg) in {PlainArray, PlainList} ==> out == arg)
        && (target in {"bboxes", "keypoints"} ==>
              Iterate(arg).Success? && out.Lst? && out.hist.None? && |out.items| == |Iterate(arg).value| &&
              forall i :: 0 <= i < |Iterate(arg).value| ==>
                Iterate(Iterate(arg).value[i]).Success? &&
                out.items[i] == Lst(Iterate(Iterate(arg).value[i]).value, None))
        && (target == "masks" ==> out == Lst(Iterate(arg).value, None))
        && (target !in DualTargets ==> out == arg)
    {
      var arg := bundle[key];
      var kw := Keywords(key, params, bundle).value;
      var target := TargetKey(key);
      assert RouteKey(key, params, bundle) == Invoke(target, arg, kw);
      if target in {"image", "mask"} {
        var q := KeepMemory(arg, this, kw).value;
        assert Invoke(target, arg, kw) == Success(q);
        if KindOf(arg) == Tracked {
          var h := HistoryOf(q).value;
          assert h == h[..|HistoryOf(arg).value|] + [h[|HistoryOf(arg).value|]];
        }
      } else if target in {"bboxes", "keypoints"} {
        var q := KeepMemory(arg, this, kw).value;
        IterateIgnoresHistory(arg, q);
        var keep: RecordLeaf := (h, p') => Success(h);
        var leaf := if target == "bboxes" then BboxLeaf() else KeypointLeaf();
        assert Invoke(target, arg, kw) == ApplyToRecords(q, leaf, kw);
        assert ApplyToRecords(q, leaf, kw) == ApplyToRecords(q, keep, kw);
        assert ToLists(Iterate(q).value).Success?;
        IdentityLeafCopiesRecords(q, kw);
      } else if target == "masks" {
        MasksRecordNothing(arg, kw);
        var items := Iterate(arg).value;
        assert RouteKey(key, params, bundle).value.items == items;
      }
    }

    // ---------------------------------------------------------------- serialisation

    /** `get_base_init_args()`. */
    function BaseInitArgs(): (r: Params)
      ensures r.Keys == {"always_apply", "p"}
      ensures r["always_apply"] == Flag(alwaysApply) && r["p"] == Num(p)
    {
      map["always_apply" := Flag(alwaysApply), "p" := Num(p)]
    }

    /** `getattr(self, name)` for a constructor argument. */
    function Attribute(name: string): (r: Result<Value>)
      ensures r.Success? <==>
        name in {"p", "always_apply"} || (name == "interpolation" && interpolation.Some?) ||
        (name == "fill_value" && fillValue.Some?) || name in config
      ensures r.Failure? ==> r.error == AttributeError(name)
      ensures name == "p" ==> r == Success(Num(p))
      ensures name == "always_apply" ==> r == Success(Flag(alwaysApply))
      ensures name == "interpolation" && interpolation.Some? ==> r == Success(interpolation.value)
      ensures name == "fill_value" && fillValue.Some? ==> r == Success(fillValue.value)
      ensures name in config && name !in {"p", "always_apply", "interpolation", "fill_value"} ==> r == Success(config[name])
    {
      if name == "p" then Success(Num(p))
      else if name == "always_apply" then Success(Flag(alwaysApply))
      else if name == "interpolation" && interpolation.Some? then Success(interpolation.value)
      else if name == "fill_value" && fillValue.Some? then Success(fillValue.value)
      else if name in config then Success(config[name])
      else Failure(AttributeError(name))
    }

    /** `get_transform_init_args_names()`, which raises unless the class declares it. */
    function TransformInitArgNames(): (r: Result<seq<string>>)
      ensures r.Failure? <==> initArgNames.None?
      ensures r.Failure? ==> r.error.NotImplemented?
      ensures r.Success? ==> r.value == initArgNames.value
    {
      if initArgNames.Some? then Success(initArgNames.value)
      else Failure(NotImplemented("get_transform_init_args_names"))
    }

    /** `get_transform_init_args()`: each declared name mapped to the attribute of that name. */
    function TransformInitArgs(): (r: Result<Params>)
      ensures initArgNames.None? ==> r.Failure? && r.error.NotImplemented?
      ensures r.Success? ==> forall k :: k in r.value <==> k in initArgNames.value
      ensures r.Success? ==> forall k :: k in r.value ==> Attribute(k) == Success(r.value[k])
      ensures initArgNames.Some? && (exists k :: k in initArgNames.value && Attribute(k).Failure?) ==> r.Failure?
      ensures initArgNames.Some? && (forall k :: k in initArgNames.value ==> Attribute(k).Success?) ==> r.Success?
      ensures r.Failure? && initArgNames.Some? ==>
        exists i :: 0 <= i < |initArgNames.value| && Attribute(initArgNames.value[i]) == Failure(r.error) &&
          forall j :: 0 <= j < i ==> Attribute(initArgNames.value[j]).Success?
    {
      var names :- TransformInitArgNames();
      Collect(names, k => Attribute(k))
    }

    /** An init argument named `p` or `always_apply` is the transform's own value. */
    lemma InitArgsAgreeWithBase(args: Params)
      requires forall k :: k in args ==> Attribute(k) == Success(args[k])
      ensures "p" in args ==> args["p"] == Num(p)
      ensures "always_apply" in args ==> args["always_apply"] == Flag(alwaysApply)
    {
    }

    /**
     * `_to_dict()`: the class name, then the base arguments, then the transform's own arguments,
     * later entries overriding earlier ones.
     */
    function ToDict(): (r: Result<Params>)
      ensures r.Success? <==> TransformInitArgs().Success?
      ensures r.Success? ==> r.value.Keys == {"__class_fullname__", "always_apply", "p"} + TransformInitArgs().value.Keys
      ensures r.Success? ==> forall k :: k in TransformInitArgs().value ==> r.value[k] == TransformInitArgs().value[k]
      ensures r.Success? ==> r.value["p"] == Num(p) && r.value["always_apply"] == Flag(alwaysApply)
      ensures r.Success? && "__class_fullname__" !in TransformInitArgs().value ==>
        r.value["__class_fullname__"] == Text(fullname)
    {
      var args :- TransformInitArgs();
      InitArgsAgreeWithBase(args);
      var base := map["__class_fullname__" := Text(fullname)] + BaseInitArgs();
      assert base.Keys == {"__class_fullname__", "always_apply", "p"};
      Success(base + args)
    }
  }
}
