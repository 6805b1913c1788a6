# Transform invocation engine of an image-augmentation library

A Dafny model of `albumentations/core/transforms_interface.py`: how one transform is invoked on a
bundle of co-registered artifacts (image, mask, list of masks, bounding boxes, keypoints, and any
alias keys). The model covers

- `to_tuple`, the range normaliser (`Ranges`);
- the activation rule, the shared parameter set (`get_params`, `update_params`,
  `targets_as_params`), target routing with the one-level alias table, per-target dependencies,
  and the single pass over the bundle that builds the result map (`Transforms.Transform`);
- `keep_memory`, which attaches a provenance entry `{transform, params}` to an artifact, over the
  closed set of artifact kinds: already tracked, attribute-settable object, plain ndarray, plain
  list, anything else (`Provenance`);
- the dual-transform composition rules: boxes and keypoints split into a four-field head that the
  leaf transforms and a payload tail that is re-appended, masks processed with nearest-neighbour
  interpolation, lists of masks mapped element by element (`Geometry`);
- the base, dual, image-only and no-op variants, and the serialisation maps
  `get_base_init_args`, `get_transform_init_args`, `_to_dict`.

Python values are one datatype, `Values.Value` (None, bool, number, string, tuple, list, ndarray,
settable object). A list, array or object carries `hist`, its `transforms` attribute, `None` when
absent. Exceptions are `Wrappers.Error` values carried by `Result`.

The random draw `random.random()` is the `draw` parameter of `Transform.Call`, a real in [0, 1).
The leaf operations of a concrete transform (`apply`, `apply_to_bbox`, `apply_to_keypoint`,
`apply_to_mask`, `get_params_dependent_on_targets`) are fields of `Transforms.Leaves`,
arrow-typed and possibly failing; `None` means "not overridden", which is the NotImplementedError
of the base class (or, for `apply_to_mask`, the inherited nearest-neighbour call of `apply`).
`get_params` is the field `getParams`, a fixed parameter map that cannot fail. `cv2.INTER_NEAREST` is the constant `Geometry.InterNearest` (0).

Two behaviours of the code are modelled as written:

- For a plain ndarray or a plain list, `keep_memory` binds the `TransformsArray` / `TransformsList`
  wrapper only to its local `quant` (lines 95-97) and never returns it. `_apply` and the other
  recording targets then hand the caller's original artifact to the leaf, so that artifact gains no
  history.
- An artifact that can carry no attribute makes `keep_memory` re-raise the AttributeError of
  setting `transforms`. `add_targets` replaces the whole alias table rather than extending it.

## Model

| member | source | states |
|---|---|---|
| `Ranges.ToTuple` | albumentations/core/transforms_interface.py:16-44 | `low` with `bias` raises ValueError for every `param`, None included; otherwise None maps to None; anything that is neither a scalar nor a plain list or tuple raises ValueError, a `TransformsList` included (a `UserList` under Python 3); a scalar without `low` gives (offset - v, offset + v); a scalar with `low` gives the ascending pair (min, max); a plain list or tuple keeps its elements and order, ignores `low`, and with `bias` has every element shifted, raising TypeError when an element is not a number |
| `Ranges.AddBias` | albumentations/core/transforms_interface.py:41-42 | succeeds exactly when every element is a number; the result has the same length and element i is `bias + x_i`; otherwise TypeError |
| `Ranges.SymmetricRangeAscendingIff` | albumentations/core/transforms_interface.py:32-33 | without `low`, a scalar range is ascending exactly when the scalar is not negative |
| `Ranges.ToTupleExamples` | albumentations/core/transforms_interface.py:16-44 | `to_tuple(5) == (-5, 5)`, `to_tuple(5, low=2) == (2, 5)`, `to_tuple((1, 2)) == (1, 2)`, `to_tuple(5, bias=1) == (-4, 6)`; `low` with `bias` fails, also for None; a `TransformsList` is rejected |
| `Values.Iterate` | albumentations/core/transforms_interface.py:212-213 | a `for` loop succeeds exactly on tuples, lists, strings and arrays of positive rank; it visits the items of a tuple, list or array, and the one-character strings of a string, in order; anything else raises TypeError |
| `Values.Collect` | albumentations/core/transforms_interface.py:59-66 | a dict comprehension over names succeeds exactly when every lookup does, has exactly those names as keys with the looked-up values, and otherwise raises the error of the first failing name |
| `Values.Lookup` | albumentations/core/transforms_interface.py:59 | `kwargs[k]` is the entry under `k`, or KeyError(k) for a missing key |
| `Values.CollectFromBundle` | albumentations/core/transforms_interface.py:59-66 | collecting bundle keys succeeds exactly when all are present, gives the map of their values, and otherwise raises the KeyError of the first missing key in list order |
| `Provenance.KindOf` | albumentations/core/transforms_interface.py:87-99 | the branch `keep_memory` takes: tracked exactly when the artifact has a `transforms` attribute; settable, plain array or plain list for an object, ndarray or list without one; "other" exactly for values that are none of these |
| `Provenance.KeepMemory` | albumentations/core/transforms_interface.py:86-100 | fails (AttributeError) exactly for the "other" kind; never changes content; a tracked artifact gains exactly one entry `{transform, params}` at the end with earlier entries unchanged; a settable object gets a one-entry history; a plain ndarray or list comes back unchanged |
| `Provenance.Record` | albumentations/core/transforms_interface.py:91-100 | setting `transforms` changes only the history |
| `Provenance.KeepMemoryTwice` | albumentations/core/transforms_interface.py:86-100 | two recordings append both entries in call order after the earlier history |
| `Provenance.IterateIgnoresHistory` | albumentations/core/transforms_interface.py:194-199 | a recorded artifact iterates over the same items as before recording |
| `Geometry.HeadTailSplit` | albumentations/core/transforms_interface.py:213 | `b[:4] + b[4:] == b`, and the head has four fields or fewer |
| `Geometry.MaskParams` | albumentations/core/transforms_interface.py:219-220 | the same keys; `interpolation`, when present, becomes nearest-neighbour; every other parameter unchanged; no key added |
| `Geometry.ToLists` | albumentations/core/transforms_interface.py:212 | `[list(b) for b in items]`: same length, element i is the items of b_i; otherwise the error of the first non-iterable element |
| `Geometry.MapHeads` | albumentations/core/transforms_interface.py:213 | same length and order; element i is `leaf(b_i[:4]) + b_i[4:]`; otherwise the error of the first failing leaf call |
| `Geometry.ApplyToRecords` | albumentations/core/transforms_interface.py:211-217 | a non-iterable input raises its TypeError; every record is turned into a list before any leaf runs, so a non-iterable record raises the first such TypeError; otherwise success exactly when the leaf succeeds on every head, and a failure is the error of the first record whose leaf call fails; the result is a plain list with as many records as the input |
| `Geometry.MapMasks` | albumentations/core/transforms_interface.py:223 | same length and order; element i is the mask leaf on mask i; otherwise the first failure |
| `Geometry.ApplyToMasks` | albumentations/core/transforms_interface.py:222-223 | a plain list of as many masks as the input, successful exactly when every mask leaf succeeds; otherwise the error of the first failing mask leaf comes through |
| `Geometry.RecordsElementwise` | albumentations/core/transforms_interface.py:211-217 | output record i equals `leaf(list(b_i)[:4]) + list(b_i)[4:]` |
| `Geometry.TailPreserved` | albumentations/core/transforms_interface.py:211-217 | when the leaf keeps the head's length, the record keeps its length, its tail fields are untouched and in place, and its head is the leaf's result |
| `Geometry.EmptyRecordsSkipLeaf` | albumentations/core/transforms_interface.py:205-213 | an empty box or keypoint list never calls the leaf, so an unimplemented leaf does not raise |
| `Geometry.UnimplementedLeafRaises` | albumentations/core/transforms_interface.py:205-213 | a non-empty list of iterable records reaches the leaf, so an unimplemented leaf raises its NotImplementedError |
| `Geometry.IdentityLeafCopiesRecords` | albumentations/core/transforms_interface.py:237-241 | with an identity leaf the result is `[list(b) for b in input]` |
| `Geometry.MasksElementwise` | albumentations/core/transforms_interface.py:222-223 | output mask i is the mask leaf applied to input mask i |
| `Transforms.Transform.constructor` | albumentations/core/transforms_interface.py:49-52 | stores the configuration; the alias table starts empty; the extra attribute map holds none of `p`, `always_apply`, `interpolation`, `fill_value`, so `getattr` and `hasattr` agree on them |
| `Transforms.Transform.NoOp` | albumentations/core/transforms_interface.py:234-247 | a no-op transform inherits every member but the four leaves: no interpolation, fill value, data-dependent targets, dependencies, own parameters or init-arg names |
| `Transforms.Transform.AddTargets` | albumentations/core/transforms_interface.py:133-142 | the alias table is replaced by the given one |
| `Transforms.Transform.Active` | albumentations/core/transforms_interface.py:55 | `always_apply` or `force_apply` always activates; `p >= 1` activates for every draw in [0, 1); `p <= 0` without either flag never does |
| `Transforms.Transform.UpdatedParams` | albumentations/core/transforms_interface.py:119-127 | missing `image` raises KeyError, an image without a shape AttributeError, a shape of rank below two IndexError; otherwise `rows`/`cols` are the image's shape[0] and shape[1], `interpolation` and `fill_value` are added exactly when the transform has them, the key set is the input's plus these, and every other parameter is unchanged, including an `interpolation` or `fill_value` from `get_params` when the transform lacks that attribute |
| `Transforms.Transform.UpdateParams` | albumentations/core/transforms_interface.py:119-127 | the dictionary written step by step equals `UpdatedParams` |
| `Transforms.Transform.ParamsOnTargets` | albumentations/core/transforms_interface.py:148-150 | the subclass's `get_params_dependent_on_targets`, or NotImplementedError when it is not overridden |
| `Transforms.Transform.SharedParams` | albumentations/core/transforms_interface.py:56-61 | failures of `update_params` propagate, missing `image` raises KeyError, a missing `targets_as_params` key raises the KeyError of the first missing one in list order; a success contains `rows` and `cols`; with no data-dependent targets it is exactly the updated parameters, otherwise the updated parameters overridden by what `get_params_dependent_on_targets` returns for the named bundle entries; that method's failure, NotImplementedError when it is not overridden, propagates |
| `Transforms.Transform.TargetKey` | albumentations/core/transforms_interface.py:78-82 | an alias key maps to its table entry, without following that entry further; any other key to itself |
| `Transforms.Transform.Keywords` | albumentations/core/transforms_interface.py:66-67 | the target's keyword arguments exist exactly when every dependency of the original key is in the bundle, and otherwise the KeyError of the first missing dependency is raised; keys are parameters plus dependencies; dependencies take the bundle's values and override shared parameters of the same name; other parameters are kept |
| `Transforms.Transform.Apply` | albumentations/core/transforms_interface.py:102-103 | a NoOp returns the image; otherwise the subclass's `apply`, or NotImplementedError when it is not overridden |
| `Transforms.Transform.ApplyToMask` | albumentations/core/transforms_interface.py:219-220 | a NoOp returns the mask; an overriding `apply_to_mask` is used as is; the inherited one is `apply` with nearest-neighbour interpolation, so NotImplementedError when `apply` is not overridden either |
| `Transforms.Transform.BboxLeaf` | albumentations/core/transforms_interface.py:205-206 | the subclass's `apply_to_bbox` when it overrides it |
| `Transforms.Transform.KeypointLeaf` | albumentations/core/transforms_interface.py:208-209 | the subclass's `apply_to_keypoint` when it overrides it |
| `Transforms.Transform.InheritedRecordLeaves` | albumentations/core/transforms_interface.py:205-209 | an inherited box or keypoint leaf raises NotImplementedError; a NoOp's returns the record unchanged |
| `Transforms.Transform.Invoke` | albumentations/core/transforms_interface.py:185-203 | the base class raises NotImplementedError for its `targets`; a target missing from the variant's table is the identity; dual boxes and keypoints record first, then go through `apply_to_bboxes` / `apply_to_keypoints` with the box or keypoint leaf |
| `Transforms.Transform.TargetCall` | albumentations/core/transforms_interface.py:65-67 | the target function is resolved before the dependencies are gathered, so the base class raises NotImplementedError even when a dependency is missing; a missing dependency raises its KeyError; otherwise the resolved target's function on the artifact with the merged keywords |
| `Transforms.Transform.RouteKey` | albumentations/core/transforms_interface.py:64-69 | the per-key step of the loop: a None entry stays None, any other entry goes through the target call |
| `Transforms.Transform.Call` | albumentations/core/transforms_interface.py:54-71 | activation iff `draw < p or always_apply or force_apply`; inactive returns the bundle unchanged, so `p = 0` without flags is the identity; active: parameter failures propagate (KeyError without `image`), otherwise every key is routed: success iff every key's route succeeds, the same key set, each value the key's route, None stays None, and a failure is the error of some key's route |
| `Transforms.Transform.Dispatch` | albumentations/core/transforms_interface.py:62-70 | the one pass over the bundle: a fresh map with exactly the bundle's keys, each the result of that key's route, or the error of a failing key |
| `Transforms.Transform.NilKeysStayNil` | albumentations/core/transforms_interface.py:64-69 | None-valued keys are None in the result |
| `Transforms.Transform.AliasRoutesOneLevel` | albumentations/core/transforms_interface.py:78-84 | an alias key's own artifact goes to the target of its alias-table entry, resolved one level only, with the alias key's dependencies |
| `Transforms.Transform.UnregisteredKeyIsIdentity` | albumentations/core/transforms_interface.py:83 | a key without a registered target comes back unchanged, with no provenance entry |
| `Transforms.Transform.RecordingTargets` | albumentations/core/transforms_interface.py:185-231 | dual image, mask, boxes and keypoints record before the leaf, so an artifact of the "other" kind raises; image and mask reach the leaf in their recorded form; an image-only transform calls `apply` on the unrecorded image and leaves all other keys unchanged |
| `Transforms.Transform.MasksRecordNothing` | albumentations/core/transforms_interface.py:189-223 | the `masks` target gives a plain list whose element i is `apply_to_mask` on input mask i, with no recording |
| `Transforms.Transform.NoOpKeepsContent` | albumentations/core/transforms_interface.py:234-247 | an active no-op keeps content: the image and mask gain exactly the one entry `{NoOp, params}` (none for plain arrays and lists), boxes and keypoints become `[list(b) for b in input]`, masks a list of the same masks, other keys unchanged |
| `Transforms.Transform.BaseInitArgs` | albumentations/core/transforms_interface.py:164-168 | exactly the keys `always_apply` and `p`, with the transform's values |
| `Transforms.Transform.TransformInitArgNames` | albumentations/core/transforms_interface.py:156-162 | raises NotImplementedError exactly when the class declares no argument names |
| `Transforms.Transform.Attribute` | albumentations/core/transforms_interface.py:171 | `getattr(self, k)`: `p`, `always_apply`, `interpolation` and `fill_value` when the transform has them, and the configuration's attributes; AttributeError(k) exactly for any other name |
| `Transforms.Transform.TransformInitArgs` | albumentations/core/transforms_interface.py:170-171 | exactly the declared names, each mapped to the attribute of that name; succeeds whenever names are declared and every attribute exists; raises NotImplementedError when no names are declared, and otherwise the AttributeError of the first declared name without an attribute |
| `Transforms.Transform.InitArgsAgreeWithBase` | albumentations/core/transforms_interface.py:164-171 | an init argument named `p` or `always_apply` has the same value as the base argument it overrides |
| `Transforms.Transform.ToDict` | albumentations/core/transforms_interface.py:173-179 | succeeds exactly when the init args do; keys are the class-name key, `always_apply`, `p` and the init args; init args override earlier entries; `p` and `always_apply` are always the transform's own |

## Left out

- `random.random()`: the draw is the parameter `draw`; the random choices inside a concrete `get_params` are not modelled, `get_params` is a fixed map per transform.
- Concrete pixel, box and keypoint algorithms: arbitrary leaf functions; their results need not be consistent with anything.
- Transforms.Transform.Call: the model's artifacts are values, so the in-place mutation of the caller's own artifact objects (and of every alias of them in the bundle or elsewhere) is not modelled; the model describes the values the call returns.
- Transforms.Transform.Dispatch: when several keys would fail, the source raises the error of the first key in dictionary order; the loop takes keys in an unspecified order and its contract states only that the error is that of some failing key.
- Transforms.Transform.Call: when several keys would fail, the source raises the error of the first key in dictionary order; the model iterates in an unspecified order and states only that the error is that of some failing key.
- Python keyword-argument collisions: a keyword equal to a parameter name of the called function (for example `self` of any method, `params` of `update_params`, `x` of the identity fallback, `img`, `quant`, `mask`, `masks`, `bboxes`, `keypoints`, `bbox`, `keypoint`) raises TypeError in the source; the model passes keywords as a map and does not raise it. A bundle never holds `force_apply`, which `__call__` binds to its own parameter.
- `Geometry.RecordLeaf` returns a list; a leaf returning a tuple, which makes `leaf(...) + tail` raise TypeError in the source, is not expressible.
- Ranges.ToTuple: ints and floats are one number type; `bias + x` on an ndarray element (broadcasting) is modelled as a TypeError.
- ndarray semantics in `numpy_core.py`: `__array_finalize__` view propagation, and a `TransformsArray` whose `transforms` is None, are not modelled; an array is its shape plus the items of its first axis, not tied to each other.
- `lists_core.py`: the Python 2/3 `UserList` shim; a `TransformsList` is a list value with a history.
- `__repr__` and `format_args` (string formatting); `get_class_fullname` is an opaque string; `SerializableMeta` and `six.add_metaclass` are not part of this model.
- `getattr(self, k)` in `get_transform_init_args` sees `p`, `always_apply`, `interpolation`, `fill_value` and the transform's configuration map; other attributes (methods, properties, `_additional_targets`) are not modelled.
- Transforms.Transform.AddTargets: the source stores the caller's own dictionary, so the caller mutating it later changes routing; the model's alias table is a value, so that sharing is not modelled.
- Concurrency: the alias table is a field that `AddTargets` replaces; concurrent calls are not modelled.
