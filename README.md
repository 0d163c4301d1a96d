# Orleans grain attributes

A model of `src/Orleans/Core/GrainAttributes.cs` of Orleans, the virtual-actor framework.
The file declares the attributes that configure grains. Two kinds of code in it run:

- `FactoryAttribute.CollectFactoryTypesSpecified` folds the factory attributes on a grain
  interface into one factory kind (`Grain`, `ClientObject` or `Both`). It aggregates them
  "like flags", defaults to `Grain` when there are none, and throws `NotSupportedException`
  when the result is `Both`. `FactoryAttribute` may be applied to an interface only once
  (its `AttributeUsage` at line 244 leaves `AllowMultiple` false), and interfaces have no
  base-class chain for `inherit: true` to walk, so reflection finds at most one attribute.
  The model takes any sequence of attributes; its lemmas hold of the shorter inputs the
  code meets in practice as well. The model is the method `Orleans.CollectFactoryTypesSpecified`:
  a loop over the attributes with a nullable accumulator, proved equal to the specification
  function `Collect`. The loop's accumulator `Fold` is proved equal to an independent definition, `Flags`,
  that looks only at the set of kinds present; `Collect` is tied to `Flags` through
  `NotSupportedIff` and `OkIffUniform`. Order independence, absorption of `Both` and the
  exact failure and success conditions follow from that equality.
- The constructors of the attributes that carry data store their arguments or a default.
  Each attribute is a class whose constructors state the stored value. Properties with a
  private setter become `const` fields, since only a constructor can set them. The public
  `ProviderName` property becomes a `var` with a setter method.

Modules follow the C# namespaces: `Concurrency`, `Placement`, `CodeGeneration`, `Providers`,
and `Orleans` for the root namespace. `Primitives` holds `Option` (for C# null) and `Int32`
(the range of a C# `int`).

Conflicting factory markers escalate to `Both` and fail at the call, as
`GrainAttributes.cs:277-290` does. The default placement strategy is whatever
`PlacementStrategy.GetDefault()` returns (:126), so it is a constructor argument.

## Model

| member | source | states |
|---|---|---|
| Orleans.CollectFactoryTypesSpecified | src/Orleans/Core/GrainAttributes.cs:261-294 | The loop over the attributes returns `Collect` of their kinds: `Grain` for none, otherwise the accumulated kind, or NotSupported when that is `Both`. It never returns `Ok(Both)`. |
| Orleans.FoldIsFlags | src/Orleans/Core/GrainAttributes.cs:269-284 | After any sequence of attributes the nullable accumulator equals the flag aggregate of the set of kinds seen. |
| Orleans.StepAddsFlag | src/Orleans/Core/GrainAttributes.cs:275-283 | One loop iteration turns the flag aggregate of a set into the flag aggregate of that set plus the new kind. |
| Orleans.BothAbsorbs | src/Orleans/Core/GrainAttributes.cs:275-280 | Once the accumulator is `Both`, it stays `Both` whatever attributes follow. |
| Orleans.NotSupportedIff | src/Orleans/Core/GrainAttributes.cs:277-290 | The call fails exactly when some attribute asks for `Both`, or some ask for `Grain` and others for `ClientObject`. |
| Orleans.OkIffUniform | src/Orleans/Core/GrainAttributes.cs:265-293 | The call returns `v` exactly when `v` is not `Both` and every attribute asks for `v`. An empty list counts as asking for `Grain`. |
| Orleans.OrderIndependent | src/Orleans/Core/GrainAttributes.cs:269-284 | Two attribute lists with the same kinds present give the same result, whatever their order and repetitions. |
| Orleans.FactoryAttribute.constructor | src/Orleans/Core/GrainAttributes.cs:256-259 | The attribute records the requested factory kind. |
| Orleans.ImplicitStreamSubscriptionAttribute.constructor | src/Orleans/Core/GrainAttributes.cs:305-311 | The attribute records the given stream namespace unchanged. |
| Concurrency.StatelessWorkerAttribute.constructor | src/Orleans/Core/GrainAttributes.cs:74-79 | `StatelessWorkerAttribute(n)` records `n` unchanged as the maximum number of local workers. |
| Concurrency.StatelessWorkerAttribute.Default | src/Orleans/Core/GrainAttributes.cs:81-84 | `StatelessWorkerAttribute()` records -1, meaning no limit on local workers. |
| Placement.PlacementAttribute.constructor | src/Orleans/Core/GrainAttributes.cs:122-127 | A given strategy is recorded as it is. A null strategy is replaced by the default strategy. |
| Placement.PlacementAttribute.Random | src/Orleans/Core/GrainAttributes.cs:137-141 | `RandomPlacementAttribute()` records the random placement strategy. |
| Placement.PlacementAttribute.PreferLocal | src/Orleans/Core/GrainAttributes.cs:148-152 | `PreferLocalPlacementAttribute()` records the prefer-local placement strategy. |
| Placement.PlacementAttribute.ActivationCountBased | src/Orleans/Core/GrainAttributes.cs:159-163 | `ActivationCountBasedPlacementAttribute()` records the activation-count-based placement strategy. |
| CodeGeneration.TypeCodeOverrideAttribute.constructor | src/Orleans/Core/GrainAttributes.cs:179-184 | The attribute records the given type code unchanged. |
| Providers.StorageProviderAttribute.constructor | src/Orleans/Core/GrainAttributes.cs:233-236 | A new attribute names the default storage provider, "Default". |
| Providers.StorageProviderAttribute.SetProviderName | src/Orleans/Core/GrainAttributes.cs:237-240 | Assigning `ProviderName` replaces the provider name with the given one. |

## Left out

- Reflection (`type.GetCustomAttributes(..., inherit: true)`): the attributes found on an interface are a parameter. The model makes no claim about the order in which reflection returns them; `Orleans.OrderIndependent` shows the result does not depend on it.
- The generic overload `CollectFactoryTypesSpecified<T>()`: it only forwards to the overload that takes a `Type`.
- The `NotSupportedException` object and its message: the failure is the result `NotSupported`.
- `PlacementStrategy.GetDefault()` is defined outside this file: the default strategy is a constructor argument of `Placement.PlacementAttribute`.
- The placement strategy singletons are defined outside this file: each is a tag of `Placement.PlacementStrategy`, with no behaviour.
- The three placement subclasses are named constructors of `Placement.PlacementAttribute`, because the model has no class inheritance.
- `Runtime.Constants.DEFAULT_STORAGE_PROVIDER_NAME` is defined outside this file: the model uses the value "Default", which the doc comment of `StorageProviderAttribute` names.
- Null strings: the stream namespace and the provider name are never null in the model.
- Attributes without members (`ReadOnly`, `Reentrant`, `Unordered`, `AlwaysInterleave`, `Immutable`, `CopierMethod`, `SerializerMethod`, `DeserializerMethod`, `RegisterSerializer`): they hold no data and run no code.
- The runtime that reads these attributes (activation, concurrency control, placement, scheduling): its code is not part of this model.
