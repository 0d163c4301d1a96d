/**
 * The attributes of the root Orleans namespace: the factory-type marker on grain
 * interfaces, with the aggregation of all such markers on one interface, and the
 * implicit stream subscription marker on grain classes.
 */
module Orleans {
  import opened Primitives

  /** The kinds of factory the code generator can produce for a grain interface. */
  datatype FactoryType = Grain | ClientObject | Both

  /** Outcome of the aggregation; NotSupported stands for the NotSupportedException it throws. */
  datatype FactoryResult = Ok(factoryType: FactoryType) | NotSupported

  /** Asks for a kind of factory for the marked interface. */
  class FactoryAttribute {
    /** The requested kind. Only the constructor sets it. */
    const factoryType: FactoryType

    constructor (factoryType: FactoryType)
      ensures this.factoryType == factoryType
    {
      this.factoryType := factoryType;
    }
  }

  /** The requested kinds of a sequence of attributes, in the same order. */
  function TypesOf(attribs: seq<FactoryAttribute>): seq<FactoryType>
  {
    seq(|attribs|, i requires 0 <= i < |attribs| => attribs[i].factoryType)
  }

  /** One step of the aggregation loop: the accumulator after it has seen kind `a`. */
  function Step(acc: Option<FactoryType>, a: FactoryType): FactoryType
  {
    match acc
    case None => a
    case Some(v) => if a == Both then a else if a != v then Both else v
  }

  /** The nullable accumulator after the loop has seen every kind of `types`, left to right. */
  function Fold(types: seq<FactoryType>): Option<FactoryType>
  {
    if |types| == 0 then None
    else Some(Step(Fold(types[..|types| - 1]), types[|types| - 1]))
  }

  /**
   * What the aggregation returns for the kinds `types`, as the source writes it: Grain when
   * there are none, otherwise the accumulated kind, which is refused when it is Both.
   */
  function Collect(types: seq<FactoryType>): FactoryResult
  {
    if |types| == 0 then Ok(Grain)
    else if Fold(types).value == Both then NotSupported
    else Ok(Fold(types).value)
  }

  /** The set of kinds that occur in `types`. */
  function Present(types: seq<FactoryType>): set<FactoryType>
  {
    set a | a in types
  }

  /**
   * Aggregation "like flags", defined on the set of kinds present: nothing gives no value,
   * Both or the two single kinds together give Both, a single kind gives itself.
   */
  function Flags(present: set<FactoryType>): Option<FactoryType>
  {
    if present == {} then None
    else if Both in present || (Grain in present && ClientObject in present) then Some(Both)
    else if Grain in present then Some(Grain)
    else Some(ClientObject)
  }

  /**
   * FactoryAttribute.CollectFactoryTypesSpecified: aggregates the factory attributes found on
   * an interface. The reflection call that finds them is replaced by the parameter `attribs`.
   */
  method CollectFactoryTypesSpecified(attribs: seq<FactoryAttribute>) returns (r: FactoryResult)
    ensures r == Collect(TypesOf(attribs))
    ensures r != Ok(Both)
  {
    if |attribs| == 0 {
      return Ok(Grain);
    }
    ghost var types := TypesOf(attribs);
    var result: Option<FactoryType> := None;
    for i := 0 to |attribs|
      invariant result == Fold(types[..i])
    {
      var a := attribs[i];
      if result.Some? {
        if a.factoryType == Both {
          result := Some(a.factoryType);
        } else if a.factoryType != result.value {
          result := Some(Both);
        }
      } else {
        result := Some(a.factoryType);
      }
      assert types[..i + 1][..i] == types[..i];
    }
    assert types[..|attribs|] == types;
    if result.value == Both {
      return NotSupported;
    }
    return Ok(result.value);
  }

  /** The loop's accumulator is the flag aggregate of the kinds it has seen. */
  lemma {:induction false} FoldIsFlags(types: seq<FactoryType>)
    ensures Fold(types) == Flags(Present(types))
  {
    if |types| == 0 {
      assert Present(types) == {};
    } else {
      var init, last := types[..|types| - 1], types[|types| - 1];
      FoldIsFlags(init);
      assert types == init + [last];
      assert Present(types) == Present(init) + {last};
      StepAddsFlag(Present(init), last);
    }
  }

  /** One loop step adds the kind it sees to the flags aggregated so far. */
  lemma StepAddsFlag(present: set<FactoryType>, a: FactoryType)
    ensures Some(Step(Flags(present), a)) == Flags(present + {a})
  {
    if present != {} && !(Both in present) && !(Grain in present && ClientObject in present) {
      assert Grain in present || ClientObject in present by {
        var x :| x in present;
        assert x.Grain? || x.ClientObject? || x.Both?;
      }
    }
  }

  /** Once the accumulator is Both, every later kind leaves it Both. */
  lemma {:induction false} BothAbsorbs(types: seq<FactoryType>, rest: seq<FactoryType>)
    requires Fold(types) == Some(Both)
    ensures Fold(types + rest) == Some(Both)
  {
    if |rest| == 0 {
      assert types + rest == types;
    } else {
      var init := rest[..|rest| - 1];
      BothAbsorbs(types, init);
      assert (types + rest)[..|types + rest| - 1] == types + init;
    }
  }

  /** The aggregation fails exactly when Both is asked for, or Grain and ClientObject both are. */
  lemma NotSupportedIff(types: seq<FactoryType>)
    ensures Collect(types) == NotSupported
        <==> Both in types || (Grain in types && ClientObject in types)
  {
    FoldIsFlags(types);
  }

  /**
   * The aggregation succeeds with `v` exactly when `v` is not Both and every attribute asks
   * for `v`, where no attribute at all counts as asking for Grain.
   */
  lemma OkIffUniform(types: seq<FactoryType>, v: FactoryType)
    ensures Collect(types) == Ok(v)
        <==> v != Both && (forall a :: a in types ==> a == v) && (|types| == 0 ==> v == Grain)
  {
    FoldIsFlags(types);
    if |types| > 0 {
      assert types[0] in types;
    }
  }

  /** The aggregate depends only on which kinds occur, not on their order or repetition. */
  lemma OrderIndependent(types: seq<FactoryType>, others: seq<FactoryType>)
    requires forall a :: a in types <==> a in others
    ensures Collect(types) == Collect(others)
  {
    FoldIsFlags(types);
    FoldIsFlags(others);
    assert Present(types) == Present(others);
    if |types| > 0 {
      assert types[0] in others;
    }
    if |others| > 0 {
      assert others[0] in types;
    }
  }

  /** Subscribes the marked grain class implicitly to the streams of a namespace. */
  class ImplicitStreamSubscriptionAttribute {
    /** The stream namespace. Only the constructor sets it. */
    const streamNamespace: string

    constructor (streamNamespace: string)
      ensures this.streamNamespace == streamNamespace
    {
      this.streamNamespace := streamNamespace;
    }
  }
}
