/** The Orleans.Placement attributes, which bind a grain class to a placement policy. */
module Placement {
  import opened Primitives

  /**
   * The placement policies named by the attributes of this module. Each stands for the
   * singleton strategy object of that policy; what a policy does is not part of this model.
   * The type lists only these three, so it also limits the default strategy, which is
   * defined elsewhere, to one of them; no contract here depends on that.
   */
  datatype PlacementStrategy = RandomPlacement | PreferLocalPlacement | ActivationCountBasedPlacement

  /** Base of the placement marker attributes. */
  class PlacementAttribute {
    /** The strategy chosen for the marked grain class. Only the constructors set it. */
    const placementStrategy: PlacementStrategy

    /**
     * PlacementAttribute(PlacementStrategy placement). `placement` is None when the caller
     * passes null; `defaultStrategy` is what PlacementStrategy.GetDefault() returns, which
     * this model takes as given.
     */
    constructor (placement: Option<PlacementStrategy>, defaultStrategy: PlacementStrategy)
      ensures placement.Some? ==> placementStrategy == placement.value
      ensures placement.None? ==> placementStrategy == defaultStrategy
    {
      placementStrategy := if placement.Some? then placement.value else defaultStrategy;
    }

    /** RandomPlacementAttribute(): passes the non-null random strategy to the base constructor. */
    constructor Random()
      ensures placementStrategy == RandomPlacement
    {
      placementStrategy := RandomPlacement;
    }

    /** PreferLocalPlacementAttribute(): passes the non-null prefer-local strategy to the base constructor. */
    constructor PreferLocal()
      ensures placementStrategy == PreferLocalPlacement
    {
      placementStrategy := PreferLocalPlacement;
    }

    /** ActivationCountBasedPlacementAttribute(): passes the non-null activation-count strategy to the base constructor. */
    constructor ActivationCountBased()
      ensures placementStrategy == ActivationCountBasedPlacement
    {
      placementStrategy := ActivationCountBasedPlacement;
    }
  }
}
