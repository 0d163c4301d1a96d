/** The Orleans.Concurrency attributes that carry data. */
module Concurrency {
  import opened Primitives

  /** The MaxLocalWorkers value that means "no limit on local workers". */
  const UnboundedLocalWorkers: Int32 := -1

  /** Marks a grain class as a stateless worker: the runtime may create several activations of it. */
  class StatelessWorkerAttribute {
    /** Maximal number of local stateless workers in a single silo. Only the constructors set it. */
    const maxLocalWorkers: Int32

    /** StatelessWorkerAttribute(int maxLocalWorkers): the given limit is kept as it is, -1 included. */
    constructor (maxLocalWorkers: Int32)
      ensures this.maxLocalWorkers == maxLocalWorkers
    {
      this.maxLocalWorkers := maxLocalWorkers;
    }

    /** StatelessWorkerAttribute(): no limit on the number of local workers. */
    constructor Default()
      ensures maxLocalWorkers == UnboundedLocalWorkers
    {
      maxLocalWorkers := UnboundedLocalWorkers;
    }
  }
}
