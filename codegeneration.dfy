/** The Orleans.CodeGeneration attribute that carries data. */
module CodeGeneration {
  import opened Primitives

  /** Overrides the interface id or class type code of a grain, e.g. to avoid a hash collision. */
  class TypeCodeOverrideAttribute {
    /** The type code to use instead of the computed one. Only the constructor sets it. */
    const typeCode: Int32

    /** TypeCodeOverrideAttribute(int typeCode): the code is kept as it is. */
    constructor (typeCode: Int32)
      ensures this.typeCode == typeCode
    {
      this.typeCode := typeCode;
    }
  }
}
