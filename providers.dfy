/** The Orleans.Providers attribute that binds a grain class to a storage provider. */
module Providers {

  /** Runtime.Constants.DEFAULT_STORAGE_PROVIDER_NAME: the "Default" storage provider. */
  const DefaultStorageProviderName: string := "Default"

  /** Names the storage provider that persists the state of the marked grain class. */
  class StorageProviderAttribute {
    /** The name of the storage provider; a public read-write property. */
    var providerName: string

    /** StorageProviderAttribute(): the default provider until a name is assigned. */
    constructor ()
      ensures providerName == DefaultStorageProviderName
    {
      providerName := DefaultStorageProviderName;
    }

    /** The setter of ProviderName, used by the attribute syntax `ProviderName = "..."`. */
    method SetProviderName(name: string)
      modifies this`providerName
      ensures providerName == name
    {
      providerName := name;
    }
  }
}
