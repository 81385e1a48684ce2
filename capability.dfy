/** The capability interfaces of pkg/rotate/interface.go (Client, Storage) and
    pkg/disable/interface.go (Client). A concrete backend is reduced to how it
    answers: each method becomes a total function of the secret name (for
    secret.Info) or the store name (for secret.Storage), i.e. a fixed oracle
    over the backend's remote state. */
module Capability {
  import opened Common

  /** rotate.Client: LastRotated and RotateSecret. */
  datatype RotationFacet = RotationFacet(
    name: string,
    lastRotated: string -> Result<Time, string>,
    rotateSecret: string -> Result<SecretMap, string>)

  /** rotate.Storage: LastSaved(store, key) and SaveKeys(store, values).
      SaveKeys answers None on success and Some(message) on failure. */
  datatype StorageFacet = StorageFacet(
    name: string,
    lastSaved: (string, string) -> Result<Time, StoreError>,
    saveKeys: (string, SecretMap) -> Option<string>)

  /** disable.Client: LastUpdated and DisableSecret. */
  datatype DisableFacet = DisableFacet(
    name: string,
    lastUpdated: string -> Result<Time, string>,
    disableSecret: string -> Option<string>)
}
