/**
 * The device's key-value store (AsyncStorage) as far as the core uses it: the record
 * under "offline_forms" (the whole queue) and the record under "authData" (the session).
 * Serialisation to and from JSON text is taken to be the identity. One object is shared
 * by every component that touches storage.
 */
module Storage {
  import opened Wrappers
  import opened Types

  const OfflineFormsKey := "offline_forms"
  const AuthDataKey := "authData"

  class DeviceStorage {
    /** The record under OfflineFormsKey, None when absent. */
    var offlineForms: Option<seq<Entry>>
    /** The record under AuthDataKey, None when absent. */
    var authData: Option<AuthData>

    constructor (forms: Option<seq<Entry>>, auth: Option<AuthData>)
      ensures offlineForms == forms && authData == auth
    {
      offlineForms := forms;
      authData := auth;
    }
  }
}
