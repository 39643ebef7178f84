/**
 * The context-provider form of the offline queue (contexts/OfflineFormsProvider.tsx).
 * `forms` and `count` are the `offlineForms` and `offlineFormsCount` state; every
 * mutation first overwrites the whole "offline_forms" record and only then, if the
 * storage call did not throw, updates memory. Storage failures are caught and logged,
 * so each operation is a no-op when its storage call fails.
 */
module OfflineFormsProvider {
  import opened Wrappers
  import opened Types
  import opened Storage
  import opened QueueSpec

  class ProviderQueue {
    var forms: seq<Entry>
    var count: int
    const storage: DeviceStorage

    /** The count shown in badges agrees with the list. */
    ghost predicate CountInSync()
      reads this
    {
      count == |forms|
    }

    /** Memory and the persisted record agree: loading now would give `forms` back (an absent record means an empty list). */
    ghost predicate Persisted()
      reads this, storage
    {
      match storage.offlineForms
      case None => forms == []
      case Some(stored) => stored == forms
    }

    /** Mounting the provider: empty state; the mount effect then calls Load. */
    constructor (storage: DeviceStorage)
      ensures this.storage == storage
      ensures forms == [] && count == 0 && CountInSync()
    {
      this.storage := storage;
      forms := [];
      count := 0;
    }

    /** loadOfflineForms: adopt the stored list when a record exists; keep the state when there is none or the read fails. */
    method Load(readFails: bool)
      modifies this
      ensures !readFails && storage.offlineForms.Some? ==> forms == storage.offlineForms.value && count == |forms|
      ensures readFails || storage.offlineForms.None? ==> forms == old(forms) && count == old(count)
      ensures old(CountInSync()) ==> CountInSync()
      ensures old(Persisted()) ==> Persisted()
    {
      if !readFails {
        match storage.offlineForms {
          case Some(stored) =>
            forms := stored;
            count := |stored|;
          case None =>
        }
      }
    }

    /** saveOfflineForm: append one entry built from the payload and two clock readings, persisting the whole list first. */
    method Save(formData: Payload, idClock: nat, stampClock: nat, writeFails: bool)
      modifies this, storage`offlineForms
      ensures writeFails ==> forms == old(forms) && count == old(count) && storage.offlineForms == old(storage.offlineForms)
      ensures !writeFails ==> forms == old(forms) + [NewEntry(formData, idClock, stampClock)]
      ensures !writeFails ==> count == |forms| && storage.offlineForms == Some(forms)
      ensures old(CountInSync()) ==> CountInSync()
      ensures old(Persisted()) ==> Persisted()
    {
      var updated := forms + [NewEntry(formData, idClock, stampClock)];
      if !writeFails {
        storage.offlineForms := Some(updated);
        forms := updated;
        count := |updated|;
      }
    }

    /** deleteOfflineForm: filter out every entry with the id, persisting the result first. */
    method Delete(id: string, writeFails: bool)
      modifies this, storage`offlineForms
      ensures writeFails ==> forms == old(forms) && count == old(count) && storage.offlineForms == old(storage.offlineForms)
      ensures !writeFails ==> forms == Without(old(forms), id) && count == |forms| && storage.offlineForms == Some(forms)
      ensures old(CountInSync()) ==> CountInSync()
      ensures old(Persisted()) ==> Persisted()
    {
      var updated := Without(forms, id);
      if !writeFails {
        storage.offlineForms := Some(updated);
        forms := updated;
        count := |updated|;
      }
    }

    /** updateOfflineForm: replace the data of matching entries, persisting the result first; the count is not touched. */
    method Update(id: string, newData: Payload, writeFails: bool)
      modifies this, storage`offlineForms
      ensures count == old(count)
      ensures writeFails ==> forms == old(forms) && storage.offlineForms == old(storage.offlineForms)
      ensures !writeFails ==> forms == ReplaceData(old(forms), id, newData) && storage.offlineForms == Some(forms)
      ensures old(CountInSync()) ==> CountInSync()
      ensures old(Persisted()) ==> Persisted()
    {
      var updated := ReplaceData(forms, id, newData);
      if !writeFails {
        storage.offlineForms := Some(updated);
        forms := updated;
      }
    }

    /** clearOfflineForms: remove the record, then empty the list and zero the count. */
    method Clear(removeFails: bool)
      modifies this, storage`offlineForms
      ensures removeFails ==> forms == old(forms) && count == old(count) && storage.offlineForms == old(storage.offlineForms)
      ensures !removeFails ==> forms == [] && count == 0 && storage.offlineForms == None
      ensures old(CountInSync()) ==> CountInSync()
      ensures old(Persisted()) ==> Persisted()
    {
      if !removeFails {
        storage.offlineForms := None;
        forms := [];
        count := 0;
      }
    }
  }

  /**
   * Save, then a fresh provider over the same storage mounts and loads: it sees the saved
   * list, whose last entry carries the saved payload.
   */
  method SaveThenReload(q: ProviderQueue, formData: Payload, idClock: nat, stampClock: nat)
      returns (reloaded: ProviderQueue)
    modifies q, q.storage`offlineForms
    ensures reloaded.storage == q.storage
    ensures reloaded.forms == q.forms == old(q.forms) + [NewEntry(formData, idClock, stampClock)]
    ensures reloaded.forms[|reloaded.forms| - 1].data == formData
    ensures reloaded.CountInSync()
  {
    q.Save(formData, idClock, stampClock, false);
    reloaded := new ProviderQueue(q.storage);
    reloaded.Load(false);
  }
}
