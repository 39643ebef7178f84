/**
 * The hook form of the offline queue (hooks/useOfflineForms.ts), the one the screens use.
 * Each screen that calls the hook gets its own instance (its own `forms` and `count`)
 * over the one shared device storage. It differs from the provider in two places:
 * load sets the count to the stored length plus one, and delete updates memory and
 * decrements the count unconditionally while its storage write is not awaited (a failed
 * write goes unnoticed).
 */
module OfflineFormsHook {
  import opened Wrappers
  import opened Types
  import opened Storage
  import opened QueueSpec

  class HookQueue {
    var forms: seq<Entry>
    var count: int
    const storage: DeviceStorage

    ghost predicate Persisted()
      reads this, storage
    {
      match storage.offlineForms
      case None => forms == []
      case Some(stored) => stored == forms
    }

    /** A screen mounting the hook: empty state; the mount effect then calls Load. */
    constructor (storage: DeviceStorage)
      ensures this.storage == storage
      ensures forms == [] && count == 0
    {
      this.storage := storage;
      forms := [];
      count := 0;
    }

    /** loadOfflineForms: adopt the stored list and set the count to its length plus one (the local length is incremented before it is stored). */
    method Load(readFails: bool)
      modifies this
      ensures !readFails && storage.offlineForms.Some? ==> forms == storage.offlineForms.value && count == |forms| + 1
      ensures readFails || storage.offlineForms.None? ==> forms == old(forms) && count == old(count)
      ensures old(Persisted()) ==> Persisted()
    {
      if !readFails {
        match storage.offlineForms {
          case Some(stored) =>
            forms := stored;
            var lengthForms := |stored|;
            lengthForms := lengthForms + 1;
            count := lengthForms;
          case None =>
        }
      }
    }

    /** saveOfflineForm: as in the provider, persist first, then append and set the count to the new length. */
    method Save(formData: Payload, idClock: nat, stampClock: nat, writeFails: bool)
      modifies this, storage`offlineForms
      ensures writeFails ==> forms == old(forms) && count == old(count) && storage.offlineForms == old(storage.offlineForms)
      ensures !writeFails ==> forms == old(forms) + [NewEntry(formData, idClock, stampClock)]
      ensures !writeFails ==> count == |forms| && storage.offlineForms == Some(forms)
      ensures old(Persisted()) ==> Persisted()
    {
      var updated := forms + [NewEntry(formData, idClock, stampClock)];
      if !writeFails {
        storage.offlineForms := Some(updated);
        forms := updated;
        count := |updated|;
      }
    }

    /**
     * deleteOfflineForm: filter the latest list, start the storage write without awaiting it,
     * and decrement the count whether or not anything was removed.
     */
    method Delete(id: string, writeFails: bool)
      modifies this, storage`offlineForms
      ensures forms == Without(old(forms), id)
      ensures count == old(count) - 1
      ensures storage.offlineForms == if writeFails then old(storage.offlineForms) else Some(forms)
      ensures !writeFails ==> Persisted()
    {
      forms := Without(forms, id);
      if !writeFails {
        storage.offlineForms := Some(forms);
      }
      count := count - 1;
    }

    /** updateOfflineForm: as in the provider; the count is not touched. */
    method Update(id: string, newData: Payload, writeFails: bool)
      modifies this, storage`offlineForms
      ensures count == old(count)
      ensures writeFails ==> forms == old(forms) && storage.offlineForms == old(storage.offlineForms)
      ensures !writeFails ==> forms == ReplaceData(old(forms), id, newData) && storage.offlineForms == Some(forms)
      ensures old(Persisted()) ==> Persisted()
    {
      var updated := ReplaceData(forms, id, newData);
      if !writeFails {
        storage.offlineForms := Some(updated);
        forms := updated;
      }
    }

    /** clearOfflineForms: as in the provider. */
    method Clear(removeFails: bool)
      modifies this, storage`offlineForms
      ensures removeFails ==> forms == old(forms) && count == old(count) && storage.offlineForms == old(storage.offlineForms)
      ensures !removeFails ==> forms == [] && count == 0 && storage.offlineForms == None
      ensures old(Persisted()) ==> Persisted()
    {
      if !removeFails {
        storage.offlineForms := None;
        forms := [];
        count := 0;
      }
    }
  }

  /** Right after a successful load the count is one more than the number of entries. */
  method LoadOvercounts(q: HookQueue, stored: seq<Entry>)
    requires q.storage.offlineForms == Some(stored)
    modifies q
    ensures q.forms == stored && q.count == |q.forms| + 1
  {
    q.Load(false);
  }

  /** A second delete of the same id leaves the list as the first left it but decrements the count again. */
  method DeleteTwiceDrifts(q: HookQueue, id: string)
    modifies q, q.storage`offlineForms
    ensures q.forms == Without(old(q.forms), id)
    ensures q.count == old(q.count) - 2
  {
    q.Delete(id, false);
    q.Delete(id, false);
    WithoutIdempotent(old(q.forms), id);
  }

  /** A failed, unawaited delete write leaves memory and storage disagreeing. */
  method UnawaitedDeleteDiverges(q: HookQueue, id: string)
    requires q.Persisted() && HasId(q.forms, id)
    modifies q, q.storage`offlineForms
    ensures !q.Persisted()
  {
    WithoutKeepsOrder(q.forms, id);
    q.Delete(id, true);
  }

  /**
   * Two screens hold their own hook instances over the same storage. The form screen loaded
   * the queue before the list screen deleted an entry; its next save writes its stale
   * list back, and the deleted entry is stored again.
   */
  method StaleInstanceRestoresDeleted(storage: DeviceStorage, e: Entry, formData: Payload, idClock: nat, stampClock: nat)
      returns (formScreen: HookQueue, listScreen: HookQueue)
    modifies storage`offlineForms
    ensures storage.offlineForms.Some? && e in storage.offlineForms.value
    ensures e !in listScreen.forms
  {
    storage.offlineForms := Some([e]);
    formScreen := new HookQueue(storage);
    formScreen.Load(false);
    listScreen := new HookQueue(storage);
    listScreen.Load(false);
    listScreen.Delete(e.id, false);
    assert storage.offlineForms == Some([]);
    formScreen.Save(formData, idClock, stampClock, false);
    assert storage.offlineForms.value[0] == e;
  }
}
