/**
 * The offline list screen (app/tabs/offline-forms.tsx): syncing one queued entry to the
 * server, editing an entry's description, and deleting one entry or all of them behind a
 * confirmation dialog. The connectivity probe and the server are oracle parameters; the
 * screen's own hook instance of the queue is updated in place.
 */
module OfflineFormsScreen {
  import opened Wrappers
  import opened Js
  import opened Types
  import opened QueueSpec
  import opened OfflineFormsHook
  import opened Api

  const NoConnectionMessage := "Aucune connexion internet disponible. Veuillez vérifier votre connexion et réessayer."
  const SyncedMessage := "Formulaire synchronisé avec succès"
  const SyncFailedMessage := "Échec de la synchronisation. Veuillez réessayer."
  const NoDescriptionText := "Pas de description"

  /** The alert the screen shows. */
  datatype Notice = Notice(title: string, message: string)

  /** A confirmation dialog waiting for an answer. */
  datatype Pending = ConfirmDelete(id: string) | ConfirmClearAll

  /** The lookup of `handleSave`: the first entry with that id, if any. */
  function FindById(forms: seq<Entry>, id: string): (r: Option<Entry>)
    ensures r.Some? <==> HasId(forms, id)
    ensures r.Some? ==> r.value.id == id
    ensures r.Some? ==> exists i :: 0 <= i < |forms| && forms[i] == r.value && forall j :: 0 <= j < i ==> forms[j].id != id
    decreases |forms|
  {
    if forms == [] then None
    else if forms[0].id == id then Some(forms[0])
    else
      var r := FindById(forms[1..], id);
      if r.Some? then
        ghost var i :| 0 <= i < |forms[1..]| && forms[1..][i] == r.value && forall j :: 0 <= j < i ==> forms[1..][j].id != id;
        assert forms[i + 1] == r.value;
        assert forall j :: 0 <= j < i + 1 ==> forms[j].id != id by {
          forall j | 0 <= j < i + 1 ensures forms[j].id != id {
            if j > 0 { assert forms[j] == forms[1..][j - 1]; }
          }
        }
        r
      else
        assert forall j :: 1 <= j < |forms| ==> forms[j] == forms[1..][j - 1];
        r
  }

  /** The edited payload: a copy of the entry's data with its top-level description replaced. */
  function EditedData(data: Payload, description: string): (r: Payload)
    ensures r.Keys == data.Keys + {"description"} && r["description"] == JStr(description)
    ensures forall k :: k in data && k != "description" ==> r[k] == data[k]
  {
    data["description" := JStr(description)]
  }

  /** What an entry's card shows: the description nested in the payload's `data`, or a placeholder when it is falsy. */
  function CardDescription(e: Entry): Json {
    Or(Prop(Get(e.data, "data"), "description"), JStr(NoDescriptionText))
  }

  /** An edit sets the top-level description, so the nested description the card shows stays as it was. */
  lemma EditLeavesCardText(e: Entry, description: string)
    ensures CardDescription(e.(data := EditedData(e.data, description))) == CardDescription(e)
  {
    assert Get(EditedData(e.data, description), "data") == Get(e.data, "data");
  }

  class ListScreen {
    /** The entry being edited; `null` is None. Nothing in the screen ever sets it. */
    var editingId: Option<string>
    var editedDescription: string
    var notice: Option<Notice>
    var pending: Option<Pending>
    /** The requests this screen sent to the server. */
    var sent: seq<Request>
    const queue: HookQueue

    constructor (queue: HookQueue)
      ensures this.queue == queue && editingId.None? && editedDescription == ""
      ensures notice.None? && pending.None? && sent == []
    {
      this.queue := queue;
      editingId, editedDescription := None, "";
      notice, pending, sent := None, None, [];
    }

    /**
     * `handleSyncForm` on the i-th listed entry. Offline: an alert and nothing else.
     * Online: `saveFormData(form.data)` strips the title from the entry's own data object
     * in memory; the entry is deleted only after the save succeeded.
     */
    method HandleSyncForm(i: nat, connected: bool, readFails: bool, reply: Reply<Json>, writeFails: bool)
      requires i < |queue.forms|
      modifies this, queue, queue.storage`offlineForms
      ensures var form := old(queue.forms[i]);
        var exchange := SaveFormData(GetAuthData(queue.storage.authData, readFails), form.data, reply).1;
        (!connected ==> notice == Some(Notice("Erreur", NoConnectionMessage)) && sent == old(sent)
                        && queue.forms == old(queue.forms) && queue.count == old(queue.count)
                        && queue.storage.offlineForms == old(queue.storage.offlineForms))
        && (connected ==> sent == old(sent) + (if exchange.sent.Some? then [exchange.sent.value] else []))
        && (connected && exchange.outcome.Ok? ==>
              notice == Some(Notice("Succès", SyncedMessage))
              && queue.forms == Without(old(queue.forms), form.id) && queue.count == old(queue.count) - 1
              && queue.storage.offlineForms == (if writeFails then old(queue.storage.offlineForms) else Some(queue.forms)))
        && (connected && exchange.outcome.Err? ==>
              notice == Some(Notice("Erreur", SyncFailedMessage))
              && queue.forms == old(queue.forms)[i := form.(data := StripTitle(form.data))]
              && queue.count == old(queue.count) && queue.storage.offlineForms == old(queue.storage.offlineForms))
      ensures unchanged(this`editingId, this`editedDescription, this`pending)
    {
      if !connected {
        notice := Some(Notice("Erreur", NoConnectionMessage));
        return;
      }
      var form := queue.forms[i];
      var call := SaveFormData(GetAuthData(queue.storage.authData, readFails), form.data, reply);
      queue.forms := queue.forms[i := form.(data := call.0)];
      if call.1.sent.Some? {
        sent := sent + [call.1.sent.value];
      }
      if call.1.outcome.Ok? {
        assert Without(queue.forms, form.id) == Without(old(queue.forms), form.id) by {
          WithoutIgnoresData(old(queue.forms), i, call.0, form.id);
        }
        queue.Delete(form.id, writeFails);
        notice := Some(Notice("Succès", SyncedMessage));
      } else {
        notice := Some(Notice("Erreur", SyncFailedMessage));
      }
    }

    /**
     * `handleSave`: with a (non-empty) editing id, an entry found by it gets its data
     * replaced by the edited copy; the editing id is then cleared either way.
     */
    method HandleSave(writeFails: bool)
      modifies this, queue, queue.storage`offlineForms
      ensures var id := old(editingId);
        (id.None? || id.value == "" ==>
          editingId == old(editingId) && queue.forms == old(queue.forms)
          && queue.storage.offlineForms == old(queue.storage.offlineForms))
        && (id.Some? && id.value != "" ==> editingId.None?)
        && (id.Some? && id.value != "" && HasId(old(queue.forms), id.value) && !writeFails ==>
              queue.forms == ReplaceData(old(queue.forms), id.value,
                                         EditedData(FindById(old(queue.forms), id.value).value.data, old(editedDescription)))
              && queue.storage.offlineForms == Some(queue.forms))
        && (id.Some? && id.value != "" && (!HasId(old(queue.forms), id.value) || writeFails) ==>
              queue.forms == old(queue.forms) && queue.storage.offlineForms == old(queue.storage.offlineForms))
      ensures queue.count == old(queue.count)
      ensures unchanged(this`sent, this`notice, this`pending, this`editedDescription)
    {
      if editingId.Some? && editingId.value != "" {
        var id := editingId.value;
        var item := FindById(queue.forms, id);
        if item.Some? {
          queue.Update(id, EditedData(item.value.data, editedDescription), writeFails);
        }
        editingId := None;
      }
    }

    /** `handleCancel`: leaves editing without touching the queue. */
    method HandleCancel()
      modifies this`editingId
      ensures editingId.None?
    {
      editingId := None;
    }

    /** `handleDeleteForm`: only asks for confirmation. */
    method HandleDeleteForm(id: string)
      modifies this`pending
      ensures pending == Some(ConfirmDelete(id))
    {
      pending := Some(ConfirmDelete(id));
    }

    /** `handleClearAll`: only asks for confirmation. */
    method HandleClearAll()
      modifies this`pending
      ensures pending == Some(ConfirmClearAll)
    {
      pending := Some(ConfirmClearAll);
    }

    /** The destructive button of the open dialog: the queue mutation it stands for. */
    method PressConfirm(storageFails: bool)
      modifies this`pending, queue, queue.storage`offlineForms
      ensures pending.None?
      ensures old(pending).None? ==> queue.forms == old(queue.forms) && queue.count == old(queue.count)
                                     && queue.storage.offlineForms == old(queue.storage.offlineForms)
      ensures old(pending) == Some(ConfirmClearAll) ==>
        (storageFails ==> queue.forms == old(queue.forms) && queue.storage.offlineForms == old(queue.storage.offlineForms))
        && (!storageFails ==> queue.forms == [] && queue.count == 0 && queue.storage.offlineForms.None?)
      ensures old(pending).Some? && old(pending).value.ConfirmDelete? ==>
        queue.forms == Without(old(queue.forms), old(pending).value.id) && queue.count == old(queue.count) - 1
    {
      match pending {
        case None =>
        case Some(ConfirmDelete(id)) => queue.Delete(id, storageFails);
        case Some(ConfirmClearAll) => queue.Clear(storageFails);
      }
      pending := None;
    }

    /** The cancel button of the open dialog. */
    method PressCancel()
      modifies this`pending
      ensures pending.None?
    {
      pending := None;
    }
  }

  /** Deleting by id does not look at the data, so changing one entry's data does not change what remains. */
  lemma {:induction false} WithoutIgnoresData(forms: seq<Entry>, i: nat, data: Payload, id: string)
    requires i < |forms| && forms[i].id == id
    ensures Without(forms[i := forms[i].(data := data)], id) == Without(forms, id)
    decreases |forms|
  {
    if i > 0 {
      assert forms[i := forms[i].(data := data)][1..] == forms[1..][i - 1 := forms[i].(data := data)];
      WithoutIgnoresData(forms[1..], i - 1, data, id);
    } else {
      assert forms[i := forms[i].(data := data)][1..] == forms[1..];
    }
  }

  /**
   * Two entries saved in the same millisecond share an id, so syncing the first one also
   * deletes the second, which was never sent.
   */
  method SyncDropsTwin(s: ListScreen, response: Json, writeFails: bool)
    requires |s.queue.forms| == 2 && s.queue.forms[0].id == s.queue.forms[1].id && s.queue.storage.authData.Some?
    modifies s, s.queue, s.queue.storage`offlineForms
    ensures s.sent == old(s.sent) + [Request(ApiBaseUrl + "/form_data/", Some(s.queue.storage.authData.value.token), JObj(StripTitle(old(s.queue.forms[0].data))))]
    ensures s.queue.forms == []
  {
    s.HandleSyncForm(0, true, false, Response(true, Some(response)), writeFails);
    var f := old(s.queue.forms);
    assert Without(f, f[0].id) == [] by {
      assert f == [f[0]] + [f[1]];
      assert f[1..] == [f[1]];
      assert f[1..][1..] == [];
    }
  }
}
