/**
 * The mission form screen's submission logic (app/tabs/form.tsx): validate the required
 * fields, acquire a position, confirm, then send the payload to the server when connected
 * or queue it offline otherwise. The position services, the network state and the clock
 * reach the screen as oracle parameters. The payloads are pure values; the screen's
 * flags, the draft store and the offline queue are updated in place.
 */
module FormScreen {
  import opened Wrappers
  import opened Js
  import opened Text
  import opened Types
  import opened Storage
  import opened QueueSpec
  import opened FormStore
  import opened OfflineFormsHook
  import opened Api

  // ---------------------------------------------------------------- locating

  datatype Platform = Web | Native

  /** A position reading: coordinates and the reported accuracy (0 when not reported). */
  datatype Fix = Fix(latitude: int, longitude: int, accuracy: int)

  /** One reverse-geocode result; its parts are whatever the service returned. */
  datatype Placemark = Placemark(street: Json, city: Json, region: Json)

  /**
   * What the device answers while locating: whether geolocation exists (web), the
   * permission status (None: the request threw), the position (None: it failed), the
   * reverse-geocode results (None: it threw) and the clock.
   */
  datatype Device = Device(geolocationAvailable: bool, permission: Option<string>, position: Option<Fix>,
                           geocode: Option<seq<Placemark>>, now: int)

  /** The result of `getCurrentLocationBackground`, with which device services it called. */
  datatype Locating = Locating(location: Option<Location>, positionRequested: bool, geocodeRequested: bool)

  /** The reverse-geocode address: street, city and region (each "" when falsy) joined by single spaces, then trimmed. */
  function Address(p: Placemark): (r: string)
    ensures r == [] || (!IsWhitespace(r[0]) && !IsWhitespace(r[|r| - 1]))
  {
    Trim(ToJsString(Or(p.street, JStr(""))) + " " + ToJsString(Or(p.city, JStr(""))) + " " + ToJsString(Or(p.region, JStr(""))))
  }

  /** A placemark with only a city gives just the city, without the separating spaces. */
  lemma AddressOfCityOnly(city: string)
    requires city != [] && !IsWhitespace(city[0]) && !IsWhitespace(city[|city| - 1])
    ensures Address(Placemark(JNull, JStr(city), JUndef)) == city
  {
    var street := ToJsString(Or(JNull, JStr("")));
    var town := ToJsString(Or(JStr(city), JStr("")));
    var region := ToJsString(Or(JUndef, JStr("")));
    assert street == "" && town == city && region == "";
    assert street + " " + town + " " + region == " " + city + " ";
    TrimPadded(city);
  }

  /** Three trimmed parts are joined with single spaces. */
  lemma {:induction false} AddressOfFullPlacemark(street: string, city: string, region: string)
    requires street != [] && !IsWhitespace(street[0])
    requires city != []
    requires region != [] && !IsWhitespace(region[|region| - 1])
    ensures Address(Placemark(JStr(street), JStr(city), JStr(region))) == street + " " + city + " " + region
  {
    TrimOfTrimmed(street + " " + city + " " + region);
  }

  function AccuracyOf(accuracy: int): Option<int> {
    if accuracy != 0 then Some(accuracy) else None
  }

  /** `getCurrentLocationBackground`. */
  function AcquireLocation(platform: Platform, device: Device): (r: Locating)
    ensures r.location.Some? ==> r.positionRequested && device.position.Some?
    ensures r.location.Some? ==> r.location.value.latitude == device.position.value.latitude
                                 && r.location.value.longitude == device.position.value.longitude
                                 && r.location.value.timestamp == device.now
    ensures r.geocodeRequested ==> platform.Native? && r.location.Some?
  {
    if platform.Web? then
      if !device.geolocationAvailable then Locating(None, false, false)
      else if device.position.None? then Locating(None, true, false)
      else
        var f := device.position.value;
        Locating(Some(Location(f.latitude, f.longitude, AccuracyOf(f.accuracy), device.now, None)), true, false)
    else if device.permission != Some("granted") then Locating(None, false, false)
    else if device.position.None? then Locating(None, true, false)
    else
      var f := device.position.value;
      var location := Location(f.latitude, f.longitude, AccuracyOf(f.accuracy), device.now, None);
      if device.geocode.Some? && |device.geocode.value| > 0
      then Locating(Some(location.(address := Some(Address(device.geocode.value[0])))), true, true)
      else Locating(Some(location), true, true)
  }

  /** On native, a refused or failed permission request gives no location, and no position is asked for. */
  lemma PermissionDeniedAsksNothing(device: Device)
    requires device.permission != Some("granted")
    ensures AcquireLocation(Native, device) == Locating(None, false, false)
  {
  }

  /** A failing reverse geocode still yields the position, just without an address. */
  lemma GeocodeFailureKeepsLocation(device: Device)
    requires device.permission == Some("granted") && device.position.Some? && device.geocode.None?
    ensures var r := AcquireLocation(Native, device);
      r.location.Some? && r.location.value.address.None? && r.geocodeRequested
  {
  }

  /** With a geocode result, the address is built from the first placemark. */
  lemma GeocodeGivesAddress(device: Device)
    requires device.permission == Some("granted") && device.position.Some?
    requires device.geocode.Some? && |device.geocode.value| > 0
    ensures AcquireLocation(Native, device).location.value.address == Some(Address(device.geocode.value[0]))
  {
  }

  // ---------------------------------------------------------------- payloads

  /** The payload's `loc`: a GeoJSON Point whose coordinates are longitude then latitude, each 0 when falsy. */
  function GeoPoint(location: Option<Location>): Json {
    var lon := if location.Some? then JNum(location.value.longitude) else JUndef;
    var lat := if location.Some? then JNum(location.value.latitude) else JUndef;
    JObj(map["type" := JStr("Point"), "coordinates" := JArr([Or(lon, JNum(0)), Or(lat, JNum(0))])])
  }

  /** Reads a GeoJSON Point back as (longitude, latitude): the position order of RFC 7946 section 3.1.1. */
  function PointPosition(point: Json): Option<(int, int)> {
    var c := Prop(point, "coordinates");
    if Prop(point, "type") == JStr("Point") && c.JArr? && |c.items| == 2 && c.items[0].JNum? && c.items[1].JNum?
    then Some((c.items[0].n, c.items[1].n))
    else None
  }

  /** The payload's point decodes to the draft's position, longitude first; no position gives (0, 0). */
  lemma GeoPointRoundTrip(location: Option<Location>)
    ensures PointPosition(GeoPoint(location)) ==
      if location.Some? then Some((location.value.longitude, location.value.latitude)) else Some((0, 0))
  {
  }

  function OptionalJson(s: Option<string>): Json {
    if s.Some? then JStr(s.value) else JNull
  }

  /** The `data` object both payloads carry. */
  function DraftData(d: FormDraft): Json {
    JObj(map[
      "description" := JStr(d.description),
      "photo" := JObj(map["photo" := OptionalJson(d.photo)]),
      "asset" := JObj(map["name" := if d.selectedAsset.Some? then d.selectedAsset.value.name else JUndef,
                          "_id" := if d.selectedAsset.Some? then d.selectedAsset.value.id else JUndef]),
      "driver" := JObj(map["first_name" := if d.selectedDriver.Some? then d.selectedDriver.value.firstName else JUndef,
                           "last_name" := if d.selectedDriver.Some? then d.selectedDriver.value.lastName else JUndef,
                           "_id" := if d.selectedDriver.Some? then d.selectedDriver.value.id else JUndef]),
      "bac" := JObj(map["name" := Or(if d.selectedBac.Some? then d.selectedBac.value.name else JUndef, JStr("")),
                        "_id" := if d.selectedBac.Some? then d.selectedBac.value.id else JUndef]),
      "loc" := GeoPoint(d.location),
      "date" := JStr(d.date)])
  }

  /** The payload's owner: the user's company owner's `_id` when truthy, else the company owner itself. */
  function CompanyOwnerOf(user: Option<User>): (r: Json)
    ensures user.None? ==> r == JUndef
    ensures user.Some? && Truthy(Prop(user.value.companyOwner, "_id")) ==> r == Prop(user.value.companyOwner, "_id")
    ensures user.Some? && !Truthy(Prop(user.value.companyOwner, "_id")) ==> r == user.value.companyOwner
  {
    if user.None? then JUndef else Or(Prop(user.value.companyOwner, "_id"), user.value.companyOwner)
  }

  /** `dataToSave`, sent to the server. */
  function OnlinePayload(d: FormDraft, user: Option<User>, formId: Json): Payload {
    map["_form_id" := formId, "READ_ONLY" := JBool(false), "data" := DraftData(d),
        "_company_owner" := CompanyOwnerOf(user), "user" := if user.Some? then JStr(user.value.id) else JUndef]
  }

  /** `offlineToSave`, queued on the device. */
  function OfflinePayload(d: FormDraft, user: Option<User>, formId: Json, title: Json): Payload {
    map["title" := title, "_form_id" := formId, "READ_ONLY" := JBool(false), "data" := DraftData(d),
        "_company_owner" := CompanyOwnerOf(user), "user" := if user.Some? then JStr(user.value.id) else JUndef]
  }

  /** The offline payload is the online one plus a title, and stripping that title gives the online one back. */
  lemma OfflineIsOnlinePlusTitle(d: FormDraft, user: Option<User>, formId: Json, title: Json)
    ensures OfflinePayload(d, user, formId, title) == OnlinePayload(d, user, formId)["title" := title]
    ensures StripTitle(OfflinePayload(d, user, formId, title)) == OnlinePayload(d, user, formId)
  {
    var online := OnlinePayload(d, user, formId);
    var offline := OfflinePayload(d, user, formId, title);
    assert offline.Keys == online.Keys + {"title"};
    assert "title" !in online;
    assert forall k :: k in offline ==> offline[k] == online["title" := title][k];
    assert StripTitle(offline).Keys == online.Keys;
  }

  /** The payload's `loc` is the draft's position as a GeoJSON Point. */
  lemma PayloadLocation(d: FormDraft, user: Option<User>, formId: Json)
    ensures PointPosition(Prop(Get(OnlinePayload(d, user, formId), "data"), "loc")) ==
      if d.location.Some? then Some((d.location.value.longitude, d.location.value.latitude)) else Some((0, 0))
  {
    GeoPointRoundTrip(d.location);
  }

  /** The submit guard: asset, driver and bac chosen and a non-empty (untrimmed) description. */
  predicate RequiredFieldsPresent(d: FormDraft) {
    d.selectedAsset.Some? && d.selectedDriver.Some? && d.selectedBac.Some? && d.description != ""
  }

  /** A valid draft passes the guard, but the guard lets through what validity refuses. */
  lemma GuardWeakerThanValidity(d: FormDraft)
    ensures IsFormValid(d) ==> RequiredFieldsPresent(d)
    ensures RequiredFieldsPresent(d) && d.location.Some? && d.description == " " ==> !IsFormValid(d)
  {
    if IsFormValid(d) {
      assert d.description != "";
    }
    if d.description == " " {
      assert IsWhitespace(d.description[0]);
    }
  }

  // ---------------------------------------------------------------- the screen

  /** The screen's state: its modal and progress flags, the session user, and the alert shown. */
  class Screen {
    var showSuccessModal: bool
    var showConfirmationModal: bool
    var showLocationAlert: bool
    var isGettingLocation: bool
    var isSaving: bool
    var isConnected: bool
    var user: Option<User>
    /** The "Erreur" alert after a failed save. */
    var errorAlert: bool
    /** The "saved locally" alert, open until its OK is pressed. */
    var offlineAlert: bool
    /** The screen navigated away (back, or to the login page). */
    var left: bool
    /** The requests this screen sent to the server. */
    var sent: seq<Request>
    const store: Store
    const queue: HookQueue
    /** The route parameters `title` and `id`. */
    const title: Json
    const formId: Json

    constructor (store: Store, queue: HookQueue, title: Json, formId: Json)
      ensures this.store == store && this.queue == queue && this.title == title && this.formId == formId
      ensures !showSuccessModal && !showConfirmationModal && !showLocationAlert && !isGettingLocation && !isSaving
      ensures isConnected && user.None? && !errorAlert && !offlineAlert && !left && sent == []
    {
      this.store, this.queue, this.title, this.formId := store, queue, title, formId;
      showSuccessModal, showConfirmationModal, showLocationAlert := false, false, false;
      isGettingLocation, isSaving, isConnected := false, false, true;
      user, errorAlert, offlineAlert, left, sent := None, false, false, false, [];
    }

    /** The mount effect: adopt the stored session's user, or go to the login page when none can be read. */
    method CheckAuth(readFails: bool)
      modifies this
      ensures var auth := GetAuthData(queue.storage.authData, readFails);
        (auth.Some? ==> user == Some(auth.value.user) && left == old(left))
        && (auth.None? ==> user == old(user) && left)
      ensures unchanged(this`showSuccessModal, this`showConfirmationModal, this`sent, this`isConnected)
    {
      var auth := GetAuthData(queue.storage.authData, readFails);
      if auth.None? {
        left := true;
      } else {
        user := Some(auth.value.user);
      }
    }

    /** The network listener: connected only when the reported state says so. */
    method NetInfoChange(reported: Option<bool>)
      modifies this`isConnected
      ensures isConnected == (reported == Some(true))
    {
      isConnected := reported == Some(true);
    }

    /** The result modal's variant: success exactly when the draft is valid. */
    function ShowsSuccess(): bool
      reads this, store
    {
      IsFormValid(store.formData)
    }

    /**
     * `handleSubmit`. Missing fields: the result modal (in its error variant), nothing
     * else. Otherwise locate; a position goes into the draft and opens the confirmation,
     * no position opens the location alert.
     */
    method HandleSubmit(platform: Platform, device: Device) returns (attempt: Option<Locating>)
      modifies this, store
      ensures !RequiredFieldsPresent(old(store.formData)) ==>
        attempt.None? && showSuccessModal && store.formData == old(store.formData)
        && showConfirmationModal == old(showConfirmationModal) && showLocationAlert == old(showLocationAlert)
      ensures RequiredFieldsPresent(old(store.formData)) ==>
        attempt == Some(AcquireLocation(platform, device)) && showSuccessModal == old(showSuccessModal)
      ensures attempt.Some? && attempt.value.location.Some? ==>
        store.formData == old(store.formData).(location := attempt.value.location) && showConfirmationModal
        && showLocationAlert == old(showLocationAlert)
      ensures attempt.Some? && attempt.value.location.None? ==>
        store.formData == old(store.formData) && showLocationAlert && showConfirmationModal == old(showConfirmationModal)
      ensures attempt.None? ==> isGettingLocation == old(isGettingLocation)
      ensures attempt.Some? ==> !isGettingLocation
      ensures unchanged(this`sent, this`user, this`isSaving, this`errorAlert, this`offlineAlert, this`isConnected, this`left)
    {
      if !RequiredFieldsPresent(store.formData) {
        showSuccessModal := true;
        attempt := None;
        return;
      }
      isGettingLocation := true;
      var located := AcquireLocation(platform, device);
      attempt := Some(located);
      if located.location.Some? {
        store.UpdateLocation(located.location);
        isGettingLocation := false;
        showConfirmationModal := true;
      } else {
        isGettingLocation := false;
        showLocationAlert := true;
      }
    }

    /**
     * `handleConfirmSave`. Connected: only the server is called (the queue is untouched);
     * success swaps the confirmation for the result modal, a thrown error raises the
     * alert. Disconnected: only the queue is called; its errors are swallowed, so the
     * "saved locally" alert follows whatever happened to the write. The draft is never
     * reset here, and the saving flag ends down.
     */
    method HandleConfirmSave(readFails: bool, reply: Reply<Json>, idClock: nat, stampClock: nat, writeFails: bool)
      modifies this, queue, queue.storage`offlineForms
      ensures !isSaving
      ensures store.formData == old(store.formData)
      ensures old(isConnected) ==>
        var exchange := SaveFormData(GetAuthData(queue.storage.authData, readFails), OnlinePayload(old(store.formData), old(user), formId), reply).1;
        sent == old(sent) + (if exchange.sent.Some? then [exchange.sent.value] else [])
        && queue.forms == old(queue.forms) && queue.count == old(queue.count)
        && queue.storage.offlineForms == old(queue.storage.offlineForms)
        && (exchange.outcome.Ok? ==> !showConfirmationModal && showSuccessModal && !errorAlert == !old(errorAlert))
        && (exchange.outcome.Err? ==> errorAlert && showConfirmationModal == old(showConfirmationModal)
                                      && showSuccessModal == old(showSuccessModal))
        && offlineAlert == old(offlineAlert)
      ensures !old(isConnected) ==>
        sent == old(sent) && !showConfirmationModal && offlineAlert && errorAlert == old(errorAlert)
        && showSuccessModal == old(showSuccessModal)
        && (writeFails ==> queue.forms == old(queue.forms) && queue.storage.offlineForms == old(queue.storage.offlineForms))
        && (!writeFails ==> queue.forms == old(queue.forms) + [NewEntry(OfflinePayload(old(store.formData), old(user), formId, title), idClock, stampClock)]
                            && queue.storage.offlineForms == Some(queue.forms))
      ensures unchanged(this`user, this`isConnected, this`left)
    {
      isSaving := true;
      if isConnected {
        SendOnline(GetAuthData(queue.storage.authData, readFails), reply);
      } else {
        SaveOffline(idClock, stampClock, writeFails);
      }
      isSaving := false;
    }

    /** The connected branch of `handleConfirmSave`: post the payload to the server. */
    method SendOnline(auth: Option<AuthData>, reply: Reply<Json>)
      modifies this`sent, this`showConfirmationModal, this`showSuccessModal, this`errorAlert
      ensures var exchange := SaveFormData(auth, OnlinePayload(store.formData, user, formId), reply).1;
        sent == old(sent) + (if exchange.sent.Some? then [exchange.sent.value] else [])
        && (exchange.outcome.Ok? ==> !showConfirmationModal && showSuccessModal && errorAlert == old(errorAlert))
        && (exchange.outcome.Err? ==> errorAlert && showConfirmationModal == old(showConfirmationModal)
                                      && showSuccessModal == old(showSuccessModal))
    {
      var exchange := SaveFormData(auth, OnlinePayload(store.formData, user, formId), reply).1;
      if exchange.sent.Some? {
        sent := sent + [exchange.sent.value];
      }
      if exchange.outcome.Ok? {
        showConfirmationModal := false;
        showSuccessModal := true;
      } else {
        errorAlert := true;
      }
    }

    /** The offline branch of `handleConfirmSave`: queue the payload with its title. */
    method SaveOffline(idClock: nat, stampClock: nat, writeFails: bool)
      modifies this`showConfirmationModal, this`offlineAlert, queue, queue.storage`offlineForms
      ensures !showConfirmationModal && offlineAlert
      ensures writeFails ==> queue.forms == old(queue.forms) && queue.count == old(queue.count)
                             && queue.storage.offlineForms == old(queue.storage.offlineForms)
      ensures !writeFails ==> queue.forms == old(queue.forms) + [NewEntry(OfflinePayload(store.formData, user, formId, title), idClock, stampClock)]
                              && queue.storage.offlineForms == Some(queue.forms)
    {
      queue.Save(OfflinePayload(store.formData, user, formId, title), idClock, stampClock, writeFails);
      showConfirmationModal := false;
      offlineAlert := true;
    }

    /** `handleModalClose`: whichever variant was shown, the draft is reset. */
    method HandleModalClose(today: string)
      modifies this`showSuccessModal, store
      ensures !showSuccessModal && store.formData == InitialDraft(today)
    {
      showSuccessModal := false;
      store.ResetForm(today);
    }

    /** The OK of the "saved locally" alert: reset the draft and go back. */
    method PressOfflineOk(today: string)
      modifies this`offlineAlert, this`left, store
      ensures !offlineAlert && left && store.formData == InitialDraft(today)
    {
      offlineAlert := false;
      store.ResetForm(today);
      left := true;
    }

    /** `handleCancelConfirm`. */
    method HandleCancelConfirm()
      modifies this`showConfirmationModal
      ensures !showConfirmationModal
    {
      showConfirmationModal := false;
    }
  }

  /**
   * A whitespace-only description passes the submit guard and is sent, and the result
   * modal that follows shows its error variant, because validity trims the description.
   */
  method BlankDescriptionSavedAsError(s: Screen, platform: Platform, device: Device, response: Json)
    requires s.store.formData.selectedAsset.Some? && s.store.formData.selectedDriver.Some?
    requires s.store.formData.selectedBac.Some? && |s.store.formData.description| > 0
    requires forall i :: 0 <= i < |s.store.formData.description| ==> IsWhitespace(s.store.formData.description[i])
    requires s.isConnected && AcquireLocation(platform, device).location.Some? && s.queue.storage.authData.Some?
    modifies s, s.store, s.queue, s.queue.storage`offlineForms
    ensures |s.sent| == |old(s.sent)| + 1
    ensures Prop(Prop(s.sent[|s.sent| - 1].body, "data"), "description") == JStr(old(s.store.formData.description))
    ensures s.showSuccessModal && !s.ShowsSuccess()
  {
    var description := s.store.formData.description;
    var attempt := s.HandleSubmit(platform, device);
    assert s.store.formData.description == description;
    s.HandleConfirmSave(false, Response(true, Some(response)), 0, 0, false);
    BlankDescriptionNotValid(s.store.formData);
  }

  /** Offline, a failed write is not reported: the "saved locally" alert shows and the queue is unchanged. */
  method OfflineWriteFailureUnreported(s: Screen, readFails: bool, reply: Reply<Json>, idClock: nat, stampClock: nat)
    requires !s.isConnected
    modifies s, s.queue, s.queue.storage`offlineForms
    ensures s.offlineAlert && !s.showConfirmationModal
    ensures s.queue.forms == old(s.queue.forms) && s.queue.storage.offlineForms == old(s.queue.storage.offlineForms)
  {
    s.HandleConfirmSave(readFails, reply, idClock, stampClock, true);
  }
}
