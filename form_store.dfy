/**
 * The mission draft store (hooks/useFormStore.ts): a draft record replaced one field at a
 * time by the setters and wholesale by the reset, and the validity predicate the result
 * modal consults. The date of "today" is recomputed by the hook on every render from the
 * clock; here it is the parameter `today`, the date part of an ISO timestamp.
 */
module FormStore {
  import opened Wrappers
  import opened Text
  import opened Types

  /** The date part of an ISO timestamp: everything before its first "T". */
  function DatePrefix(iso: string): (r: string)
    ensures r <= iso && 'T' !in r
  {
    BeforeFirst(iso, 'T')
  }

  /** For the usual ISO timestamp shape the prefix is exactly the date. */
  lemma DatePrefixOfTimestamp(date: string, time: string)
    requires 'T' !in date
    ensures DatePrefix(date + "T" + time) == date
  {
    var s := date + "T" + time;
    var r := DatePrefix(s);
    assert s[|date|] == 'T';
    assert r == s[..|r|];
  }

  /** The initial draft: nothing selected, no photo, no location, empty description, today's date. */
  function InitialDraft(today: string): (d: FormDraft)
    ensures d.selectedAsset.None? && d.selectedDriver.None? && d.selectedBac.None?
    ensures d.photo.None? && d.location.None? && d.description == "" && d.date == today
  {
    FormDraft(None, None, None, None, "", None, today)
  }

  /** `isFormValid`: everything selected, a location, and a description with a non-whitespace character. */
  predicate IsFormValid(d: FormDraft) {
    d.selectedAsset.Some? && d.selectedDriver.Some? && d.selectedBac.Some?
    && |Trim(d.description)| > 0 && d.location.Some?
  }

  /** The trimmed-length test is the same as "some character is not whitespace". */
  lemma IsFormValidIff(d: FormDraft)
    ensures IsFormValid(d) <==>
      d.selectedAsset.Some? && d.selectedDriver.Some? && d.selectedBac.Some? && d.location.Some?
      && exists i :: 0 <= i < |d.description| && !IsWhitespace(d.description[i])
  {
  }

  /** The initial draft, and so every draft right after a reset, is not valid. */
  lemma InitialDraftNotValid(today: string)
    ensures !IsFormValid(InitialDraft(today))
  {
  }

  /** A description made only of whitespace (or empty) does not make a draft valid. */
  lemma BlankDescriptionNotValid(d: FormDraft)
    requires forall i :: 0 <= i < |d.description| ==> IsWhitespace(d.description[i])
    ensures !IsFormValid(d)
  {
    IsFormValidIff(d);
  }

  /** The hook's state. */
  class Store {
    var formData: FormDraft

    constructor (today: string)
      ensures formData == InitialDraft(today)
    {
      formData := InitialDraft(today);
    }

    method UpdateAsset(asset: Option<Asset>)
      modifies this
      ensures formData == old(formData).(selectedAsset := asset)
    {
      formData := formData.(selectedAsset := asset);
    }

    method UpdateDriver(driver: Option<Driver>)
      modifies this
      ensures formData == old(formData).(selectedDriver := driver)
    {
      formData := formData.(selectedDriver := driver);
    }

    method UpdateBac(bac: Option<Bac>)
      modifies this
      ensures formData == old(formData).(selectedBac := bac)
    {
      formData := formData.(selectedBac := bac);
    }

    method UpdatePhoto(photo: Option<string>)
      modifies this
      ensures formData == old(formData).(photo := photo)
    {
      formData := formData.(photo := photo);
    }

    method UpdateDescription(description: string)
      modifies this
      ensures formData == old(formData).(description := description)
    {
      formData := formData.(description := description);
    }

    method UpdateLocation(location: Option<Location>)
      modifies this
      ensures formData == old(formData).(location := location)
    {
      formData := formData.(location := location);
    }

    method UpdateDate(date: string)
      modifies this
      ensures formData == old(formData).(date := date)
    {
      formData := formData.(date := date);
    }

    /** `resetForm`: back to the initial draft, whatever the prior state; the result is never valid. */
    method ResetForm(today: string)
      modifies this
      ensures formData == InitialDraft(today)
      ensures !IsFormValid(formData)
    {
      formData := InitialDraft(today);
    }
  }
}
