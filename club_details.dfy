// The club registration form (frontend/components/screens/ClubDetailsScreen.tsx):
// validation into a map from field key to message, clearing one field's
// error while the user edits it, and the venue type sent with the request.

module ClubDetails {
  import opened Basics
  import opened Text

  /** The venue types offered; "Other" asks for a free-text type. */
  datatype VenueType = Nightclub | Rooftop | Bar | Lounge | PoolClub | Other

  function VenueLabel(v: VenueType): string {
    match v
    case Nightclub => "Nightclub"
    case Rooftop => "Rooftop"
    case Bar => "Bar"
    case Lounge => "Lounge"
    case PoolClub => "Pool Club"
    case Other => "Other"
  }

  datatype ClubForm = ClubForm(
    name: string, email: string, description: string,
    typeOfVenue: Option<VenueType>, otherVenue: string,
    operatingDays: seq<string>, address: string, mapLink: string, phone: string,
    logoUrl: Option<string>, coverBannerUrl: Option<string>, photos: seq<string>)

  /** `!s.trim()`: empty or white space only, which is when trimming leaves nothing (Text.TrimEmptyIffBlank). */
  predicate Missing(s: string) {
    Blank(s)
  }

  /** The field names under which `validate` records its messages. */
  datatype ErrorKey = NameKey | EmailKey | DescriptionKey | TypeOfVenueKey | OtherVenueKey
                    | OperatingDaysKey | AddressKey | MapLinkKey | PhoneKey

  function KeyName(k: ErrorKey): string {
    match k
    case NameKey => "name"
    case EmailKey => "email"
    case DescriptionKey => "description"
    case TypeOfVenueKey => "typeOfVenue"
    case OtherVenueKey => "otherVenue"
    case OperatingDaysKey => "operatingDays"
    case AddressKey => "address"
    case MapLinkKey => "mapLink"
    case PhoneKey => "phone"
  }

  predicate OtherUnspecified(f: ClubForm) {
    f.typeOfVenue == Some(Other) && Missing(f.otherVenue)
  }

  /** Every recorded message has text to show. */
  predicate MessagesFilled(m: map<ErrorKey, string>) {
    forall k :: k in m ==> m[k] != ""
  }

  /** One step of `validate`: record `message` under `key` when the rule fails. */
  function AddIf(m: map<ErrorKey, string>, fails: bool, key: ErrorKey, message: string): (r: map<ErrorKey, string>)
    ensures forall k :: k in r <==> k in m || (fails && k == key)
    ensures forall k :: k in r && k != key ==> r[k] == m[k]
    ensures MessagesFilled(m) && message != "" ==> MessagesFilled(r)
  {
    if fails then m[key := message] else m
  }

  /** The errors `validate` collects, keyed by field. */
  function ValidationErrors(f: ClubForm): (r: map<ErrorKey, string>)
    ensures MessagesFilled(r)
  {
    var m1 := AddIf(map[], Missing(f.name), NameKey, "Club name is required");
    var m2 := AddIf(m1, Missing(f.email), EmailKey, "Email is required");
    var m3 := AddIf(m2, Missing(f.description), DescriptionKey, "Description is required");
    var m4 := AddIf(m3, f.typeOfVenue.None?, TypeOfVenueKey, "Please select a venue type");
    var m5 := AddIf(m4, OtherUnspecified(f), OtherVenueKey, "Please specify the venue type");
    var m6 := AddIf(m5, |f.operatingDays| == 0, OperatingDaysKey, "Select at least one operating day");
    var m7 := AddIf(m6, Missing(f.address), AddressKey, "Address is required");
    var m8 := AddIf(m7, Missing(f.mapLink), MapLinkKey, "Maps link is required");
    AddIf(m8, Missing(f.phone), PhoneKey, "Phone number is required")
  }

  /** Every required field is filled in, a venue type is chosen (and named, for "Other"), and a day is picked. */
  predicate FormValid(f: ClubForm) {
    !Missing(f.name) && !Missing(f.email) && !Missing(f.description) && f.typeOfVenue.Some?
    && !OtherUnspecified(f) && |f.operatingDays| > 0
    && !Missing(f.address) && !Missing(f.mapLink) && !Missing(f.phone)
  }

  /** The rule recorded under `key` fails for the form. */
  predicate Fails(f: ClubForm, key: ErrorKey) {
    (key == NameKey && Missing(f.name))
    || (key == EmailKey && Missing(f.email))
    || (key == DescriptionKey && Missing(f.description))
    || (key == TypeOfVenueKey && f.typeOfVenue.None?)
    || (key == OtherVenueKey && OtherUnspecified(f))
    || (key == OperatingDaysKey && |f.operatingDays| == 0)
    || (key == AddressKey && Missing(f.address))
    || (key == MapLinkKey && Missing(f.mapLink))
    || (key == PhoneKey && Missing(f.phone))
  }

  /** A key is in the error map exactly when its rule fails. */
  lemma ValidationErrorsKeys(f: ClubForm)
    ensures forall k :: k in ValidationErrors(f) <==> Fails(f, k)
  {
  }

  /**
   * Each field's rule in particular: "Other" with a blank name reports
   * otherVenue, and no operating day reports operatingDays.
   */
  lemma ValidationErrorsPerField(f: ClubForm)
    ensures NameKey in ValidationErrors(f) <==> Missing(f.name)
    ensures TypeOfVenueKey in ValidationErrors(f) <==> f.typeOfVenue.None?
    ensures OtherVenueKey in ValidationErrors(f) <==> OtherUnspecified(f)
    ensures OperatingDaysKey in ValidationErrors(f) <==> |f.operatingDays| == 0
    ensures PhoneKey in ValidationErrors(f) <==> Missing(f.phone)
  {
    ValidationErrorsKeys(f);
    var m := ValidationErrors(f);
    assert NameKey in m <==> Fails(f, NameKey);
    assert TypeOfVenueKey in m <==> Fails(f, TypeOfVenueKey);
    assert OtherVenueKey in m <==> Fails(f, OtherVenueKey);
    assert OperatingDaysKey in m <==> Fails(f, OperatingDaysKey);
    assert PhoneKey in m <==> Fails(f, PhoneKey);
  }

  /** `validate` returns true exactly when the error map is empty, which is when the form is valid. */
  lemma ValidIffNoErrors(f: ClubForm)
    ensures ValidationErrors(f) == map[] <==> FormValid(f)
  {
    ValidationErrorsKeys(f);
    var m := ValidationErrors(f);
    if FormValid(f) {
      forall k ensures k !in m {
        assert !Fails(f, k);
      }
      assert m.Keys == {};
    } else {
      var k := if Missing(f.name) then NameKey
        else if Missing(f.email) then EmailKey
        else if Missing(f.description) then DescriptionKey
        else if f.typeOfVenue.None? then TypeOfVenueKey
        else if OtherUnspecified(f) then OtherVenueKey
        else if |f.operatingDays| == 0 then OperatingDaysKey
        else if Missing(f.address) then AddressKey
        else if Missing(f.mapLink) then MapLinkKey
        else PhoneKey;
      assert Fails(f, k);
      assert k in m;
    }
  }

  /** `clearError`: the same map when the key holds no message, else the map without the key. */
  function Cleared(errors: map<ErrorKey, string>, key: ErrorKey): (r: map<ErrorKey, string>)
    ensures forall k :: k in r ==> k in errors && r[k] == errors[k]
  {
    if key !in errors || errors[key] == [] then errors else errors - {key}
  }

  /** Clearing removes only the given key, and clearing again changes nothing. */
  lemma ClearedSpec(errors: map<ErrorKey, string>, key: ErrorKey)
    ensures key in errors && errors[key] != [] ==> key !in Cleared(errors, key)
    ensures forall k :: k != key ==> (k in Cleared(errors, key) <==> k in errors)
    ensures forall k :: k != key && k in errors ==> Cleared(errors, key)[k] == errors[k]
    ensures key !in errors ==> Cleared(errors, key) == errors
    ensures Cleared(Cleared(errors, key), key) == Cleared(errors, key)
  {
  }

  /** The venue type sent: the typed name for "Other" (or "Other" when that is empty), else the label. */
  function VenuePayload(f: ClubForm): string
    requires f.typeOfVenue.Some?
  {
    if f.typeOfVenue.value == Other then (if f.otherVenue != [] then f.otherVenue else "Other")
    else VenueLabel(f.typeOfVenue.value)
  }

  /** On a valid form the "Other" fallback is never taken: the typed name is sent as it was typed. */
  lemma VenuePayloadOfValidForm(f: ClubForm)
    requires FormValid(f)
    ensures f.typeOfVenue == Some(Other) ==> VenuePayload(f) == f.otherVenue && !Blank(f.otherVenue)
    ensures f.typeOfVenue != Some(Other) ==> VenuePayload(f) == VenueLabel(f.typeOfVenue.value)
  {
  }

  datatype ClubPayload = ClubPayload(
    name: string, email: string, clubDescription: string, typeOfVenue: string,
    operatingDays: seq<string>, phone: string, address: string, mapLink: string,
    logoUrl: Option<string>, coverBannerUrl: Option<string>, photos: seq<string>)

  function Payload(f: ClubForm): (r: ClubPayload)
    requires f.typeOfVenue.Some?
    ensures FormValid(f) && f.typeOfVenue == Some(Other) ==> !Blank(r.typeOfVenue)
    ensures r.operatingDays == f.operatingDays
  {
    ClubPayload(f.name, f.email, f.description, VenuePayload(f), f.operatingDays, f.phone,
                f.address, f.mapLink, f.logoUrl, f.coverBannerUrl, f.photos)
  }

  /** The error map the screen shows. */
  class ClubDetailsForm {
    var errors: map<ErrorKey, string>

    constructor ()
      ensures errors == map[]
    {
      errors := map[];
    }

    method ClearError(key: ErrorKey)
      modifies this
      ensures errors == Cleared(old(errors), key)
    {
      if key in errors && errors[key] != [] {
        errors := errors - {key};
      }
    }

    /** `validate`: builds the error map entry by entry, shows it, and reports whether it is empty. */
    method Validate(f: ClubForm) returns (isValid: bool)
      modifies this
      ensures errors == ValidationErrors(f)
      ensures isValid <==> FormValid(f)
    {
      var next: map<ErrorKey, string> := map[];
      next := AddIf(next, Missing(f.name), NameKey, "Club name is required");
      next := AddIf(next, Missing(f.email), EmailKey, "Email is required");
      next := AddIf(next, Missing(f.description), DescriptionKey, "Description is required");
      next := AddIf(next, f.typeOfVenue.None?, TypeOfVenueKey, "Please select a venue type");
      next := AddIf(next, OtherUnspecified(f), OtherVenueKey, "Please specify the venue type");
      next := AddIf(next, |f.operatingDays| == 0, OperatingDaysKey, "Select at least one operating day");
      next := AddIf(next, Missing(f.address), AddressKey, "Address is required");
      next := AddIf(next, Missing(f.mapLink), MapLinkKey, "Maps link is required");
      next := AddIf(next, Missing(f.phone), PhoneKey, "Phone number is required");
      errors := next;
      isValid := next == map[];
      ValidIffNoErrors(f);
    }

    /** `handleSubmit`: no request unless the form validates. */
    method Submit(f: ClubForm) returns (request: Option<ClubPayload>)
      modifies this
      ensures errors == ValidationErrors(f)
      ensures request.Some? <==> FormValid(f)
      ensures request.Some? ==> request.value == Payload(f)
    {
      var ok := Validate(f);
      if !ok {
        return None;
      }
      request := Some(Payload(f));
    }
  }
}
