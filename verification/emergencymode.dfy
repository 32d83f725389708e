/** The emergency overlay (components/EmergencyMode.tsx): locating the
    device, the SMS alert to the active profile's contacts, and the texts the
    overlay shows. */
module EmergencyMode {
  import opened Types
  import opened JsStrings
  import EmergencyCard

  /** `locationStatus`: 'fetching', 'success' or 'error'. */
  datatype LocationStatus = Fetching | Located | LocationFailed

  /** A position, as the decimal texts of its latitude and longitude. */
  datatype Coordinates = Coordinates(latitude: string, longitude: string)

  const PermissionDeniedText := "Location permission denied. Please enable it in your settings."
  const UnavailableText := "Location information is currently unavailable."
  const TimeoutText := "The request to get your location timed out."
  const UnknownLocationErrorText := "An unknown error occurred while fetching location."
  const UnsupportedText := "Geolocation is not supported by this browser."

  /** The position error callback's message: codes 1 (permission denied),
      2 (position unavailable) and 3 (timeout) have fixed texts; any other code
      shows the browser's own message when it is a non-empty string, else a
      fixed fallback. */
  function GeolocationErrorMessage(code: int, browserMessage: Option<string>): (m: string)
    ensures code == 1 ==> m == PermissionDeniedText
    ensures code == 2 ==> m == UnavailableText
    ensures code == 3 ==> m == TimeoutText
    ensures code !in {1, 2, 3} && browserMessage.Some? && browserMessage.value != "" ==> m == browserMessage.value
    ensures code !in {1, 2, 3} && (browserMessage.None? || browserMessage.value == "") ==> m == UnknownLocationErrorText
  {
    if code == 1 then PermissionDeniedText
    else if code == 2 then UnavailableText
    else if code == 3 then TimeoutText
    else if browserMessage.Some? && browserMessage.value != "" then browserMessage.value
    else UnknownLocationErrorText
  }

  /** Whatever the error, the overlay has a message to show. */
  lemma GeolocationErrorMessageNonEmpty(code: int, browserMessage: Option<string>)
    ensures GeolocationErrorMessage(code, browserMessage) != ""
  {
  }

  /** What `handleSendAlert` does: nothing to send (a browser alert is shown
      instead), or the SMS link to the recipients with a message body. */
  datatype Alert = NoRecipients | SmsAlert(recipients: string, body: string)

  function Phones(cs: seq<EmergencyContact>): (ps: seq<string>)
    ensures |ps| == |cs|
    ensures forall i :: 0 <= i < |cs| ==> ps[i] == cs[i].phone
  {
    seq(|cs|, i requires 0 <= i < |cs| => cs[i].phone)
  }

  /** Every contact's phone, in order, joined by ",". */
  function Recipients(cs: seq<EmergencyContact>): string
  {
    Join(Phones(cs), ",")
  }

  function MapsUrl(c: Coordinates): string
  {
    "https://www.google.com/maps?q=" + c.latitude + "," + c.longitude
  }

  /** The opening every alert shares. */
  function Opening(name: string): string
  {
    "EMERGENCY! " + name + " needs help. "
  }

  /** The message: the maps link when the position was found and is known,
      otherwise the sentence saying it cannot be shared. */
  function AlertBody(name: string, status: LocationStatus, location: Option<Coordinates>): (body: string)
    ensures Opening(name) <= body
    ensures status == Located && location.Some? ==>
      body[|Opening(name)|..] == "Current location: " + MapsUrl(location.value)
    ensures !(status == Located && location.Some?) ==>
      body[|Opening(name)|..] == "I am unable to share my current location."
  {
    var rest := if status == Located && location.Some? then "Current location: " + MapsUrl(location.value)
                else "I am unable to share my current location.";
    assert (Opening(name) + rest)[..|Opening(name)|] == Opening(name);
    assert (Opening(name) + rest)[|Opening(name)|..] == rest;
    Opening(name) + rest
  }

  /** `handleSendAlert`: blocked exactly when the joined phones are empty;
      otherwise the SMS goes to the joined phones with the message. */
  function AlertFor(p: HealthProfile, status: LocationStatus, location: Option<Coordinates>): (a: Alert)
    ensures a == NoRecipients <==> Recipients(p.emergencyContacts) == ""
    ensures a.SmsAlert? ==>
      a.recipients == Recipients(p.emergencyContacts) && a.body == AlertBody(p.name, status, location)
  {
    var phones := Recipients(p.emergencyContacts);
    if phones == "" then NoRecipients else SmsAlert(phones, AlertBody(p.name, status, location))
  }

  /** When the alert is blocked: with no contacts, or with a single contact
      whose phone is empty. Two or more contacts always send, even if every
      phone is empty (the recipients are then only commas). */
  lemma AlertBlockedIff(p: HealthProfile, status: LocationStatus, location: Option<Coordinates>)
    ensures AlertFor(p, status, location) == NoRecipients <==>
      |p.emergencyContacts| == 0 || (|p.emergencyContacts| == 1 && p.emergencyContacts[0].phone == "")
  {
    JoinEmptyIff(Phones(p.emergencyContacts), ",");
  }

  /** The alert button's text. */
  function AlertButtonLabel(status: LocationStatus): (s: string)
    ensures s == "SEND LOCATION ALERT" <==> status == Located
    ensures s == "SEND ALERT" <==> status != Located
  {
    if status == Located then "SEND LOCATION ALERT" else "SEND ALERT"
  }

  /** The alert button is disabled exactly while the position is being
      fetched. */
  predicate AlertButtonDisabled(status: LocationStatus)
  {
    status == Fetching
  }

  /** The button as the user meets it: it can be pressed only once the
      position request has ended, and its label keeps its word: with a found
      position (the success callback always stores one) it says
      "SEND LOCATION ALERT" and the message carries the maps link; after a
      failure it says "SEND ALERT" and the message says the location cannot
      be shared. */
  lemma PressableButtonKeepsItsWord(name: string, status: LocationStatus, location: Option<Coordinates>)
    requires status == Located ==> location.Some?
    ensures !AlertButtonDisabled(status) <==> status == Located || status == LocationFailed
    ensures AlertButtonLabel(status) == "SEND LOCATION ALERT" ==>
      AlertBody(name, status, location) == Opening(name) + "Current location: " + MapsUrl(location.value)
    ensures AlertButtonLabel(status) != "SEND LOCATION ALERT" ==>
      AlertBody(name, status, location) == Opening(name) + "I am unable to share my current location."
  {
    var body := AlertBody(name, status, location);
    assert body == body[..|Opening(name)|] + body[|Opening(name)|..];
  }

  /** `InfoBlock`'s value: an empty value shows "N/A". */
  function InfoValue(v: string): (r: string)
    ensures r != ""
    ensures v != "" ==> r == v
    ensures v == "" ==> r == "N/A"
  {
    if v == "" then "N/A" else v
  }

  /** The status line under the contacts. */
  function StatusText(status: LocationStatus, error: string): (s: string)
    ensures status == Fetching ==> s == "Getting current location..."
    ensures status == Located ==> s == "Location found. Ready to send alert."
    ensures status == LocationFailed ==>
      s == "Location Error: " + error + " Alert will be sent without location."
  {
    match status
    case Fetching => "Getting current location..."
    case Located => "Location found. Ready to send alert."
    case LocationFailed => "Location Error: " + error + " Alert will be sent without location."
  }

  /** The allergies block: "name (severity)" per allergy, or "None Reported". */
  function AllergyLines(als: seq<Allergy>): (ls: seq<string>)
    ensures als == [] ==> ls == ["None Reported"]
    ensures als != [] ==> ls == EmergencyCard.AllergyItems(als)
  {
    if als == [] then ["None Reported"] else EmergencyCard.AllergyItems(als)
  }

  /** One line of the contacts block: the contact's name part and phone. */
  datatype ContactLine = ContactLine(name: string, phone: string)

  /** The contacts block: the single text "None", or one line per contact. */
  datatype ContactsBlock = NoContacts | ContactRows(rows: seq<ContactLine>)

  /** The contacts block for a profile: "None" exactly when there are no
      contacts, otherwise one line per contact, in order, named by the same
      name part the card shows. */
  function ContactLines(cs: seq<EmergencyContact>): (b: ContactsBlock)
    ensures b.NoContacts? <==> cs == []
    ensures b.ContactRows? ==> |b.rows| == |cs| && forall i :: 0 <= i < |cs| ==>
      b.rows[i] == ContactLine(EmergencyCard.ContactDisplayName(cs[i].name), cs[i].phone)
  {
    if cs == [] then NoContacts
    else ContactRows(seq(|cs|, i requires 0 <= i < |cs| => ContactLine(EmergencyCard.ContactDisplayName(cs[i].name), cs[i].phone)))
  }

  /** The overlay's own state. */
  class EmergencyScreen {
    var location: Option<Coordinates>
    var locationStatus: LocationStatus
    var locationError: string

    constructor ()
      ensures location == None && locationStatus == Fetching && locationError == ""
    {
      location := None;
      locationStatus := Fetching;
      locationError := "";
    }

    /** The mount effect: without geolocation the status fails at once with
        the "not supported" text; with it, a request is made and the state
        waits for one of the two callbacks below. */
    method RequestLocation(supported: bool)
      modifies this`locationStatus, this`locationError
      ensures supported ==> locationStatus == old(locationStatus) && locationError == old(locationError)
      ensures !supported ==> locationStatus == LocationFailed && locationError == UnsupportedText
    {
      if !supported {
        locationStatus := LocationFailed;
        locationError := UnsupportedText;
      }
    }

    /** The success callback. */
    method OnPosition(c: Coordinates)
      modifies this`location, this`locationStatus
      ensures location == Some(c) && locationStatus == Located
    {
      location := Some(c);
      locationStatus := Located;
    }

    /** The error callback. */
    method OnPositionError(code: int, browserMessage: Option<string>)
      modifies this`locationStatus, this`locationError
      ensures locationStatus == LocationFailed
      ensures locationError == GeolocationErrorMessage(code, browserMessage)
    {
      locationStatus := LocationFailed;
      locationError := GeolocationErrorMessage(code, browserMessage);
    }

    /** `handleSendAlert` for the active profile, in the current state. */
    method SendAlert(p: HealthProfile) returns (a: Alert)
      ensures a == AlertFor(p, locationStatus, location)
      ensures a.SmsAlert? && locationStatus != Located ==>
        a.body == Opening(p.name) + "I am unable to share my current location."
    {
      var phones := Recipients(p.emergencyContacts);
      if phones == "" {
        return NoRecipients;
      }
      var body: string;
      if locationStatus == Located && location.Some? {
        body := Opening(p.name) + "Current location: " + MapsUrl(location.value);
      } else {
        body := Opening(p.name) + "I am unable to share my current location.";
      }
      a := SmsAlert(phones, body);
    }
  }
}
