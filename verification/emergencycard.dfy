/** The emergency health card (components/EmergencyCard.tsx): the payload
    behind its QR code and the texts of its rows. */
module EmergencyCard {
  import opened Types
  import opened JsStrings
  import Profile

  /** `emergencyData`, field by field. */
  datatype Payload = Payload(name: string, dob: string, bloodType: string, allergies: string, contacts: string)

  /** One allergy of the payload: "name (severity)". */
  function AllergyItem(a: Allergy): string
  {
    a.name + " (" + SeverityName(a.severity) + ")"
  }

  /** One contact of the payload: "name: phone". */
  function ContactItem(c: EmergencyContact): string
  {
    c.name + ": " + c.phone
  }

  function AllergyItems(als: seq<Allergy>): (xs: seq<string>)
    ensures |xs| == |als|
    ensures forall i :: 0 <= i < |als| ==> xs[i] == AllergyItem(als[i])
  {
    seq(|als|, i requires 0 <= i < |als| => AllergyItem(als[i]))
  }

  function ContactItems(cs: seq<EmergencyContact>): (xs: seq<string>)
    ensures |xs| == |cs|
    ensures forall i :: 0 <= i < |cs| ==> xs[i] == ContactItem(cs[i])
  {
    seq(|cs|, i requires 0 <= i < |cs| => ContactItem(cs[i]))
  }

  /** The payload: name, date of birth and blood type as they are; the
      allergy items joined by ", " or "None"; the contact items joined by
      " | ", with no fallback. */
  function PayloadOf(p: HealthProfile): (d: Payload)
    ensures d.name == p.name && d.dob == p.dob && d.bloodType == p.bloodType
    ensures d.allergies == JoinOr(AllergyItems(p.allergies), ", ", "None")
    ensures d.contacts == Join(ContactItems(p.emergencyContacts), " | ")
  {
    Payload(p.name, p.dob, p.bloodType,
            JoinOr(AllergyItems(p.allergies), ", ", "None"),
            Join(ContactItems(p.emergencyContacts), " | "))
  }

  /** The payload's allergies read "None" exactly when the profile has no
      allergies: every item ends in ")" and a join of two or more is longer
      than "None". */
  lemma PayloadAllergiesNoneIff(p: HealthProfile)
    ensures PayloadOf(p).allergies == "None" <==> p.allergies == []
  {
    var xs := AllergyItems(p.allergies);
    JoinOrFallbackIff(xs, ", ", "None");
    if |xs| == 1 {
      var x := xs[0];
      assert x[|x| - 1] == ')';
    } else if |xs| > 1 {
      assert |Join(xs, ", ")| >= |xs[0]| + 2;
    }
  }

  /** The payload's contacts are the empty string exactly when the profile has
      no contacts (each item holds ": "), never "None". */
  lemma PayloadContactsEmptyIff(p: HealthProfile)
    ensures PayloadOf(p).contacts == "" <==> p.emergencyContacts == []
  {
    var xs := ContactItems(p.emergencyContacts);
    JoinEmptyIff(xs, " | ");
    if |xs| == 1 {
      assert |xs[0]| >= 2;
    }
  }

  /** The "Known Allergies" row: names only, joined by ", ", or "None" — the
      same summary as the profile screen's. */
  function KnownAllergies(p: HealthProfile): (s: string)
    ensures s == Profile.QrPayloadOf(p).allergies
    ensures p.allergies == [] ==> s == "None"
    ensures (exists i :: 0 <= i < |p.allergies| && p.allergies[i].name != "") ==>
      s == Join(Profile.AllergyNames(p.allergies), ", ")
  {
    Profile.AllergySummaryCases(p.allergies);
    Profile.AllergySummary(p.allergies)
  }

  /** A contact row's label: "Contact" when the name has no '('; otherwise
      `substring` from just after the first '(' to the first ')'. */
  function ContactLabel(name: string): string
  {
    if '(' in name then Substring(name, IndexOf(name, '(') + 1, IndexOf(name, ')')) else "Contact"
  }

  /** The label when a ')' follows the first '(': the text between them. */
  lemma LabelBetween(name: string, o: int, c: int)
    requires '(' in name && o == IndexOf(name, '(') && c == IndexOf(name, ')') && c > o
    ensures ContactLabel(name) == name[o + 1..c] && ')' !in name[o + 1..c]
  {
    assert Clamp(o + 1, |name|) == o + 1 && Clamp(c, |name|) == c;
    assert name[o + 1..c] == name[..c][o + 1..];
  }

  /** The label when the name has no ')': the end bound -1 clamps to 0. */
  lemma LabelNoClose(name: string, o: int)
    requires '(' in name && o == IndexOf(name, '(') && IndexOf(name, ')') == -1
    ensures ContactLabel(name) == name[..o + 1]
  {
    assert Clamp(o + 1, |name|) == o + 1 && Clamp(-1, |name|) == 0;
  }

  /** The label when the first ')' comes before the '(': the bounds swap. */
  lemma LabelCloseFirst(name: string, o: int, c: int)
    requires '(' in name && o == IndexOf(name, '(') && c == IndexOf(name, ')') && 0 <= c < o
    ensures ContactLabel(name) == name[c..o + 1]
  {
    assert Clamp(o + 1, |name|) == o + 1 && Clamp(c, |name|) == c;
  }

  /** What the label turns out to be. With a ')' after the '(' it is the text
      between them, holding no ')'. With no ')' the end bound -1 clamps to 0
      and the bounds swap: the name up to and including the '('. With the
      first ')' before the '(' the bounds swap too: from that ')' up to and
      including the '('. */
  lemma ContactLabelCases(name: string)
    ensures '(' !in name ==> ContactLabel(name) == "Contact"
    ensures '(' in name && IndexOf(name, ')') > IndexOf(name, '(') ==>
      ContactLabel(name) == name[IndexOf(name, '(') + 1..IndexOf(name, ')')] && ')' !in ContactLabel(name)
    ensures '(' in name && IndexOf(name, ')') == -1 ==>
      ContactLabel(name) == name[..IndexOf(name, '(') + 1]
    ensures '(' in name && 0 <= IndexOf(name, ')') < IndexOf(name, '(') ==>
      ContactLabel(name) == name[IndexOf(name, ')')..IndexOf(name, '(') + 1]
  {
    if '(' in name {
      var o, c := IndexOf(name, '('), IndexOf(name, ')');
      if c > o {
        LabelBetween(name, o, c);
      } else if c == -1 {
        LabelNoClose(name, o);
      } else {
        LabelCloseFirst(name, o, c);
      }
    }
  }

  /** The name part of a contact: the text before the first '(', trimmed. It
      never holds a '(', and a name without one is only trimmed. */
  function ContactDisplayName(name: string): (r: string)
    ensures '(' !in r
    ensures '(' !in name ==> r == Trim(name)
    ensures '(' in name ==> r == Trim(name[..IndexOf(name, '(')])
  {
    var before := BeforeFirst(name, '(');
    assert '(' in name ==> before == name[..IndexOf(name, '(')];
    var t := TrimStart(before);
    assert forall j :: 0 <= j < |t| ==> t[j] == before[|before| - |t| + j];
    Trim(before)
  }

  /** A contact row's value: the name part, " - ", the phone. */
  function ContactValue(c: EmergencyContact): (v: string)
    ensures ContactDisplayName(c.name) <= v
    ensures v[|ContactDisplayName(c.name)|..] == " - " + c.phone
  {
    var d := ContactDisplayName(c.name);
    var tail := " - " + c.phone;
    assert (d + tail)[..|d|] == d && (d + tail)[|d|..] == tail;
    d + tail
  }
}
