/** The entities of the health record: one root user profile, its family
    members, and the entry lists every profile owns. The TypeScript interfaces'
    `extends` becomes composition: a `FamilyMember` and a `UserProfile` each carry a
    `HealthProfile`. The string unions become datatypes, and each comes with
    the literal it stands for and a parser that inverts it. */
module Types {

  /** `T | null` and optional (`?:`) fields. */
  datatype Option<+T> = None | Some(value: T)

  /** `frequency: 'daily' | 'twice_daily' | 'as_needed'`. */
  datatype Frequency = Daily | TwiceDaily | AsNeeded

  function FrequencyName(f: Frequency): (s: string)
    ensures ParseFrequency(s) == Some(f)
  {
    match f
    case Daily => "daily"
    case TwiceDaily => "twice_daily"
    case AsNeeded => "as_needed"
  }

  function ParseFrequency(s: string): (r: Option<Frequency>)
  {
    if s == "daily" then Some(Daily)
    else if s == "twice_daily" then Some(TwiceDaily)
    else if s == "as_needed" then Some(AsNeeded)
    else None
  }

  datatype MedicationReminder = MedicationReminder(
    id: string, name: string, dosage: string, frequency: Frequency, times: seq<string>)

  datatype EmergencyContact = EmergencyContact(name: string, phone: string)

  /** `HealthRecordType = 'Lab Report' | 'Prescription' | "Doctor's Note" | 'Other'`. */
  datatype HealthRecordType = LabReport | Prescription | DoctorsNote | OtherRecord

  function RecordTypeName(t: HealthRecordType): (s: string)
    ensures ParseRecordType(s) == Some(t)
  {
    match t
    case LabReport => "Lab Report"
    case Prescription => "Prescription"
    case DoctorsNote => "Doctor's Note"
    case OtherRecord => "Other"
  }

  function ParseRecordType(s: string): (r: Option<HealthRecordType>)
  {
    if s == "Lab Report" then Some(LabReport)
    else if s == "Prescription" then Some(Prescription)
    else if s == "Doctor's Note" then Some(DoctorsNote)
    else if s == "Other" then Some(OtherRecord)
    else None
  }

  /** `fileUrl` and `imageUrl` are the optional fields of a record. */
  datatype HealthRecord = HealthRecord(
    id: string, kind: HealthRecordType, name: string, date: string, details: string,
    fileUrl: Option<string>, imageUrl: Option<string>)

  /** `severity: 'Mild' | 'Moderate' | 'High' | 'Severe'`. */
  datatype Severity = Mild | Moderate | High | Severe

  function SeverityName(v: Severity): (s: string)
    ensures ParseSeverity(s) == Some(v)
    ensures s != ""
  {
    match v
    case Mild => "Mild"
    case Moderate => "Moderate"
    case High => "High"
    case Severe => "Severe"
  }

  function ParseSeverity(s: string): (r: Option<Severity>)
  {
    if s == "Mild" then Some(Mild)
    else if s == "Moderate" then Some(Moderate)
    else if s == "High" then Some(High)
    else if s == "Severe" then Some(Severe)
    else None
  }

  datatype Allergy = Allergy(id: string, name: string, severity: Severity, reaction: string)

  /** `batchNumber` is the optional field of a vaccination. */
  datatype Vaccination = Vaccination(
    id: string, name: string, date: string, dose: string, batchNumber: Option<string>)

  datatype SymptomAnalysis = SymptomAnalysis(
    id: string, date: string, symptoms: string, imageAttached: bool, result: string)

  /** The fields every profile has, root or family member. */
  datatype HealthProfile = HealthProfile(
    id: string,
    name: string,
    dob: string,
    bloodType: string,
    emergencyContacts: seq<EmergencyContact>,
    healthRecords: seq<HealthRecord>,
    allergies: seq<Allergy>,
    vaccinations: seq<Vaccination>,
    medicationReminders: seq<MedicationReminder>,
    symptomHistory: seq<SymptomAnalysis>)

  /** `relationship: 'Spouse' | 'Child' | 'Parent' | 'Other'`. */
  datatype Relationship = Spouse | Child | Parent | OtherRelation

  function RelationshipName(r: Relationship): (s: string)
    ensures ParseRelationship(s) == Some(r)
  {
    match r
    case Spouse => "Spouse"
    case Child => "Child"
    case Parent => "Parent"
    case OtherRelation => "Other"
  }

  function ParseRelationship(s: string): (r: Option<Relationship>)
  {
    if s == "Spouse" then Some(Spouse)
    else if s == "Child" then Some(Child)
    else if s == "Parent" then Some(Parent)
    else if s == "Other" then Some(OtherRelation)
    else None
  }

  /** A family member: a health profile plus its relationship to the user. */
  datatype FamilyMember = FamilyMember(profile: HealthProfile, relationship: Relationship)

  /** The account holder, root of the profile tree: a health profile plus the
      email and the ordered list of family members. */
  datatype UserProfile = UserProfile(
    profile: HealthProfile, email: string, familyMembers: seq<FamilyMember>)

  /** `enum Screen`, with the string each member carries. */
  datatype Screen = DashboardScreen | RecordsScreen | HealocAIScreen | QRCodeScreen | ProfileScreen

  function ScreenTag(s: Screen): (tag: string)
    ensures ParseScreen(tag) == Some(s)
  {
    match s
    case DashboardScreen => "DASHBOARD"
    case RecordsScreen => "RECORDS"
    case HealocAIScreen => "HEALOC_AI"
    case QRCodeScreen => "QR_CODE"
    case ProfileScreen => "PROFILE"
  }

  function ParseScreen(tag: string): (r: Option<Screen>)
  {
    if tag == "DASHBOARD" then Some(DashboardScreen)
    else if tag == "RECORDS" then Some(RecordsScreen)
    else if tag == "HEALOC_AI" then Some(HealocAIScreen)
    else if tag == "QR_CODE" then Some(QRCodeScreen)
    else if tag == "PROFILE" then Some(ProfileScreen)
    else None
  }

  /** `Theme = 'light' | 'dark'`. */
  datatype Theme = Light | Dark

  function ThemeName(t: Theme): (s: string)
    ensures ParseTheme(s) == Some(t)
  {
    match t
    case Light => "light"
    case Dark => "dark"
  }

  function ParseTheme(s: string): (r: Option<Theme>)
  {
    if s == "light" then Some(Light)
    else if s == "dark" then Some(Dark)
    else None
  }

  /** Every accepted literal is the literal of what it parses to, so each
      string union and its datatype are in one-to-one correspondence. */
  lemma LiteralsRoundTrip(s: string)
    ensures ParseFrequency(s).Some? ==> FrequencyName(ParseFrequency(s).value) == s
    ensures ParseRecordType(s).Some? ==> RecordTypeName(ParseRecordType(s).value) == s
    ensures ParseSeverity(s).Some? ==> SeverityName(ParseSeverity(s).value) == s
    ensures ParseRelationship(s).Some? ==> RelationshipName(ParseRelationship(s).value) == s
    ensures ParseScreen(s).Some? ==> ScreenTag(ParseScreen(s).value) == s
    ensures ParseTheme(s).Some? ==> ThemeName(ParseTheme(s).value) == s
  {
  }

  /** A profile with empty collections, as the code creates them. */
  predicate HasNoEntries(p: HealthProfile)
  {
    && p.healthRecords == [] && p.allergies == [] && p.vaccinations == []
    && p.medicationReminders == [] && p.symptomHistory == []
  }

}
