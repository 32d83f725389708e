/** The two rules of the profile tree: which profile a selector makes active
    (the `activeProfile` memo in App.tsx), and how an update to the active
    profile is written back into the root (`updateUserProfile` in the records
    and assistant screens, `handleProfileChange` in the profile screen, three
    copies of one rule). */
module ProfileTree {
  import opened Types

  /** `activeProfileId: string | null`. */
  type Selector = Option<string>

  predicate Matches(m: FamilyMember, sel: Selector)
  {
    sel == Some(m.profile.id)
  }

  /** Where `find` stops: the first member the selector matches, or `|ms|`. */
  function FirstMatch(ms: seq<FamilyMember>, sel: Selector): (k: nat)
    ensures k <= |ms|
    ensures forall j :: 0 <= j < k ==> !Matches(ms[j], sel)
    ensures k < |ms| ==> Matches(ms[k], sel)
  {
    if |ms| == 0 then 0
    else if Matches(ms[0], sel) then 0
    else 1 + FirstMatch(ms[1..], sel)
  }

  /** The active profile for a selector: the root's own fields (the root
      without `email` and `familyMembers`) when the selector is the root's id,
      otherwise the first member whose id equals the selector, if any. A `null`
      selector equals no id, so it resolves to nothing. */
  function Resolve(u: UserProfile, sel: Selector): (r: Option<HealthProfile>)
    ensures sel == Some(u.profile.id) ==> r == Some(u.profile)
    ensures r.None? <==>
      sel != Some(u.profile.id) && forall j :: 0 <= j < |u.familyMembers| ==> !Matches(u.familyMembers[j], sel)
    ensures r.Some? ==> sel == Some(r.value.id)
    ensures sel == None ==> r == None
    ensures sel != Some(u.profile.id) && FirstMatch(u.familyMembers, sel) < |u.familyMembers| ==>
      r == Some(u.familyMembers[FirstMatch(u.familyMembers, sel)].profile)
  {
    if sel == Some(u.profile.id) then Some(u.profile)
    else
      var k := FirstMatch(u.familyMembers, sel);
      if k < |u.familyMembers| then Some(u.familyMembers[k].profile) else None
  }

  /** The updater closures the screens pass: each is a spread `{...p, x: v}`
      that replaces one scalar field or one collection, the collections being
      the old one with one entry added (appended, or prepended for the
      symptom history). */
  datatype Update =
    | SetName(name: string)
    | SetDob(dob: string)
    | SetBloodType(bloodType: string)
    | SetContacts(contacts: seq<EmergencyContact>)
    | AddRecord(record: HealthRecord)
    | AddAllergy(allergy: Allergy)
    | AddVaccination(vaccination: Vaccination)
    | AddReminder(reminder: MedicationReminder)
    | AddAnalysis(analysis: SymptomAnalysis)

  /** The field or collection of a profile an update writes. */
  datatype Part =
    | NamePart | DobPart | BloodTypePart | ContactsPart
    | RecordsPart | AllergiesPart | VaccinationsPart | RemindersPart | HistoryPart

  function PartOf(f: Update): Part
  {
    match f
    case SetName(_) => NamePart
    case SetDob(_) => DobPart
    case SetBloodType(_) => BloodTypePart
    case SetContacts(_) => ContactsPart
    case AddRecord(_) => RecordsPart
    case AddAllergy(_) => AllergiesPart
    case AddVaccination(_) => VaccinationsPart
    case AddReminder(_) => RemindersPart
    case AddAnalysis(_) => HistoryPart
  }

  /** `q` agrees with `p` on the id and on every part other than `part`. */
  predicate SameExcept(p: HealthProfile, q: HealthProfile, part: Part)
  {
    && q.id == p.id
    && (part != NamePart ==> q.name == p.name)
    && (part != DobPart ==> q.dob == p.dob)
    && (part != BloodTypePart ==> q.bloodType == p.bloodType)
    && (part != ContactsPart ==> q.emergencyContacts == p.emergencyContacts)
    && (part != RecordsPart ==> q.healthRecords == p.healthRecords)
    && (part != AllergiesPart ==> q.allergies == p.allergies)
    && (part != VaccinationsPart ==> q.vaccinations == p.vaccinations)
    && (part != RemindersPart ==> q.medicationReminders == p.medicationReminders)
    && (part != HistoryPart ==> q.symptomHistory == p.symptomHistory)
  }

  /** Running an updater on one profile. It never writes the id, and it
      writes only the part it names. */
  function Apply(p: HealthProfile, f: Update): (q: HealthProfile)
    ensures q.id == p.id
    ensures SameExcept(p, q, PartOf(f))
    ensures f.SetName? ==> q.name == f.name
    ensures f.SetDob? ==> q.dob == f.dob
    ensures f.SetBloodType? ==> q.bloodType == f.bloodType
    ensures f.SetContacts? ==> q.emergencyContacts == f.contacts
  {
    match f
    case SetName(v) => p.(name := v)
    case SetDob(v) => p.(dob := v)
    case SetBloodType(v) => p.(bloodType := v)
    case SetContacts(cs) => p.(emergencyContacts := cs)
    case AddRecord(r) => p.(healthRecords := p.healthRecords + [r])
    case AddAllergy(a) => p.(allergies := p.allergies + [a])
    case AddVaccination(v) => p.(vaccinations := p.vaccinations + [v])
    case AddReminder(m) => p.(medicationReminders := p.medicationReminders + [m])
    case AddAnalysis(s) => p.(symptomHistory := [s] + p.symptomHistory)
  }

  /** `s` is `before` with `x` added at the end, the earlier entries unchanged
      and in order. */
  predicate AppendedLast<T(==)>(before: seq<T>, s: seq<T>, x: T)
  {
    |s| == |before| + 1 && s[..|before|] == before && s[|before|] == x
  }

  /** `s` is `before` with `x` put in front, the earlier entries unchanged and
      in order. */
  predicate PrependedFirst<T(==)>(before: seq<T>, s: seq<T>, x: T)
  {
    |s| == |before| + 1 && s[0] == x && s[1..] == before
  }

  /** What an adding update does to its collection: records, allergies,
      vaccinations and reminders grow by one entry at the end, the symptom
      history by one entry at the front. */
  lemma AddedEntryPlacement(p: HealthProfile, f: Update)
    ensures f.AddRecord? ==> AppendedLast(p.healthRecords, Apply(p, f).healthRecords, f.record)
    ensures f.AddAllergy? ==> AppendedLast(p.allergies, Apply(p, f).allergies, f.allergy)
    ensures f.AddVaccination? ==> AppendedLast(p.vaccinations, Apply(p, f).vaccinations, f.vaccination)
    ensures f.AddReminder? ==> AppendedLast(p.medicationReminders, Apply(p, f).medicationReminders, f.reminder)
    ensures f.AddAnalysis? ==> PrependedFirst(p.symptomHistory, Apply(p, f).symptomHistory, f.analysis)
  {
    match f
    case AddRecord(r) => assert (p.healthRecords + [r])[..|p.healthRecords|] == p.healthRecords;
    case AddAllergy(a) => assert (p.allergies + [a])[..|p.allergies|] == p.allergies;
    case AddVaccination(v) => assert (p.vaccinations + [v])[..|p.vaccinations|] == p.vaccinations;
    case AddReminder(m) => assert (p.medicationReminders + [m])[..|p.medicationReminders|] == p.medicationReminders;
    case _ =>
  }

  /** The member branch: `familyMembers.map(m => m.id === id ? updateFn(m) : m)`.
      Length, order, ids and relationships are kept; only the members with
      the active id change, and those by the updater. */
  function UpdateMembers(ms: seq<FamilyMember>, id: string, f: Update): (r: seq<FamilyMember>)
    ensures |r| == |ms|
    ensures forall i :: 0 <= i < |ms| ==>
      r[i].profile.id == ms[i].profile.id && r[i].relationship == ms[i].relationship
    ensures forall i :: 0 <= i < |ms| && ms[i].profile.id != id ==> r[i] == ms[i]
    ensures forall i :: 0 <= i < |ms| && ms[i].profile.id == id ==> r[i].profile == Apply(ms[i].profile, f)
  {
    seq(|ms|, i requires 0 <= i < |ms| =>
      if ms[i].profile.id == id then ms[i].(profile := Apply(ms[i].profile, f)) else ms[i])
  }

  /** The active-profile mutator. With the root active the updater runs on the
      root, whose `email` and `familyMembers` it leaves alone; with a member
      active every member carrying that id is updated in place in the list
      and the root's own fields are untouched. */
  function UpdateActive(u: UserProfile, activeId: string, f: Update): (v: UserProfile)
    ensures v.email == u.email
    ensures v.profile.id == u.profile.id
    ensures |v.familyMembers| == |u.familyMembers|
    ensures forall i :: 0 <= i < |u.familyMembers| ==>
      v.familyMembers[i].profile.id == u.familyMembers[i].profile.id
      && v.familyMembers[i].relationship == u.familyMembers[i].relationship
    ensures activeId == u.profile.id ==>
      v.familyMembers == u.familyMembers && v.profile == Apply(u.profile, f)
    ensures activeId != u.profile.id ==> v.profile == u.profile
    ensures forall i :: 0 <= i < |u.familyMembers| && u.familyMembers[i].profile.id != activeId ==>
      v.familyMembers[i] == u.familyMembers[i]
    ensures activeId != u.profile.id ==> forall i :: 0 <= i < |u.familyMembers| && u.familyMembers[i].profile.id == activeId ==>
      v.familyMembers[i].profile == Apply(u.familyMembers[i].profile, f)
  {
    if activeId == u.profile.id then u.(profile := Apply(u.profile, f))
    else u.(familyMembers := UpdateMembers(u.familyMembers, activeId, f))
  }

  /** `find` gives the same answer on two lists with the same ids in the same
      order. */
  lemma {:induction false} FirstMatchSameIds(ms: seq<FamilyMember>, ns: seq<FamilyMember>, sel: Selector)
    requires |ms| == |ns|
    requires forall i :: 0 <= i < |ms| ==> ms[i].profile.id == ns[i].profile.id
    ensures FirstMatch(ms, sel) == FirstMatch(ns, sel)
  {
    if |ms| > 0 && !Matches(ms[0], sel) {
      FirstMatchSameIds(ms[1..], ns[1..], sel);
    }
  }

  /** Reading back an update: the profile the active id resolves to afterwards
      is the updater applied to the profile it resolved to before. */
  lemma ResolveAfterUpdate(u: UserProfile, id: string, f: Update, p: HealthProfile)
    requires Resolve(u, Some(id)) == Some(p)
    ensures Resolve(UpdateActive(u, id, f), Some(id)) == Some(Apply(p, f))
  {
    var v := UpdateActive(u, id, f);
    FirstMatchSameIds(u.familyMembers, v.familyMembers, Some(id));
  }

  /** An update is invisible through every other selector. */
  lemma ResolveOthersUnchanged(u: UserProfile, id: string, f: Update, sel: Selector)
    requires sel != Some(id)
    ensures Resolve(UpdateActive(u, id, f), sel) == Resolve(u, sel)
  {
    var v := UpdateActive(u, id, f);
    FirstMatchSameIds(u.familyMembers, v.familyMembers, sel);
  }

  /** An id that is neither the root's nor any member's makes the update a
      silent no-op. */
  lemma UnmatchedUpdateIsNoOp(u: UserProfile, id: string, f: Update)
    requires Resolve(u, Some(id)) == None
    ensures UpdateActive(u, id, f) == u
  {
    var v := UpdateActive(u, id, f);
    forall i | 0 <= i < |u.familyMembers|
      ensures v.familyMembers[i] == u.familyMembers[i]
    {
      assert !Matches(u.familyMembers[i], Some(id));
    }
    assert v.familyMembers == u.familyMembers;
  }
}
