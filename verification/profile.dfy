/** The profile screen (components/Profile.tsx): editing the active profile's
    fields and emergency contacts, adding a family member from a draft, the
    emergency QR payload and the theme switch. */
module Profile {
  import opened Types
  import opened JsStrings
  import opened ProfileTree

  /** The two fields of an emergency contact an input row edits. */
  datatype ContactField = NameField | PhoneField

  /** The contact list with one field of the contact at `index` replaced. The
      rows are drawn from the list, so the index is always one of its own. */
  function EditContact(cs: seq<EmergencyContact>, index: nat, field: ContactField, value: string): (r: seq<EmergencyContact>)
    requires index < |cs|
    ensures |r| == |cs|
    ensures forall i :: 0 <= i < |cs| && i != index ==> r[i] == cs[i]
    ensures field == NameField ==> r[index].name == value && r[index].phone == cs[index].phone
    ensures field == PhoneField ==> r[index].phone == value && r[index].name == cs[index].name
  {
    cs[index := match field
                case NameField => cs[index].(name := value)
                case PhoneField => cs[index].(phone := value)]
  }

  const BlankContact := EmergencyContact("", "")

  /** "Add Contact": one blank contact after the existing ones. */
  function WithBlankContact(cs: seq<EmergencyContact>): (r: seq<EmergencyContact>)
    ensures AppendedLast(cs, r, BlankContact)
  {
    cs + [BlankContact]
  }

  predicate IsComplete(c: EmergencyContact)
  {
    c.name != "" && c.phone != ""
  }

  /** The contacts kept for a new member: those whose name and phone are both
      non-empty, in their order. */
  function CompleteContacts(cs: seq<EmergencyContact>): (r: seq<EmergencyContact>)
    ensures |r| <= |cs|
    ensures forall i :: 0 <= i < |r| ==> IsComplete(r[i]) && r[i] in cs
    ensures forall i :: 0 <= i < |cs| && IsComplete(cs[i]) ==> cs[i] in r
  {
    if cs == [] then []
    else if IsComplete(cs[0]) then [cs[0]] + CompleteContacts(cs[1..])
    else CompleteContacts(cs[1..])
  }

  /** The filter works entry by entry, so it keeps the order: filtering a
      list made of two parts is filtering each part. */
  lemma {:induction false} CompleteContactsAppend(a: seq<EmergencyContact>, b: seq<EmergencyContact>)
    ensures CompleteContacts(a + b) == CompleteContacts(a) + CompleteContacts(b)
  {
    if a != [] {
      assert (a + b)[1..] == a[1..] + b;
      CompleteContactsAppend(a[1..], b);
    } else {
      assert a + b == b;
    }
  }

  /** A list of complete contacts is kept whole, so filtering twice is
      filtering once. */
  lemma {:induction false} CompleteContactsIdempotent(cs: seq<EmergencyContact>)
    ensures CompleteContacts(CompleteContacts(cs)) == CompleteContacts(cs)
  {
    if cs != [] {
      CompleteContactsIdempotent(cs[1..]);
      if IsComplete(cs[0]) {
        var r := [cs[0]] + CompleteContacts(cs[1..]);
        assert r[1..] == CompleteContacts(cs[1..]);
      }
    }
  }

  /** The add-member form: the profile fields a new member starts from. */
  datatype MemberDraft = MemberDraft(
    name: string, relationship: Relationship, dob: string, bloodType: string,
    emergencyContacts: seq<EmergencyContact>)

  /** `newMemberDefault`: empty fields, relationship Child, one blank contact. */
  const DefaultMemberDraft := MemberDraft("", Child, "", "", [BlankContact])

  /** `handleAddMember`'s guard: a name and a date of birth are both given
      (non-empty; whitespace counts as given). */
  predicate CanAdd(d: MemberDraft)
  {
    d.name != "" && d.dob != ""
  }

  /** The member built from a draft: id `fm_<stamp>`, the draft's name,
      relationship, date of birth and blood type, only its complete
      contacts, and no entries. */
  function MemberFrom(d: MemberDraft, stamp: string): (m: FamilyMember)
    ensures "fm_" <= m.profile.id
    ensures m.profile.name == d.name && m.profile.dob == d.dob && m.profile.bloodType == d.bloodType
    ensures m.relationship == d.relationship
    ensures m.profile.emergencyContacts == CompleteContacts(d.emergencyContacts)
    ensures HasNoEntries(m.profile)
  {
    FamilyMember(
      HealthProfile("fm_" + stamp, d.name, d.dob, d.bloodType, CompleteContacts(d.emergencyContacts), [], [], [], [], []),
      d.relationship)
  }

  /** The new member goes last; the user's own fields and the other members
      are kept. */
  function WithMember(u: UserProfile, m: FamilyMember): (v: UserProfile)
    ensures v.profile == u.profile && v.email == u.email
    ensures AppendedLast(u.familyMembers, v.familyMembers, m)
  {
    u.(familyMembers := u.familyMembers + [m])
  }

  /** `find` over a list with one more member at the end: the old answer when
      there was one, otherwise the new member if it matches. */
  lemma {:induction false} FirstMatchAppend(ms: seq<FamilyMember>, m: FamilyMember, sel: Selector)
    ensures FirstMatch(ms + [m], sel) == (if FirstMatch(ms, sel) < |ms| then FirstMatch(ms, sel)
                                          else if Matches(m, sel) then |ms| else |ms| + 1)
  {
    if ms != [] {
      assert (ms + [m])[1..] == ms[1..] + [m];
      FirstMatchAppend(ms[1..], m, sel);
    }
  }

  /** A member added with an id no profile of the tree carries can be
      selected: its id resolves to exactly the new member's profile, and
      every other selector resolves as it did before. */
  lemma AddedMemberResolves(u: UserProfile, m: FamilyMember, sel: Selector)
    requires Resolve(u, Some(m.profile.id)) == None
    ensures Resolve(WithMember(u, m), Some(m.profile.id)) == Some(m.profile)
    ensures sel != Some(m.profile.id) ==> Resolve(WithMember(u, m), sel) == Resolve(u, sel)
  {
    FirstMatchAppend(u.familyMembers, m, Some(m.profile.id));
    FirstMatchAppend(u.familyMembers, m, sel);
  }

  /** `handleContactChange`: the active profile's contacts with one field
      edited, written back through the active-profile mutator. */
  function ContactChange(u: UserProfile, active: HealthProfile, index: nat, field: ContactField, value: string): (v: UserProfile)
    requires index < |active.emergencyContacts|
    ensures v.email == u.email && |v.familyMembers| == |u.familyMembers|
    ensures active.id == u.profile.id ==>
      && v.familyMembers == u.familyMembers
      && SameExcept(u.profile, v.profile, ContactsPart)
      && v.profile.emergencyContacts == EditContact(active.emergencyContacts, index, field, value)
    ensures active.id != u.profile.id ==> v.profile == u.profile
  {
    UpdateActive(u, active.id, SetContacts(EditContact(active.emergencyContacts, index, field, value)))
  }

  /** Reading back a contact edit: the active profile keeps every part but
      its contacts, which keep their number and differ only at `index`. */
  lemma ContactChangeReadBack(u: UserProfile, p: HealthProfile, index: nat, field: ContactField, value: string)
    requires Resolve(u, Some(p.id)) == Some(p)
    requires index < |p.emergencyContacts|
    ensures
      var r := Resolve(ContactChange(u, p, index, field, value), Some(p.id));
      && r.Some?
      && SameExcept(p, r.value, ContactsPart)
      && r.value.emergencyContacts == EditContact(p.emergencyContacts, index, field, value)
      && |r.value.emergencyContacts| == |p.emergencyContacts|
  {
    ResolveAfterUpdate(u, p.id, SetContacts(EditContact(p.emergencyContacts, index, field, value)), p);
  }

  /** `handleProfileChange` for a scalar field with the user's own profile
      active: that field of the root changes and nothing else, the family
      list included. */
  lemma RootFieldChange(u: UserProfile, f: Update)
    requires f.SetName? || f.SetDob? || f.SetBloodType? || f.SetContacts?
    ensures
      var v := UpdateActive(u, u.profile.id, f);
      && v.familyMembers == u.familyMembers && v.email == u.email
      && v.profile == Apply(u.profile, f)
      && SameExcept(u.profile, v.profile, PartOf(f))
  {
  }

  /** `handleProfileChange` with a family member active: the root's own
      fields stay, the list keeps its length and order, members with another
      id stay as they are, and each member with the active id keeps its
      relationship and has only the written field changed. */
  lemma MemberFieldChange(u: UserProfile, activeId: string, f: Update)
    requires activeId != u.profile.id
    requires f.SetName? || f.SetDob? || f.SetBloodType? || f.SetContacts?
    ensures
      var v := UpdateActive(u, activeId, f);
      && v.profile == u.profile && v.email == u.email
      && |v.familyMembers| == |u.familyMembers|
      && (forall i :: 0 <= i < |u.familyMembers| && u.familyMembers[i].profile.id != activeId ==>
            v.familyMembers[i] == u.familyMembers[i])
      && (forall i :: 0 <= i < |u.familyMembers| && u.familyMembers[i].profile.id == activeId ==>
            v.familyMembers[i] == u.familyMembers[i].(profile := Apply(u.familyMembers[i].profile, f))
            && SameExcept(u.familyMembers[i].profile, v.familyMembers[i].profile, PartOf(f)))
  {
  }

  /** The emergency QR payload's fields. */
  datatype QrPayload = QrPayload(name: string, dob: string, bloodType: string, allergies: string)

  function AllergyNames(als: seq<Allergy>): (ns: seq<string>)
    ensures |ns| == |als|
    ensures forall i :: 0 <= i < |als| ==> ns[i] == als[i].name
  {
    seq(|als|, i requires 0 <= i < |als| => als[i].name)
  }

  /** The allergy summary: the names joined by ", ", or "None". */
  function AllergySummary(als: seq<Allergy>): string
  {
    JoinOr(AllergyNames(als), ", ", "None")
  }

  /** The payload: the active profile's name, date of birth and blood type as
      they are, and its allergy summary. */
  function QrPayloadOf(p: HealthProfile): (q: QrPayload)
    ensures q.name == p.name && q.dob == p.dob && q.bloodType == p.bloodType
    ensures q.allergies == AllergySummary(p.allergies)
  {
    QrPayload(p.name, p.dob, p.bloodType, AllergySummary(p.allergies))
  }

  /** The summary reads "None" for no allergies, and the names themselves as
      soon as one of them is non-empty. */
  lemma AllergySummaryCases(als: seq<Allergy>)
    ensures als == [] ==> AllergySummary(als) == "None"
    ensures (exists i :: 0 <= i < |als| && als[i].name != "") ==>
      AllergySummary(als) == Join(AllergyNames(als), ", ")
  {
    JoinOrFallbackIff(AllergyNames(als), ", ", "None");
    if exists i :: 0 <= i < |als| && als[i].name != "" {
      var i :| 0 <= i < |als| && als[i].name != "";
      assert AllergyNames(als)[i] != "";
    }
  }

  /** Adding an allergy (the records screen's `AddAllergy` update) extends a
      non-empty summary by ", " and the new name. */
  lemma SummaryAfterAddedAllergy(p: HealthProfile, a: Allergy)
    requires exists i :: 0 <= i < |p.allergies| && p.allergies[i].name != ""
    ensures AllergySummary(Apply(p, AddAllergy(a)).allergies) == AllergySummary(p.allergies) + ", " + a.name
  {
    var als := Apply(p, AddAllergy(a)).allergies;
    assert als == p.allergies + [a];
    var i :| 0 <= i < |p.allergies| && p.allergies[i].name != "";
    assert als[i] == p.allergies[i];
    AllergySummaryCases(p.allergies);
    AllergySummaryCases(als);
    assert AllergyNames(als) == AllergyNames(p.allergies) + [a.name];
    JoinSnoc(AllergyNames(p.allergies), a.name, ", ");
  }

  /** The theme switch: light becomes dark and dark becomes light. */
  function ToggledTheme(t: Theme): (r: Theme)
    ensures r != t
  {
    if t == Light then Dark else Light
  }

  /** The screen's own state: the add-member modal and its draft. */
  class ProfileForm {
    var isModalOpen: bool
    var newMember: MemberDraft

    constructor ()
      ensures !isModalOpen && newMember == DefaultMemberDraft
    {
      isModalOpen := false;
      newMember := DefaultMemberDraft;
    }

    /** "Add Family Member" opens the modal over the current draft. */
    method OpenModal()
      modifies this`isModalOpen
      ensures isModalOpen
    {
      isModalOpen := true;
    }

    /** "Cancel" closes the modal and keeps the draft. */
    method CancelModal()
      modifies this`isModalOpen
      ensures !isModalOpen
    {
      isModalOpen := false;
    }

    /** The draft's name, date of birth, blood type and relationship inputs. */
    method EditDraft(name: string, dob: string, bloodType: string, relationship: Relationship)
      modifies this`newMember
      ensures newMember == old(newMember).(name := name, dob := dob, bloodType := bloodType, relationship := relationship)
    {
      newMember := newMember.(name := name, dob := dob, bloodType := bloodType, relationship := relationship);
    }

    /** `handleNewMemberContactChange`. */
    method NewMemberContactChange(index: nat, field: ContactField, value: string)
      requires index < |newMember.emergencyContacts|
      modifies this`newMember
      ensures newMember == old(newMember).(emergencyContacts := EditContact(old(newMember).emergencyContacts, index, field, value))
    {
      newMember := newMember.(emergencyContacts := EditContact(newMember.emergencyContacts, index, field, value));
    }

    /** `addNewMemberContactField`. */
    method AddNewMemberContactField()
      modifies this`newMember
      ensures newMember == old(newMember).(emergencyContacts := WithBlankContact(old(newMember).emergencyContacts))
    {
      newMember := newMember.(emergencyContacts := WithBlankContact(newMember.emergencyContacts));
    }

    /** `handleAddMember`: rejected, changing nothing, unless the draft has a
        name and a date of birth; otherwise the member built from the draft
        goes last in the family list, the draft is reset and the modal
        closes. */
    method AddMember(u: UserProfile, stamp: string) returns (added: bool, u': UserProfile)
      modifies this`newMember, this`isModalOpen
      ensures added == CanAdd(old(newMember))
      ensures !added ==> u' == u && newMember == old(newMember) && isModalOpen == old(isModalOpen)
      ensures added ==>
        u' == WithMember(u, MemberFrom(old(newMember), stamp)) && newMember == DefaultMemberDraft && !isModalOpen
    {
      if newMember.name == "" || newMember.dob == "" {
        return false, u;
      }
      u' := WithMember(u, MemberFrom(newMember, stamp));
      added := true;
      newMember := DefaultMemberDraft;
      isModalOpen := false;
    }
  }
}
