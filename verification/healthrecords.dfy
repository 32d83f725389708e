/** The records screen (components/HealthRecords.tsx): the add-entry modals,
    their drafts and the save rule that appends an entry to the active
    profile. */
module HealthRecords {
  import opened Types
  import opened ProfileTree

  /** `ModalType`: which add-entry modal is open, if any. */
  datatype Modal = NoModal | RecordModal | ReminderModal | AllergyModal | VaccinationModal

  /** The drafts: an entry without its id (and, for a record, without its
      image, which is held apart). */
  datatype ReminderDraft = ReminderDraft(name: string, dosage: string, frequency: Frequency, times: seq<string>)
  datatype RecordDraft = RecordDraft(kind: HealthRecordType, name: string, date: string, details: string)
  datatype AllergyDraft = AllergyDraft(name: string, severity: Severity, reaction: string)
  datatype VaccinationDraft = VaccinationDraft(name: string, date: string, dose: string, batchNumber: string)

  const DefaultReminder := ReminderDraft("", "", Daily, ["09:00"])
  const DefaultRecord := RecordDraft(LabReport, "", "", "")
  const DefaultAllergy := AllergyDraft("", Mild, "")
  const DefaultVaccination := VaccinationDraft("", "", "", "")

  /** `handleFrequencyChange`'s switch on the selected value: one slot at
      09:00, two at 09:00 and 21:00 for "twice_daily", none for "as_needed",
      and one slot at 09:00 for any value it does not know. */
  function DefaultTimes(frequency: string): (times: seq<string>)
    ensures times == [] <==> frequency == "as_needed"
    ensures |times| == 2 <==> frequency == "twice_daily"
    ensures |times| <= 2
    ensures times != [] ==> times[0] == "09:00"
    ensures |times| == 2 ==> times[1] == "21:00"
  {
    match frequency
    case "daily" => ["09:00"]
    case "twice_daily" => ["09:00", "21:00"]
    case "as_needed" => []
    case _ => ["09:00"]
  }

  /** The default reminder draft already has the slots its frequency gives,
      and a value outside the union gets the daily slots. */
  lemma DefaultTimesAgree(s: string)
    ensures DefaultReminder.times == DefaultTimes(FrequencyName(DefaultReminder.frequency))
    ensures ParseFrequency(s).None? ==> DefaultTimes(s) == DefaultTimes(FrequencyName(Daily))
  {
  }

  /** `handleSave`'s guards: the fields each modal requires are not "" (no
      trimming, so a blank value passes). There is nothing to save without
      a modal. */
  predicate Complete(kind: Modal, reminder: ReminderDraft, record: RecordDraft,
                     allergy: AllergyDraft, vaccination: VaccinationDraft)
  {
    match kind
    case NoModal => false
    case ReminderModal => reminder.name != "" && reminder.dosage != ""
    case RecordModal => record.name != "" && record.date != ""
    case AllergyModal => allergy.name != "" && allergy.reaction != ""
    case VaccinationModal => vaccination.name != "" && vaccination.date != ""
  }

  /** The collection each modal adds to. */
  function PartFor(kind: Modal): Part
    requires kind != NoModal
  {
    match kind
    case ReminderModal => RemindersPart
    case RecordModal => RecordsPart
    case AllergyModal => AllergiesPart
    case VaccinationModal => VaccinationsPart
  }

  /** The updater `handleSave` passes for a modal: the draft made an entry,
      with an id `med_`, `rec_`, `alg_` or `vac_` followed by the stamp; a
      record also gets the attached image and a vaccination always carries
      its batch number, "" when none was typed. */
  function EntryFor(kind: Modal, reminder: ReminderDraft, record: RecordDraft, image: Option<string>,
                    allergy: AllergyDraft, vaccination: VaccinationDraft, stamp: string): (f: Update)
    requires kind != NoModal
    ensures PartOf(f) == PartFor(kind)
    ensures f.AddReminder? ==>
      "med_" <= f.reminder.id && f.reminder.name == reminder.name && f.reminder.dosage == reminder.dosage
      && f.reminder.frequency == reminder.frequency && f.reminder.times == reminder.times
    ensures f.AddRecord? ==>
      "rec_" <= f.record.id && f.record.kind == record.kind && f.record.name == record.name
      && f.record.date == record.date && f.record.details == record.details
      && f.record.fileUrl == None && f.record.imageUrl == image
    ensures f.AddAllergy? ==>
      "alg_" <= f.allergy.id && f.allergy.name == allergy.name && f.allergy.severity == allergy.severity
      && f.allergy.reaction == allergy.reaction
    ensures f.AddVaccination? ==>
      "vac_" <= f.vaccination.id && f.vaccination.name == vaccination.name
      && f.vaccination.date == vaccination.date && f.vaccination.dose == vaccination.dose
      && f.vaccination.batchNumber == Some(vaccination.batchNumber)
  {
    match kind
    case ReminderModal =>
      AddReminder(MedicationReminder("med_" + stamp, reminder.name, reminder.dosage, reminder.frequency, reminder.times))
    case RecordModal =>
      AddRecord(HealthRecord("rec_" + stamp, record.kind, record.name, record.date, record.details, None, image))
    case AllergyModal =>
      AddAllergy(Allergy("alg_" + stamp, allergy.name, allergy.severity, allergy.reaction))
    case VaccinationModal =>
      AddVaccination(Vaccination("vac_" + stamp, vaccination.name, vaccination.date, vaccination.dose, Some(vaccination.batchNumber)))
  }

  /** What a save does to the active profile: read back through its id, the
      profile has exactly the target collection grown by the new entry at the
      end, its earlier entries unchanged and in order, and every other field
      as it was. */
  lemma SaveAppendsToActiveProfile(u: UserProfile, activeId: string, p: HealthProfile, kind: Modal,
                                   reminder: ReminderDraft, record: RecordDraft, image: Option<string>,
                                   allergy: AllergyDraft, vaccination: VaccinationDraft, stamp: string)
    requires Resolve(u, Some(activeId)) == Some(p)
    requires kind != NoModal
    ensures
      var f := EntryFor(kind, reminder, record, image, allergy, vaccination, stamp);
      var q := Apply(p, f);
      && Resolve(UpdateActive(u, activeId, f), Some(activeId)) == Some(q)
      && SameExcept(p, q, PartFor(kind))
      && (kind == ReminderModal ==> AppendedLast(p.medicationReminders, q.medicationReminders, f.reminder))
      && (kind == RecordModal ==> AppendedLast(p.healthRecords, q.healthRecords, f.record))
      && (kind == AllergyModal ==> AppendedLast(p.allergies, q.allergies, f.allergy))
      && (kind == VaccinationModal ==> AppendedLast(p.vaccinations, q.vaccinations, f.vaccination))
  {
    var f := EntryFor(kind, reminder, record, image, allergy, vaccination, stamp);
    ResolveAfterUpdate(u, activeId, f, p);
    AddedEntryPlacement(p, f);
  }

  /** The screen's own state. */
  class RecordsForm {
    var openModal: Modal
    var newReminder: ReminderDraft
    var newRecord: RecordDraft
    var newRecordImage: Option<string>
    var newAllergy: AllergyDraft
    var newVaccination: VaccinationDraft
    var selectedRecord: Option<HealthRecord>
    var explanation: string
    var isLoading: bool

    constructor ()
      ensures openModal == NoModal && newRecordImage == None
      ensures newReminder == DefaultReminder && newRecord == DefaultRecord
      ensures newAllergy == DefaultAllergy && newVaccination == DefaultVaccination
      ensures selectedRecord == None && explanation == "" && !isLoading
    {
      openModal := NoModal;
      newReminder := DefaultReminder;
      newRecord := DefaultRecord;
      newRecordImage := None;
      newAllergy := DefaultAllergy;
      newVaccination := DefaultVaccination;
      selectedRecord := None;
      explanation := "";
      isLoading := false;
    }

    /** An "Add ..." button opens its modal. */
    method OpenModal(kind: Modal)
      modifies this`openModal
      ensures openModal == kind
    {
      openModal := kind;
    }

    /** `closeModal` (Cancel): closes the modal and drops the attached image;
        the drafts are kept. */
    method CloseModal()
      modifies this`openModal, this`newRecordImage
      ensures openModal == NoModal && newRecordImage == None
    {
      openModal := NoModal;
      newRecordImage := None;
    }

    /** The file input's result (`handleFileChange`), or `null` from the
        image's remove button. */
    method SetRecordImage(image: Option<string>)
      modifies this`newRecordImage
      ensures newRecordImage == image
    {
      newRecordImage := image;
    }

    /** The modal inputs' `onChange` handlers, each replacing its draft. */
    method EditReminder(d: ReminderDraft)
      modifies this`newReminder
      ensures newReminder == d
    {
      newReminder := d;
    }

    method EditRecord(d: RecordDraft)
      modifies this`newRecord
      ensures newRecord == d
    {
      newRecord := d;
    }

    method EditAllergy(d: AllergyDraft)
      modifies this`newAllergy
      ensures newAllergy == d
    {
      newAllergy := d;
    }

    method EditVaccination(d: VaccinationDraft)
      modifies this`newVaccination
      ensures newVaccination == d
    {
      newVaccination := d;
    }

    /** `handleFrequencyChange`: the new frequency and its default slots. */
    method FrequencyChange(f: Frequency)
      modifies this`newReminder
      ensures newReminder.name == old(newReminder.name) && newReminder.dosage == old(newReminder.dosage)
      ensures newReminder.frequency == f
      ensures newReminder.times == DefaultTimes(FrequencyName(f))
    {
      newReminder := newReminder.(frequency := f, times := DefaultTimes(FrequencyName(f)));
    }

    /** `handleTimeChange`: replaces the slot at `index` (one of the slots the
        modal lists) and no other. */
    method TimeChange(index: nat, value: string)
      requires index < |newReminder.times|
      modifies this`newReminder
      ensures |newReminder.times| == |old(newReminder.times)|
      ensures newReminder.times[index] == value
      ensures forall j :: 0 <= j < |newReminder.times| && j != index ==>
        newReminder.times[j] == old(newReminder.times)[j]
      ensures newReminder.(times := []) == old(newReminder).(times := [])
    {
      newReminder := newReminder.(times := newReminder.times[index := value]);
    }

    /** `handleSave`. A draft missing a required field returns early: nothing
        is written, every draft is kept and the modal stays open. Otherwise
        the updater adds the entry to the active profile (the new root is
        returned, as `setUser` receives it), that modal's draft is reset, a
        record's image is dropped, and the modal closes. Without a modal the
        call only closes it. */
    method Save(kind: Modal, user: UserProfile, activeId: string, stamp: string)
      returns (saved: bool, user': UserProfile)
      modifies this`openModal, this`newReminder, this`newRecord, this`newRecordImage,
               this`newAllergy, this`newVaccination
      ensures saved == Complete(kind, old(newReminder), old(newRecord), old(newAllergy), old(newVaccination))
      ensures saved ==> user' == UpdateActive(user, activeId,
        EntryFor(kind, old(newReminder), old(newRecord), old(newRecordImage), old(newAllergy), old(newVaccination), stamp))
      ensures !saved ==> user' == user
      ensures openModal == (if !saved && kind != NoModal then old(openModal) else NoModal)
      ensures newReminder == (if saved && kind == ReminderModal then DefaultReminder else old(newReminder))
      ensures newRecord == (if saved && kind == RecordModal then DefaultRecord else old(newRecord))
      ensures newRecordImage == (if saved && kind == RecordModal then None else old(newRecordImage))
      ensures newAllergy == (if saved && kind == AllergyModal then DefaultAllergy else old(newAllergy))
      ensures newVaccination == (if saved && kind == VaccinationModal then DefaultVaccination else old(newVaccination))
    {
      user' := user;
      saved := Complete(kind, newReminder, newRecord, newAllergy, newVaccination);
      if kind != NoModal {
        if !saved {
          return;
        }
        var f := EntryFor(kind, newReminder, newRecord, newRecordImage, newAllergy, newVaccination, stamp);
        user' := UpdateActive(user, activeId, f);
        match kind
        case ReminderModal => newReminder := DefaultReminder;
        case RecordModal => newRecord := DefaultRecord; newRecordImage := None;
        case AllergyModal => newAllergy := DefaultAllergy;
        case VaccinationModal => newVaccination := DefaultVaccination;
      }
      openModal := NoModal;
    }

    /** `handleExplain`, with the assistant's reply as a parameter: the record
        is selected and the reply becomes the explanation. */
    method Explain(record: HealthRecord, reply: string)
      modifies this`selectedRecord, this`explanation, this`isLoading
      ensures selectedRecord == Some(record) && explanation == reply && !isLoading
    {
      selectedRecord := Some(record);
      explanation := "";
      isLoading := true;
      explanation := reply;
      isLoading := false;
    }
  }
}
