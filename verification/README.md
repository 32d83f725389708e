# Healoc profile tree, in Dafny

Healoc is a single-page "digital health passport". One signed-in user owns a
root profile. The root holds their own health data plus an email and an
ordered list of family members, and each family member carries a health
profile of its own. A selector (`activeProfileId`) picks the active profile.
Every screen reads the active profile and writes its changes back into the
root.

This project models that profile tree and the rules that read and update
it:

- which profile a selector makes active;
- how an update to the active profile is written back into the root;
- the entry-adding operations of the records, assistant and profile
  screens, with their guards;
- the small formatting and classification rules of the other screens:
  - emergency payloads and labels;
  - the SMS alert;
  - speech and geolocation error texts;
  - the daily-tip cache test;
  - the login guard.

Modules follow the source files:

| module | source file | contents |
|---|---|---|
| `Types` | `types.ts` | Entities as datatypes. `extends` becomes composition: `FamilyMember(profile, relationship)` and `UserProfile(profile, email, familyMembers)`. Each string union becomes a datatype with its name and parse functions. |
| `JsStrings` | (JavaScript built-ins) | The string built-ins the components use: `join`, `indexOf`, `substring`, `split(c)[0]` and `trim`. |
| `ProfileTree` | `App.tsx`, plus the three copies of `updateUserProfile` | The resolver, and the mutator with its updaters. |
| `App` | `App.tsx` | The session state, profile creation, and what the shell renders. |
| `Header` | `components/Header.tsx` | The profile switcher. |
| `HealthRecords` | `components/HealthRecords.tsx` | Add-entry modals and `handleSave`. |
| `HealocAI` | `components/HealocAI.tsx` | The streamed symptom check, voice input and the medicine scanner. |
| `Profile` | `components/Profile.tsx` | Profile field and contact edits, adding a family member, the QR payload. |
| `EmergencyCard` | `components/EmergencyCard.tsx` | The emergency card. |
| `EmergencyMode` | `components/EmergencyMode.tsx` | The emergency overlay. |
| `Dashboard` | `components/Dashboard.tsx` | The dashboard. |
| `LoginScreen` | `components/LoginScreen.tsx` | The login form. |

State that a component keeps in `useState` and changes through handlers
becomes a class: `Session`, `Dropdown`, `RecordsForm`, `Assistant`,
`ProfileForm`, `EmergencyScreen`, `TipCard` and `LoginForm`. The
handlers become its methods. The new root value that a handler gives to
`setUser` is returned as an out-parameter.

Values the program takes from outside become parameters:

- `Date.now()` becomes a `stamp` parameter.
- The current date becomes `now` or `today`.
- The AI service's replies become a reply stream or reply text.
- Browser outcomes become parameters: geolocation results, storage reads and failures, whether speech recognition exists, and the file chosen.

An update to a profile is not a closure. It is an `Update` value that
names the one field it replaces or the one collection it extends, as
each call site's spread does. This makes it provable that `email`,
`familyMembers` and the other parts survive an update.

The resolver keeps the source's behaviour for a `null` selector:

- The header stores `null` when the user picks themselves (`components/Header.tsx:18`).
- The resolver matches only the root's id (`App.tsx:61`), so `null` resolves to no profile.
- The shell then shows the user's own loading text (`App.tsx:76-77`). Nothing resets the selector.

`App.NullSelectorShowsLoading` states this.

The fallback's test is `!activeProfileId`, so the empty-string selector
takes the user's own loading text too (`App.OwnsFallback`).

## Model

| member | source | states |
|---|---|---|
| Types.FrequencyName | types.ts:5 | Each reminder frequency has its literal, which parses back to it. |
| Types.RecordTypeName | types.ts:14 | Each record kind has its literal, which parses back to it. |
| Types.SeverityName | types.ts:29 | Each severity has a non-empty literal, which parses back to it. |
| Types.RelationshipName | types.ts:65 | Each relationship has its literal, which parses back to it. |
| Types.ScreenTag | types.ts:75-81 | Each of the five screens has its enum value, which parses back to it. |
| Types.ThemeName | types.ts:83 | Light and dark have their literals, which parse back to them. |
| Types.LiteralsRoundTrip | types.ts:5-83 | Every literal a parser accepts is the name of what it parses to. So each union and its datatype correspond one to one. |
| JsStrings.JoinEmptyIff | components/EmergencyMode.tsx:56-57 | With a non-empty separator, a join is "" exactly when the list is empty or is one empty item. |
| JsStrings.JoinOrFallbackIff | components/Profile.tsx:102 | `join(sep) \|\| fallback` yields the fallback for an empty list. It yields the join once an item is non-empty or there are several items. |
| JsStrings.IndexOf | components/EmergencyCard.tsx:48 | The result is -1 exactly when the character is absent. Otherwise it is the character's first position. |
| JsStrings.Clamp | components/EmergencyCard.tsx:48 | A `substring` bound below 0 becomes 0, one past the end becomes the length, and one already in range is kept. |
| JsStrings.SubstringSwaps | components/EmergencyCard.tsx:48 | `substring` gives the same text with its bounds in either order. |
| JsStrings.BeforeFirst | components/EmergencyCard.tsx:48 | `split(c)[0]` is a prefix free of `c`. It ends just before the first `c`, or is the whole string when there is no `c`. |
| JsStrings.TrimEmptyIff | components/LoginScreen.tsx:13 | `trim()` gives "" exactly when the string is all ECMAScript whitespace. |
| ProfileTree.FirstMatch | App.tsx:65 | `find` stops at the first member whose id equals the selector, with no match before it. When none matches it stops at the list's end. |
| ProfileTree.Resolve | App.tsx:56-66 | The root's id resolves to the root's own fields. Any other selector resolves to the profile of the first member whose id it equals, with all that profile's fields. There is no result exactly when nothing matches, and a `null` selector never matches. A result always carries the selector's id. |
| ProfileTree.Apply | components/HealthRecords.tsx:90-106 | An updater keeps the id and every part of the profile except the one it names. A field update (`{ ...p, [field]: value }`, Profile.tsx:56-61) writes exactly its value: the name, date of birth, blood type or contact list becomes the given one. |
| ProfileTree.AddedEntryPlacement | components/HealocAI.tsx:80-83 | Records, allergies, vaccinations and reminders gain the new entry at the end, and the history gains it at the front. Earlier entries are kept in order. |
| ProfileTree.UpdateMembers | components/HealthRecords.tsx:47 | The member `map` keeps length, order, ids and relationships. It changes exactly the members with the active id, each by the updater. |
| ProfileTree.UpdateActive | components/HealthRecords.tsx:37-50 | Email, root id, member count, member ids and relationships always survive. With the root active, the root becomes the updater applied to it and the family list is untouched. With a member active, the root's fields are untouched, every member carrying the id becomes the updater applied to it, and other members stay as they are. |
| ProfileTree.FirstMatchSameIds | App.tsx:65 | `find` answers the same on two lists with the same ids in the same order. |
| ProfileTree.ResolveAfterUpdate | components/HealthRecords.tsx:37-50 | After an update, the active id resolves to the updater applied to the profile it resolved to before. |
| ProfileTree.ResolveOthersUnchanged | components/HealocAI.tsx:41-51 | After an update, every other selector resolves as before. |
| ProfileTree.UnmatchedUpdateIsNoOp | components/Profile.tsx:58-63 | An active id that matches no profile makes the update a no-op. |
| App.PageFor | App.tsx:82-97 | Each screen is dispatched to its own page, one to one. |
| App.Render | App.tsx:69-80 | Login shows exactly when there is no user. A page shows exactly when the selector resolves, and it is for the resolved profile. Otherwise the user's own loading text shows for a falsy or root selector, and the generic text for any other. |
| App.FallbackTextIff | App.tsx:74-80 | While loading, the user's own text shows exactly for a falsy selector. The root-id test never decides, because the root's id always resolves. |
| App.NewUserProfile | App.tsx:37-51 | A created root has the given name and email and an id starting `user_`. Date of birth and blood type are empty, and there are no contacts, entries or members. |
| App.CreatedProfileIsShown | App.tsx:52-64 | Right after creation, the current page is shown for the new root's own profile. |
| App.NullSelectorShowsLoading | App.tsx:73-78 | A `null` selector always renders the user's own loading text, whatever the tree holds. |
| App.Session.constructor | App.tsx:13-18 | Initial state: no user, the dashboard, no overlay, a `null` selector, light theme. |
| App.Session.CreateProfile | App.tsx:37-54 | Installs the new root and selects its id, after which the shell shows its page. |
| App.Session.SetActiveProfileId | App.tsx:17 | The selector becomes the given value. Nothing else writes it. |
| App.Session.SetUser | App.tsx:13 | The root becomes the given profile. |
| App.Session.Navigate | App.tsx:15 | The current screen becomes the given one. |
| App.Session.SetEmergencyMode | App.tsx:111-113 | The overlay flag becomes the given value. |
| App.Session.SetTheme | App.tsx:18 | The theme becomes the given one. |
| Header.SelectorFor | components/Header.tsx:17-18 | The root's id is stored as `null`. Any other id is stored as it is. |
| Header.Menu | components/Header.tsx:45-54 | The root comes first, as "<name> (You)". Then come the members, in list order. |
| Header.PickingMenuEntry | components/Header.tsx:47-54 | Picking the root entry yields a selector that resolves to nothing. Picking a member entry yields a profile with that member's id. |
| Header.Dropdown.constructor | components/Header.tsx:14 | The dropdown starts closed. |
| Header.Dropdown.Toggle | components/Header.tsx:40 | The button flips the open flag. |
| Header.Dropdown.SelectProfile | components/Header.tsx:17-20 | A selection hands over the selector for the id and closes the dropdown. |
| Header.Dropdown.MouseDown | components/Header.tsx:22-27 | A press outside closes the dropdown, and a press inside leaves it as it is. |
| HealthRecords.DefaultTimes | components/HealthRecords.tsx:61-77 | "as_needed" gives no slots, "twice_daily" gives 09:00 and 21:00, and anything else gives one 09:00 slot. |
| HealthRecords.DefaultTimesAgree | components/HealthRecords.tsx:9 | The default reminder draft's slots are those of its frequency. An unknown value gets the daily slots. |
| HealthRecords.EntryFor | components/HealthRecords.tsx:86-108 | The entry gets the prefix `med_`, `rec_`, `alg_` or `vac_` and copies its draft's fields. A record carries the attached image. The entry goes to the collection of its modal. |
| HealthRecords.SaveAppendsToActiveProfile | components/HealthRecords.tsx:86-111 | After a save, the active profile has exactly the target collection grown by the new entry at the end. Earlier entries are kept and every other part is unchanged. |
| HealthRecords.RecordsForm.constructor | components/HealthRecords.tsx:22-32 | The form starts with no modal open, the default drafts and no image. |
| HealthRecords.RecordsForm.OpenModal | components/HealthRecords.tsx:175 | An add button opens its modal. |
| HealthRecords.RecordsForm.CloseModal | components/HealthRecords.tsx:223-226 | Cancel closes the modal and drops the image. It keeps the drafts. |
| HealthRecords.RecordsForm.SetRecordImage | components/HealthRecords.tsx:122-129 | The chosen image, or none, becomes the record's image. |
| HealthRecords.RecordsForm.EditReminder | components/HealthRecords.tsx:262-263 | The reminder inputs replace the reminder draft. |
| HealthRecords.RecordsForm.EditRecord | components/HealthRecords.tsx:243-246 | The record inputs replace the record draft. |
| HealthRecords.RecordsForm.EditAllergy | components/HealthRecords.tsx:272-274 | The allergy inputs replace the allergy draft. |
| HealthRecords.RecordsForm.EditVaccination | components/HealthRecords.tsx:277-280 | The vaccination inputs replace the vaccination draft. |
| HealthRecords.RecordsForm.FrequencyChange | components/HealthRecords.tsx:61-78 | The new frequency takes that frequency's default slots. Name and dosage are kept. |
| HealthRecords.RecordsForm.TimeChange | components/HealthRecords.tsx:80-84 | Only the slot at the index changes. The slot count and the rest of the draft are kept. |
| HealthRecords.RecordsForm.Save | components/HealthRecords.tsx:86-111 | The save succeeds exactly when the modal's required fields are non-empty, with no trimming. A rejected save writes nothing and keeps every draft and the open modal. A successful save writes the entry through the mutator, resets that draft (and the image, for a record) and closes the modal. |
| HealthRecords.RecordsForm.Explain | components/HealthRecords.tsx:52-59 | Explaining selects the record and shows the reply. Loading ends. |
| HealocAI.ConcatAppend | components/HealocAI.tsx:60-65 | Accumulating chunks is in order and splits at any point. |
| HealocAI.FinalResultCases | components/HealocAI.tsx:58-69 | A failed run ends with the error text whatever arrived before the failure. A run of one chunk ends with that chunk, and one more chunk adds its text at the end. |
| HealocAI.AnalysisRecordedFirst | components/HealocAI.tsx:73-84 | A recorded analysis comes first in the active profile's history. The older analyses keep their order and every other part is kept. |
| HealocAI.ClassifySpeechError | components/HealocAI.tsx:128-144 | "network" has its own class. "not-allowed" and "service-not-allowed" share one. "no-speech" and "audio-capture" have their own. Anything else is unknown. |
| HealocAI.SpeechErrorMessagesDistinct | components/HealocAI.tsx:129-145 | Each class has its own message: two different classes never show the same text. |
| HealocAI.WithTranscript | components/HealocAI.tsx:125 | A transcript replaces an empty input. Otherwise it follows the input after exactly one space. |
| HealocAI.Assistant.constructor | components/HealocAI.tsx:25-38 | The screen starts with empty input and results, nothing running, no images and no history shown. |
| HealocAI.Assistant.SymptomCheck | components/HealocAI.tsx:54-88 | A blank input or a running check makes it a no-op. Otherwise the final result is every chunk in order, or the fixed error text on any error. Streaming then stops, the analysis is put first in the history with the raw input, the image flag and the final result, and the image is cleared. |
| HealocAI.Assistant.ReadStream | components/HealocAI.tsx:58-65 | Starting from "", the shown result and the final result both end as the in-order concatenation of the chunks. |
| HealocAI.Assistant.EditInput | components/HealocAI.tsx:219-222 | Typing replaces the input and clears the speech error. |
| HealocAI.Assistant.ViewHistory | components/HealocAI.tsx:90-96 | A past analysis is shown with its input and result, and the image is cleared. |
| HealocAI.Assistant.StartNewAnalysis | components/HealocAI.tsx:98-103 | Clears the viewed analysis, the input, the result and the image. |
| HealocAI.Assistant.ToggleListening | components/HealocAI.tsx:106-120 | Clears the speech error. Listening flips only when a recogniser exists. |
| HealocAI.Assistant.OnSpeechResult | components/HealocAI.tsx:123-127 | The transcript joins the input and listening stops. |
| HealocAI.Assistant.OnSpeechError | components/HealocAI.tsx:128-148 | The shown error is the message for the error's class, and listening stops. |
| HealocAI.Assistant.SetMode | components/HealocAI.tsx:205 | The tab buttons switch between the symptom checker and the medicine scanner. |
| HealocAI.Assistant.AttachImage | components/HealocAI.tsx:151-169 | No file changes nothing. A symptom file is attached. A medicine file replaces the scanner's image and clears its result. |
| HealocAI.Assistant.DetachSymptomImage | components/HealocAI.tsx:243 | "(remove)" drops the attached image. |
| HealocAI.Assistant.IdentifyMedicine | components/HealocAI.tsx:179-191 | No image or a running identification makes it a no-op. Otherwise the result is the reply, or the error text, and identification ends. |
| HealocAI.Assistant.ResetMedicineScanner | components/HealocAI.tsx:193-197 | Clears the scanner's image and result. |
| Profile.EditContact | components/Profile.tsx:67-71 | Only the named field of the contact at the index changes. The contact count is kept. |
| Profile.WithBlankContact | components/Profile.tsx:73-76 | Exactly one blank contact is added, at the end. |
| Profile.CompleteContacts | components/Profile.tsx:88 | Keeps exactly the contacts with both a name and a phone. |
| Profile.CompleteContactsAppend | components/Profile.tsx:88 | The filter keeps order: filtering a concatenation is concatenating the filtered parts. |
| Profile.CompleteContactsIdempotent | components/Profile.tsx:88 | Filtering twice is filtering once. |
| Profile.MemberFrom | components/Profile.tsx:80-89 | A new member has an id starting `fm_`. It has the draft's name, date of birth, blood type and relationship, only its complete contacts, and no entries. |
| Profile.WithMember | components/Profile.tsx:90-93 | The member goes last. The root's own fields and the earlier members are kept. |
| Profile.FirstMatchAppend | App.tsx:65 | `find` on a list with one more member at the end keeps its old answer when it had one. |
| Profile.AddedMemberResolves | components/Profile.tsx:90-93 | An added member with an unused id is selectable and resolves to its own profile. All other selectors resolve as before. |
| Profile.ContactChangeReadBack | components/Profile.tsx:67-71 | After a contact edit, the active profile differs only in its contacts. They keep their number and equal the edited list. |
| Profile.ContactChange | components/Profile.tsx:67-71 | A contact edit keeps email and the member count. With the root active, only the root's contacts change, to the edited list; with a member active, the root is untouched. |
| Profile.RootFieldChange | components/Profile.tsx:55-56 | With the root active, a field change writes only that root field. Email and the family list are untouched. |
| Profile.MemberFieldChange | components/Profile.tsx:58-63 | With a member active, a field change leaves the root's fields and the list shape alone. Members with other ids are unchanged, and each matching member has only that field changed. |
| Profile.AllergyNames | components/Profile.tsx:102 | The names of the allergies, one per allergy, in order. |
| Profile.QrPayloadOf | components/Profile.tsx:98-103 | The QR payload copies name, date of birth and blood type, and carries the allergy summary. |
| Profile.AllergySummaryCases | components/Profile.tsx:102 | The summary is "None" for no allergies, and the joined names once one name is non-empty. |
| Profile.SummaryAfterAddedAllergy | components/HealthRecords.tsx:101 | Adding an allergy extends a non-empty summary by ", " and the new allergy's name. |
| Profile.ToggledTheme | components/Profile.tsx:141 | The switch always changes the theme. |
| Profile.ProfileForm.constructor | components/Profile.tsx:49-50 | The modal starts closed with the default draft. |
| Profile.ProfileForm.OpenModal | components/Profile.tsx:192 | Opens the add-member modal. |
| Profile.ProfileForm.CancelModal | components/Profile.tsx:235 | Closes the modal and keeps the draft. |
| Profile.ProfileForm.EditDraft | components/Profile.tsx:206-222 | The draft's name, date of birth, blood type and relationship inputs replace those fields only. |
| Profile.ProfileForm.NewMemberContactChange | components/Profile.tsx:107-111 | Edits one field of one draft contact, through `EditContact`. |
| Profile.ProfileForm.AddNewMemberContactField | components/Profile.tsx:113-115 | Adds one blank draft contact at the end. |
| Profile.ProfileForm.AddMember | components/Profile.tsx:78-96 | The add succeeds exactly when the draft's name and date of birth are non-empty. A rejected add changes nothing. A successful one appends the member built from the draft, resets the draft and closes the modal. |
| EmergencyCard.AllergyItems | components/EmergencyCard.tsx:14 | One "name (severity)" item per allergy, in order. |
| EmergencyCard.ContactItems | components/EmergencyCard.tsx:15 | One "name: phone" item per contact, in order. |
| EmergencyCard.PayloadOf | components/EmergencyCard.tsx:10-16 | Name, date of birth and blood type are copied. Allergies are joined by ", " or fall back to "None". Contacts are joined by " \| " with no fallback. |
| EmergencyCard.PayloadAllergiesNoneIff | components/EmergencyCard.tsx:14 | The payload's allergies read "None" exactly when there are no allergies. |
| EmergencyCard.PayloadContactsEmptyIff | components/EmergencyCard.tsx:15 | The payload's contacts are "" exactly when there are no contacts. |
| EmergencyCard.KnownAllergies | components/EmergencyCard.tsx:45 | The row is the same text as the profile screen's QR summary. It reads "None" with no allergies, and the names joined by ", " once one name is non-empty. |
| EmergencyCard.ContactLabelCases | components/EmergencyCard.tsx:48 | With no '(' the label is "Contact". With a ')' after the '(' it is the text between them. With no ')' it is the name up to and including '('. With a ')' before the '(' it runs from that ')' up to and including '('. |
| EmergencyCard.ContactDisplayName | components/EmergencyCard.tsx:48 | The name part is the text before the first '(', trimmed; a name without '(' is only trimmed. It never holds '('. |
| EmergencyCard.ContactValue | components/EmergencyCard.tsx:48 | A contact's value is its name part followed by " - " and the phone. |
| EmergencyMode.GeolocationErrorMessage | components/EmergencyMode.tsx:24-45 | Codes 1, 2 and 3 have fixed texts. Other codes show the browser's message when it is non-empty, else the fallback. |
| EmergencyMode.GeolocationErrorMessageNonEmpty | components/EmergencyMode.tsx:27-45 | The error message is never empty. |
| EmergencyMode.Phones | components/EmergencyMode.tsx:56 | One phone per contact, in order. |
| EmergencyMode.AlertBody | components/EmergencyMode.tsx:62-68 | Every message opens with "EMERGENCY! <name> needs help. ". It continues with the maps link exactly when the status is success and a position is known, and otherwise with the cannot-share sentence. |
| EmergencyMode.AlertFor | components/EmergencyMode.tsx:55-68 | The alert is blocked exactly when the joined phones are "". Otherwise the SMS goes to the joined phones with the message. |
| EmergencyMode.AlertBlockedIff | components/EmergencyMode.tsx:56-60 | It is blocked exactly with no contacts, or with one contact whose phone is empty. Two contacts with blank phones still send. |
| EmergencyMode.AlertButtonLabel | components/EmergencyMode.tsx:81 | The button reads "SEND LOCATION ALERT" exactly on success, and "SEND ALERT" otherwise. |
| EmergencyMode.PressableButtonKeepsItsWord | components/EmergencyMode.tsx:139-142 | The button can be pressed exactly once the position request has ended. When it reads "SEND LOCATION ALERT" the message carries the maps link, and when it reads "SEND ALERT" the message says the location cannot be shared. |
| EmergencyMode.InfoValue | components/EmergencyMode.tsx:77 | An empty value shows "N/A". Any other value is shown as it is. |
| EmergencyMode.StatusText | components/EmergencyMode.tsx:132-134 | Each status has its line, and the error line embeds the error. |
| EmergencyMode.AllergyLines | components/EmergencyMode.tsx:106-112 | The overlay lists one "name (severity)" line per allergy, or "None Reported". |
| EmergencyMode.ContactLines | components/EmergencyMode.tsx:117-126 | The overlay shows the single text "None" exactly when there are no contacts, otherwise one line per contact, in order, with its name part and phone. |
| EmergencyMode.EmergencyScreen.constructor | components/EmergencyMode.tsx:10-12 | The overlay starts fetching, with no position and no error. |
| EmergencyMode.EmergencyScreen.RequestLocation | components/EmergencyMode.tsx:14-52 | Without geolocation the status fails with the "not supported" text. With it, the state waits for a callback. |
| EmergencyMode.EmergencyScreen.OnPosition | components/EmergencyMode.tsx:17-23 | A position is stored and the status becomes success. |
| EmergencyMode.EmergencyScreen.OnPositionError | components/EmergencyMode.tsx:24-47 | The status becomes error, with the message for the code. |
| EmergencyMode.EmergencyScreen.SendAlert | components/EmergencyMode.tsx:55-72 | The alert for the active profile in the current state. Without success it is the cannot-share message. |
| Dashboard.FirstName | components/Dashboard.tsx:69 | The greeting name is the prefix before the first space. It is the whole name when there is no space. |
| Dashboard.Greeting | components/Dashboard.tsx:69 | The greeting is "Welcome, " and "!" around the part of the name before its first space: a space-free prefix that the name's first space follows, or the whole name when it has no space. |
| Dashboard.CacheRoundTrip | components/Dashboard.tsx:23-37 | The tip and date a fetch writes hit the cache on the same day exactly when the tip is non-empty and not "undefined", and never on another day. |
| Dashboard.TipCard.constructor | components/Dashboard.tsx:15 | The card starts with "Loading health tip...". |
| Dashboard.TipCard.LoadTip | components/Dashboard.tsx:17-48 | The stored tip shows exactly when it is non-empty, not "undefined" and stored today. Any other case, including a storage read error, fetches. The fetched tip is shown first, and the writes of tip and date then stop at the first write that raises. |
| LoginScreen.LoginForm.constructor | components/LoginScreen.tsx:8-9 | Both fields start empty. |
| LoginScreen.LoginForm.SetName | components/LoginScreen.tsx:34 | The name input sets the name. |
| LoginScreen.LoginForm.SetEmail | components/LoginScreen.tsx:45 | The email input sets the email. |
| LoginScreen.LoginForm.Submit | components/LoginScreen.tsx:11-16 | The login fires exactly when neither field is blank after trimming. It carries the untrimmed values and never clears the fields. |

## Left out

- `services/geminiService.ts` is not part of this model. Its results are parameters:
  - a reply stream of chunks that may raise;
  - the reply text for record explanations, or `None` when medicine identification raises;
  - the tip text, which the component treats as always present.
- Ids from `Date.now()` and dates from `new Date()` are the `stamp`, `now` and `today` parameters. Nothing is claimed about their uniqueness, since the program never checks for collisions.
- `JSON.stringify`, `encodeURIComponent`, the qrserver image URLs and the `sms:` link text are left out. Only the payload fields and the recipients and message body are modelled.
- Browser APIs become their outcomes:
  - geolocation becomes `supported` and the callbacks;
  - SpeechRecognition start and stop become `recogniserAvailable`;
  - FileReader previews and base64 become a file represented by its name or data;
  - `alert` becomes `NoRecipients` or the unchanged state;
  - `window.scrollTo` and `console.error` are dropped.
- Latitude and longitude are floats. A position is kept only as the texts that go into the maps link.
- The theme's `localStorage` restore and the `dark` class toggling in `App.tsx:20-35` are left out. The restore accepts any stored string as a theme, which a `Theme` value here cannot hold.
- `renderScreen`'s `default` branch (`App.tsx:94-95`) serves values outside the enum. A `Screen` here cannot hold such a value.
- Async timing, re-renders and memoisation are left out. Each handler runs to completion as one method call.
- `components/BottomNav.tsx`, the icons, and all markup and styling are left out.
- ProfileTree.Resolve: for a member it returns the member's `HealthProfile` part. The relationship field that the source object still carries is not part of the result.
- ProfileTree.UpdateActive: the null-user branch of two of the three updater functions (`if (!prevUser) return null` at components/HealthRecords.tsx:39, `if (!currentUser) return null` at components/Profile.tsx:54) is not modelled; the assistant's updater (components/HealocAI.tsx:41-51) has no such branch. A root always exists while these screens are shown.
- HealocAI.Assistant.SymptomCheck: the history is always a list here, so the `p.symptomHistory || []` case of a missing history does not arise.
- HealocAI.Assistant.SymptomCheck: the image handed to the analysis service is not modelled. Only whether one was attached is recorded.
- Header.Dropdown.MouseDown: the case where the dropdown element is not mounted (`dropdownRef.current` is `null`, and the press is ignored) is not modelled.
- Dashboard.TipCard.LoadTip: the two readings of the current date (`Dashboard.tsx:19` and `Dashboard.tsx:34`) are one `today` parameter.
