# Call helpers and SIM import/export rules of the Contacts app, in Dafny

This project models two parts of the Android Contacts code and proves properties about them.

**`CallUtil` (module `CallUtil`).** These helpers:
- build call intents: a `CALL_PRIVILEGED` action, a `sip:` or `tel:` URI, and the video-state, call-origin and account extras;
- compare two numbers, with SIP addresses compared as a case-sensitive user part and a case-insensitive host part;
- decide whether video calling is offered;
- check a number against the regional video-call number pattern.

Android's `Intent`, `Uri` and `PhoneAccount` become plain datatypes. The platform predicates become function-typed parameters:
- `PhoneNumberUtils.isUriNumber`, `PhoneNumberHelper.isUriNumber`;
- `PhoneNumberUtils.compare`;
- `normalizeNumber`.

**`ImportExportDialogFragment` (modules `ImportExportDialog` and `ExportToSim`).** The parts modelled are:
- the menu built by `loadData`, with the adapter as a class holding the item list;
- the SIM-slot selectors;
- `getAccountNameBy`;
- the provider batch built by `actuallyImportOneSimContact`;
- `getEmails`;
- the `ExportToSimThread`: its `run` loop for selected contacts, and `insert`.

The thread is a class with the fields that `run` and `insert` update (`freeSimCount`, `mValues`). The platform services are inputs:
- the SIM card's answers: free count, anr/email support and spare counts, and the result of each insert;
- the contact data rows;
- the moment the user cancels.

Each loop is a method proved equal to a specification function. The properties are proved as lemmas about those functions.

The export run takes a record-count selector, `GroupCounting`:
- `AsWritten` computes the count per contact as the thread does (lines 730-742);
- `Corrected` uses the count from the finding below.

The accounting and toast properties are proved for both.

**`JavaLang`** is the part of `java.lang.String` and `TextUtils` that the code relies on:
- `null` as `Option`;
- `isEmpty`;
- `indexOf`;
- `equalsIgnoreCase`;
- `split(",")`, including its removal of trailing empty fields;
- the comma-terminated join that `getEmails` builds.

## Model

| member | source | states |
|---|---|---|
| JavaLang.IndexOf | src/com/android/contacts/common/CallUtil.java:189 | The result is -1 exactly when the character is absent; otherwise it is the position of its first occurrence. |
| JavaLang.Length | src/com/android/contacts/common/interactions/ImportExportDialogFragment.java:849 | Java's `length()` counts UTF-16 units: at least the number of characters and at most twice it. It equals the number of characters exactly when none lies outside the Basic Multilingual Plane. |
| JavaLang.EncodedLengthVsLength | src/com/android/contacts/common/interactions/ImportExportDialogFragment.java:1196 | The UTF-8 encoding never takes fewer bytes than the string has UTF-16 units. It takes exactly as many when and only when every character is ASCII. |
| JavaLang.EqualsIgnoreCaseIsEquivalence | src/com/android/contacts/common/CallUtil.java:211 | `equalsIgnoreCase` is reflexive, symmetric and transitive. |
| JavaLang.Split | src/com/android/contacts/common/interactions/ImportExportDialogFragment.java:537-545 | When the separator is absent, the only element is the whole string, even an empty one. Otherwise the result is the fields between separators with only the trailing empty fields dropped, and its last element is not empty. No element contains the separator. |
| JavaLang.FieldsJoinBack | src/com/android/contacts/common/interactions/ImportExportDialogFragment.java:538 | The fields of a string, joined back with the separator between them, give the string. |
| JavaLang.SplitOfJoin | src/com/android/contacts/common/interactions/ImportExportDialogFragment.java:1218-1225 | Splitting a comma-terminated join gives the list back. This holds when the list is non-empty, its elements are separator-free and its last element is not empty. |
| CallUtil.CallIntent | src/com/android/contacts/common/CallUtil.java:160-172 | The intent is CALL_PRIVILEGED on the given URI and always carries the video state. It carries the call origin exactly when the origin is non-null, and the account handle exactly when the handle is non-null. It has no other extra. |
| CallUtil.CallIntentForUriFull | src/com/android/contacts/common/CallUtil.java:95-99 | An audio-only CALL_PRIVILEGED call on the given URI. The origin extra holds the origin exactly when it is non-null; the account extra holds the handle exactly when it is non-null. |
| CallUtil.CallIntentForNumberFull | src/com/android/contacts/common/CallUtil.java:85-88 | An audio-only CALL_PRIVILEGED call. The URI scheme is `sip` for a URI-style number and `tel` otherwise, and holds the number unchanged, with no fragment. The origin extra holds the origin exactly when it is non-null; the account extra holds the handle exactly when it is non-null. |
| CallUtil.CallIntentForNumber | src/com/android/contacts/common/CallUtil.java:48-50 | A CALL_PRIVILEGED intent on the number's call URI, with the audio-only video state as the only extra. |
| CallUtil.CallIntentForUri | src/com/android/contacts/common/CallUtil.java:56-58 | A CALL_PRIVILEGED intent on the URI as given, with the audio-only video state as the only extra. |
| CallUtil.CallIntentWithOrigin | src/com/android/contacts/common/CallUtil.java:64-66 | An audio-only CALL_PRIVILEGED call on the number's URI. The origin extra holds the origin exactly when it is non-null; there is never an account extra. |
| CallUtil.CallIntentWithAccount | src/com/android/contacts/common/CallUtil.java:71-73 | An audio-only CALL_PRIVILEGED call on the number's URI. There is never an origin extra; the account extra holds the handle exactly when it is non-null. |
| CallUtil.CallIntentForUriWithAccount | src/com/android/contacts/common/CallUtil.java:78-80 | An audio-only CALL_PRIVILEGED call on the URI as given. There is never an origin extra; the account extra holds the handle exactly when it is non-null. |
| CallUtil.VideoCallIntentWithOrigin | src/com/android/contacts/common/CallUtil.java:125-128 | A bidirectional video CALL_PRIVILEGED call on the number's URI. The origin extra holds the origin exactly when it is non-null; there is never an account extra. |
| CallUtil.VideoCallIntentFull | src/com/android/contacts/common/CallUtil.java:134-138 | A bidirectional video CALL_PRIVILEGED call on the number's URI. The origin extra holds the origin exactly when it is non-null; the account extra holds the handle exactly when it is non-null. |
| CallUtil.VideoCallIntentWithAccount | src/com/android/contacts/common/CallUtil.java:144-146 | A bidirectional video CALL_PRIVILEGED call on the number's URI. There is never an origin extra; the account extra holds the handle exactly when it is non-null. |
| CallUtil.VoicemailIntent | src/com/android/contacts/common/CallUtil.java:151-153 | An audio-only CALL_PRIVILEGED intent on `voicemail:` with an empty scheme-specific part. |
| CallUtil.VideoDiffersFromAudioOnlyInVideoState | src/com/android/contacts/common/CallUtil.java:134-138 | The video and audio intents for the same arguments have the same action, URI and extra keys. They differ only in the video state. |
| CallUtil.CallUri | src/com/android/contacts/common/CallUtil.java:218-223 | The scheme is `sip` exactly when the number is URI-style, and `tel` otherwise. The number is the scheme-specific part unchanged, and there is no fragment. |
| CallUtil.SipAddressesEqual | src/com/android/contacts/common/CallUtil.java:186-187 | When either address is null, the result is true exactly when both are null. |
| CallUtil.UserHostSplit | src/com/android/contacts/common/CallUtil.java:189-209 | The user part followed by the host part is the address. The user part has no '@'. The host part is empty or starts with '@'. |
| CallUtil.SipAddressesEqualIsCharwise | src/com/android/contacts/common/CallUtil.java:186-212 | Two non-null addresses are equal exactly when they have the same length, agree character by character before the first '@', and agree ignoring case from there on. |
| CallUtil.SipAddressesEqualIsEquivalence | src/com/android/contacts/common/CallUtil.java:186-212 | The SIP comparison is reflexive, symmetric and transitive, null included. |
| CallUtil.SipAddressWithoutHostNeverEqualsOneWith | src/com/android/contacts/common/CallUtil.java:194-209 | An address without '@' never equals one with '@'. |
| CallUtil.SipUserPartIsCaseSensitive | src/com/android/contacts/common/CallUtil.java:211 | On the same host, different user parts never compare equal, even when they differ only in case. |
| CallUtil.SipHostPartIgnoresCase | src/com/android/contacts/common/CallUtil.java:211 | The same user on hosts that are equal ignoring case is the same address. |
| CallUtil.PhoneNumbersEqual | src/com/android/contacts/common/CallUtil.java:178-184 | When either number is URI-style, the result is the SIP comparison; otherwise it is the platform comparison. |
| CallUtil.PhoneNumbersEqualSymmetric | src/com/android/contacts/common/CallUtil.java:178-184 | The comparison is symmetric whenever the platform comparison is. |
| CallUtil.PhoneNumbersEqualReflexive | src/com/android/contacts/common/CallUtil.java:178-184 | Every number equals itself whenever the platform comparison is reflexive. |
| CallUtil.HasCapability | src/com/android/contacts/common/CallUtil.java:225-228 | A null account has no capability. Otherwise the result is true exactly when every requested bit is set. |
| CallUtil.HasCapabilityUnion | src/com/android/contacts/common/CallUtil.java:225-228 | Asking for the union of two bit sets is the same as asking for each. |
| CallUtil.HasVideoCapability | src/com/android/contacts/common/CallUtil.java:230-245 | The result is true exactly when there is a TelecomManager and some call-capable account is video-capable. |
| CallUtil.IsVideoEnabled | src/com/android/contacts/common/CallUtil.java:247-258 | Configuration 1 gives true and 2 gives false. Any other value gives true exactly when some account is video-capable. |
| CallUtil.IsVideoCallNumValid | src/com/android/contacts/common/CallUtil.java:300-313 | The result is true when regional patterns are off. Otherwise it is false for a null or empty normalised number, or for a raw number containing '#' or '*'. Otherwise it is true exactly when the normalised number's UTF-16 length is at most 8 with a leading '+', or at most 7 without. |
| ImportExportDialog.MenuAdapter.Clear | src/com/android/contacts/common/interactions/ImportExportDialogFragment.java:302 | The adapter becomes empty. |
| ImportExportDialog.MenuAdapter.Add | src/com/android/contacts/common/interactions/ImportExportDialogFragment.java:318 | The item is appended at the end. |
| ImportExportDialog.OfferedItemsInOrder | src/com/android/contacts/common/interactions/ImportExportDialogFragment.java:316-349 | Filtering candidates that are in menu order keeps the menu order. |
| ImportExportDialog.OfferedItemsMembers | src/com/android/contacts/common/interactions/ImportExportDialogFragment.java:316-349 | An entry is offered exactly when it is a candidate and its condition holds. |
| ImportExportDialog.MenuItemsOrderAndMembership | src/com/android/contacts/common/interactions/ImportExportDialogFragment.java:316-349 | The entries appear in the order import SIM, import SD, export SIM, export SD, share. Each condition is an iff: <br>- import SIM needs the default card and its flag; <br>- import SD needs its flag; <br>- export SIM needs a card in some slot and contacts; <br>- export SD needs its flag and available contacts; <br>- share needs its flag and available contacts. |
| ImportExportDialog.MenuItemsUnfolded | src/com/android/contacts/common/interactions/ImportExportDialogFragment.java:316-349 | The menu is the five optional entries, one after the other. |
| ImportExportDialog.LoadData | src/com/android/contacts/common/interactions/ImportExportDialogFragment.java:297-350 | After the slot scan and the adds, the adapter holds exactly the menu above. |
| ImportExportDialog.EnabledCountAboveOneIffTwoSlots | src/com/android/contacts/common/interactions/ImportExportDialogFragment.java:1152-1161 | More than one enabled slot means two distinct enabled slots exist. At least one means some slot is enabled. |
| ImportExportDialog.HasMultiEnabledIccCard | src/com/android/contacts/common/interactions/ImportExportDialogFragment.java:1152-1161 | The result is true exactly when two distinct slots have a READY card. |
| ImportExportDialog.HasEnabledIccCard | src/com/android/contacts/common/interactions/ImportExportDialogFragment.java:1163-1180 | In multi-SIM mode, some slot has a READY card; otherwise the default card is present. |
| ImportExportDialog.GetEnabledIccCard | src/com/android/contacts/common/interactions/ImportExportDialogFragment.java:1182-1190 | The lowest enabled slot, or 0 when no slot is enabled. |
| ImportExportDialog.GetAccountNameBy | src/com/android/contacts/common/interactions/ImportExportDialogFragment.java:512-525 | Single-SIM mode gives SIM_NAME. In multi-SIM mode, subscription 0 gives SIM_NAME_1, subscription 1 gives SIM_NAME_2, and any other subscription gives null. |
| ImportExportDialog.AccountNamesSeparateSubscriptions | src/com/android/contacts/common/interactions/ImportExportDialogFragment.java:512-525 | The two subscriptions get different account names, and neither is the single-SIM name. |
| ImportExportDialog.GetAsString | src/com/android/contacts/common/interactions/ImportExportDialogFragment.java:531-534 | A present key reads as its stored value, and a missing key as null. |
| ImportExportDialog.SplitIfPresent | src/com/android/contacts/common/interactions/ImportExportDialogFragment.java:536-545 | A non-empty value gives the array of its comma-split fields; a null or empty value gives null. |
| ImportExportDialog.HomeNumberRows | src/com/android/contacts/common/interactions/ImportExportDialogFragment.java:579-588 | One HOME phone row per anr, in order, each back-referencing operation 0. |
| ImportExportDialog.EmailRows | src/com/android/contacts/common/interactions/ImportExportDialogFragment.java:590-599 | One email row per address, in order, each back-referencing operation 0. |
| ImportExportDialog.OperationList | src/com/android/contacts/common/interactions/ImportExportDialogFragment.java:554-599 | The list has length 3 + anrs + emails. It is: the raw-contact insert for the account; the name row; the primary MOBILE row; the HOME rows; the email rows. Every data row back-references operation 0. |
| ImportExportDialog.AppendHomeNumbers | src/com/android/contacts/common/interactions/ImportExportDialogFragment.java:579-588 | The loop appends exactly the HOME rows of the anr array. |
| ImportExportDialog.AppendEmails | src/com/android/contacts/common/interactions/ImportExportDialogFragment.java:590-599 | The loop appends exactly the email rows of the email array. |
| ImportExportDialog.ImportOperationsThrowsOnlyOnEmptyEmails | src/com/android/contacts/common/interactions/ImportExportDialogFragment.java:536-599 | The import throws NullPointerException exactly when the email value is the empty string. Otherwise the list length is 3 + the number of split anrs + the number of split emails. |
| ImportExportDialog.ActuallyImportOneSimContact | src/com/android/contacts/common/interactions/ImportExportDialogFragment.java:527-599 | The operations appended step by step are the batch, or the exception, that the specification gives. |
| ImportExportDialog.AppendForms | src/com/android/contacts/common/interactions/ImportExportDialogFragment.java:1219-1222 | Each cursor value is appended as itself, and null as "null". |
| ImportExportDialog.GetEmails | src/com/android/contacts/common/interactions/ImportExportDialogFragment.java:1205-1226 | A null contact id or a null cursor gives null. Otherwise the result is every address followed by a comma. |
| ImportExportDialog.GetEmailsSplitsBack | src/com/android/contacts/common/interactions/ImportExportDialogFragment.java:1205-1226 | Splitting the joined emails at commas gives back the addresses. This holds when the addresses are non-null and comma-free and the last is non-empty. |
| ImportExportDialog.HasChinese | src/com/android/contacts/common/interactions/ImportExportDialogFragment.java:1195-1197 | The result is true exactly when the name is non-null and holds a character that is not ASCII, which is when its UTF-8 bytes outnumber its UTF-16 units. |
| ExportToSim.CollectRowNumbers | src/com/android/contacts/common/interactions/ImportExportDialogFragment.java:702-706 | A row keeps its non-empty number while the budget is positive. The budget goes down once per non-empty number, whether or not the number is kept. |
| ExportToSim.CollectRowEmails | src/com/android/contacts/common/interactions/ImportExportDialogFragment.java:710-717 | The same for emails, and only when the card stores emails. |
| ExportToSim.CollectKeepsBudgetedNumbers | src/com/android/contacts/common/interactions/ImportExportDialogFragment.java:699-719 | A contact's kept numbers are its first non-empty numbers, as many as the number budget allows. The budget falls by the count of non-empty numbers. |
| ExportToSim.CollectKeepsBudgetedEmails | src/com/android/contacts/common/interactions/ImportExportDialogFragment.java:699-719 | The kept emails are the first non-empty addresses within the email budget when the card stores emails, and none otherwise. |
| ExportToSim.PopFront | src/com/android/contacts/common/interactions/ImportExportDialogFragment.java:753 | `remove(0)` on a non-empty list gives its head and its tail; an empty list gives null. |
| ExportToSim.HandoutTakesFromFront | src/com/android/contacts/common/interactions/ImportExportDialogFragment.java:752-761 | A record's primary number and anr, then the remaining numbers, make up the pending numbers; the same holds for its email. A record takes two numbers exactly when anrs are stored, the spare anr count is positive and two numbers remain. |
| ExportToSim.FailedInsertKeepsCapacity | src/com/android/contacts/common/interactions/ImportExportDialogFragment.java:768-784 | A failed insert on a card that is not full, outside airplane mode, leaves the free count, the insert count, the exported records and the toasts unchanged. |
| ExportToSim.GroupNumCountAsWritten | src/com/android/contacts/common/interactions/ImportExportDialogFragment.java:730-742 | The thread's count is never negative. It is the number count when anrs are not stored, and at most that count while the spare anr count is non-negative. Once the spare count is negative, it exceeds the number count. |
| ExportToSim.GroupNumCount | src/com/android/contacts/common/interactions/ImportExportDialogFragment.java:730-742 | The corrected count is at most the number count, and equals it when anrs are not stored. With anrs stored, twice the count covers the numbers. |
| ExportToSim.CapacityMonotone | src/com/android/contacts/common/interactions/ImportExportDialogFragment.java:749-761 | More records carry at least as many numbers. |
| ExportToSim.GroupNumCountIsLeastSufficient | src/com/android/contacts/common/interactions/ImportExportDialogFragment.java:730-742 | The corrected record count is the least one whose records carry every number. |
| ExportToSim.GroupNumCountAsWrittenDiffers | src/com/android/contacts/common/interactions/ImportExportDialogFragment.java:740-741 | The count as written differs from the corrected one exactly when anrs are stored and either the spare anr count is negative, or the number count is odd and the spare count equals ceil(n/2). |
| ExportToSim.GroupNumCountAsWrittenDropsANumber | src/com/android/contacts/common/interactions/ImportExportDialogFragment.java:740-741 | For 3 numbers and 2 spare anrs: as written, 1 record carrying 2 numbers; corrected, 2 records. |
| ExportToSim.GroupNumCountAsWrittenAddsARecord | src/com/android/contacts/common/interactions/ImportExportDialogFragment.java:740-741 | For 1 number and a spare anr count of -1: as written, 2 records; corrected, 1 record. |
| ExportToSim.GroupStepKeeps | src/com/android/contacts/common/interactions/ImportExportDialogFragment.java:749-799 | One group keeps the counting invariant and the toast invariant. |
| ExportToSim.PackGroupsKeeps | src/com/android/contacts/common/interactions/ImportExportDialogFragment.java:749-799 | The group loop keeps both invariants. |
| ExportToSim.ExportContactKeeps | src/com/android/contacts/common/interactions/ImportExportDialogFragment.java:699-799 | One contact keeps both invariants, whichever record count is used, the count as written included. |
| ExportToSim.PackGroupsToasts | src/com/android/contacts/common/interactions/ImportExportDialogFragment.java:749-799 | The group loop adds no toast, or exactly one stop toast: card full with the full flag set, or export failed with the airplane flag set. |
| ExportToSim.ExportContactSkipsEmpty | src/com/android/contacts/common/interactions/ImportExportDialogFragment.java:699-728 | A contact with neither a number nor an email adds only its skipped-contact toast. It offers and exports nothing, and leaves the free count, insert count and spare anr count unchanged; only the collection budgets move. Any other contact adds no skipped-contact toast. |
| ExportToSim.ExportFromKeeps | src/com/android/contacts/common/interactions/ImportExportDialogFragment.java:683-804 | The contact loop keeps both invariants and takes at most all contacts, whichever record count is used. |
| ExportToSim.ExportAccounting | src/com/android/contacts/common/interactions/ImportExportDialogFragment.java:636-839 | For either record count, the count as written included: inserts plus the free count left equal the initial free count. The inserts are between 0 and the initial free count. The free count never goes negative when it started non-negative. The card took exactly insertCount records. |
| ExportToSim.ExportToasts | src/com/android/contacts/common/interactions/ImportExportDialogFragment.java:636-839 | For either record count: a run posts skipped-contact toasts and then exactly one closing toast. The closing toast is SIM-full exactly when the card filled, and export-failed exactly in airplane mode. |
| ExportToSim.ExportFromStops | src/com/android/contacts/common/interactions/ImportExportDialogFragment.java:683-804 | The contact loop stops only when the contacts run out, the user has canceled, airplane mode was seen, or the card was found full. |
| ExportToSim.ExportClosingToast | src/com/android/contacts/common/interactions/ImportExportDialogFragment.java:826-835 | When neither the card filled nor airplane mode was seen, the closing toast is the canceled toast carrying the insert count exactly when the user had canceled by the time the loop stopped. Otherwise it is the finished toast, and then every selected contact was taken. |
| ExportToSim.GroupStepOffers | src/com/android/contacts/common/interactions/ImportExportDialogFragment.java:752-792 | With a free record, the handed-out record is offered. On success it is counted and uses one free record. |
| ExportToSim.GroupStepConsumesFromFront | src/com/android/contacts/common/interactions/ImportExportDialogFragment.java:752-761 | One group offers at most one record, under the contact's name. That record carries exactly the numbers and the email taken from the front of the pending lists. |
| ExportToSim.PackGroupsAppendsOffers | src/com/android/contacts/common/interactions/ImportExportDialogFragment.java:749-799 | The group loop only appends records, all under the contact's name. |
| ExportToSim.PackGroupsConsumesFromFront | src/com/android/contacts/common/interactions/ImportExportDialogFragment.java:749-799 | The offered records carry, in order, exactly the numbers and emails no longer pending. |
| ExportToSim.PackGroupsAllInsertedRecords | src/com/android/contacts/common/interactions/ImportExportDialogFragment.java:749-799 | When every insert succeeds and there is a free record per group, the loop never stops early and the card takes every offered record. |
| ExportToSim.PackGroupsAllInsertedLeftover | src/com/android/contacts/common/interactions/ImportExportDialogFragment.java:749-799 | Under the same conditions, the numbers left are those beyond the groups' capacity, and the emails left are those beyond one per group. |
| ExportToSim.CorrectedCountExportsEverything | src/com/android/contacts/common/interactions/ImportExportDialogFragment.java:730-799 | With the corrected count, a card that takes every record and has enough free records receives every collected number, and every email when it stores emails, in order. |
| ExportToSim.AsWrittenCountLeavesANumberBehind | src/com/android/contacts/common/interactions/ImportExportDialogFragment.java:740-761 | With the count as written, 3 numbers and 2 spare anrs leave one number unexported, even though every insert succeeds. |
| ExportToSim.NameTooLong | src/com/android/contacts/common/interactions/ImportExportDialogFragment.java:846-853 | An empty name is never too long. A name of at most 6 UTF-16 units always fits, and one of more than 14 never does. Between these, the name is too long exactly when it holds a character that is not ASCII. |
| ExportToSim.SimValues | src/com/android/contacts/common/interactions/ImportExportDialogFragment.java:856-861 | The values hold the tag, the stripped number, and the emails only when non-empty. There are no anrs. |
| ExportToSim.InsertedValuesImportWithoutError | src/com/android/contacts/common/interactions/ImportExportDialogFragment.java:856-867 | The values `insert` builds never make the follow-up import throw. |
| ExportToSim.ExportToSimThread.constructor | src/com/android/contacts/common/interactions/ImportExportDialogFragment.java:624-634 | The list must be non-null, since the constructor reads its size and throws on null. The thread records its subscription and contact list, with a free count of 0 and empty values. |
| ExportToSim.ExportToSimThread.CollectContactData | src/com/android/contacts/common/interactions/ImportExportDialogFragment.java:699-719 | The cursor loop yields the name, numbers, emails and budgets of the collection specification. |
| ExportToSim.ExportToSimThread.ExportGroups | src/com/android/contacts/common/interactions/ImportExportDialogFragment.java:749-799 | The group loop leaves the counters, flags, records, toasts and pending lists of the packing specification. |
| ExportToSim.ExportToSimThread.Run | src/com/android/contacts/common/interactions/ImportExportDialogFragment.java:636-839 | With the count as written, the run leaves the free count, insert count, offered and exported records, and toasts that the export specification gives for the thread's own record count. With the corrected count, it leaves those of the corrected specification. |
| ExportToSim.ExportToSimThread.Insert | src/com/android/contacts/common/interactions/ImportExportDialogFragment.java:844-876 | A name too long by the UTF-16 rule gets the name toast and no insert. Otherwise the values are set and offered to the card, and an accepted record is imported with exactly those values. |

## Left out

- The dialogs, click listeners, progress dialogs and toast handler are UI. Toasts are modelled as a list of messages with their codes (0 to 5).
- ExportToSim.Export: the null-list branch models the guard in `run` at line 680. A thread built by the constructor always holds a list, so that branch is never reached from a constructed thread.
- The thread object and the `isExportingToSIM` flag are left out. The `canceled` flag written from the UI is the input `cancelAt`: the run sees the cancel before taking contact `cancelAt`, and again at the end.
- Content-provider and SIM I/O are left out: the queries, `applyBatch`, the ADN query before the loop, and the completion broadcast. The data rows, the card's answers and the insert results are inputs.
- `MoreContactUtils.insertToCard`, `getSimFreeCount` and `getAdnCount`, and the airplane-mode setting, are left out. One input answers each insert with success, card full, or failure with the airplane-mode setting read at that moment.
- The `TYPE_ALL` branch of `run` is not modelled; the source marks it as not in use. `insert` and `getEmails`, which it calls, are modelled on their own.
- In `loadData`, the early return when both the activity and the adapter are null is not modelled. Its only caller sets both first. Whether the database has contacts (`hasContacts`) is an input.
- `Long.parseLong` on the contact id is not modelled; a malformed id would throw.
- The CSVT, conference-dialer and add-participants intent builders are left out. They put constant extras only.
- CallUtil.CallUri: a null number is not modelled. The platform predicate decides the scheme, and the URI is built from a non-null string.
- CallUtil.IsVideoCallNumValid: a null raw number, which throws in the source, is not modelled.
- CallUtil.HasCapability: the Java `int` capability mask is modelled as the set of its 1-bit positions, with CAPABILITY_VIDEO_CALLING as {3}. The mask test becomes a set intersection.
- JavaLang.EqualsIgnoreCase: only ASCII letters have a case mapping in this model. Other characters compare exactly.
- ImportExportDialog.HasChinese: `getBytes()` is taken to use UTF-8, Android's default charset.
- JavaLang.IndexOf: strings are sequences of Unicode characters, so `indexOf` and `substring` positions count characters rather than UTF-16 units. They cut the string at the same places. Every length the code compares uses JavaLang.Length, the UTF-16 count.
- The values of the SimContactsConstants keys are not visible. STR_TAG, STR_NUMBER and STR_EMAILS are taken to be the literal keys "tag", "number" and "emails" that `insert` writes.
- The ADN row values stored on the card, and the provider's handling of the batch, are not part of this model.
- Integer overflow of the Java `int` counters is not modelled. The counters only decrease by one per row or group, starting from small card sizes.

## Findings

| source | as written | input that shows it | evidently intended | confidence | as-written member | corrected member |
|---|---|---|---|---|---|---|
| src/com/android/contacts/common/interactions/ImportExportDialogFragment.java:740-741 | When anrs are stored and `emptyAnr <= groupNumCount`, the record count becomes `numbers - emptyAnr`. `emptyAnr` may be negative, since it is decremented on every group. | 3 numbers, 2 spare anrs: the count is 3 - 2 = 1 record, which carries only 2 numbers, so one number is never exported. A spare count of -1 with 1 number gives 2 records, one holding no number. | Recompute only when the spare anrs are strictly fewer than ceil(n/2), with a negative spare count taken as 0. This is the least count whose records carry every number. | not executed; high | ExportToSim.GroupNumCountAsWritten, ExportToSim.AsWrittenCountLeavesANumberBehind | ExportToSim.GroupNumCount, ExportToSim.CorrectedCountExportsEverything |
