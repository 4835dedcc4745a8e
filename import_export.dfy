/**
 * The import/export dialog's decisions outside the export thread: which menu
 * entries are offered, which SIM slot is picked, which account a SIM contact
 * is filed under, the provider operations that copy one SIM contact into the
 * phone's database, and the comma-terminated email list of a contact.
 * Telephony state, resource flags and cursor contents are inputs.
 */
module ImportExportDialog {
  import opened JavaLang

  // ---------------------------------------------------------------------
  // Menu list (loadData)
  // ---------------------------------------------------------------------

  /** The string resources the menu adapter holds. */
  datatype MenuItem = ImportFromSim | ImportFromSdcard | ExportToSim | ExportToSdcard | ShareVisibleContacts

  /** The position of an entry in the fixed order loadData adds entries in. */
  function Rank(m: MenuItem): nat {
    match m
    case ImportFromSim => 0
    case ImportFromSdcard => 1
    case ExportToSim => 2
    case ExportToSdcard => 3
    case ShareVisibleContacts => 4
  }

  /** TelephonyManager.SIM_STATE_*: only READY matters here. */
  datatype SimState = Unknown | Absent | PinRequired | PukRequired | NetworkLocked | Ready

  /** What MSimTelephonyManager reports for one slot. */
  datatype Slot = Slot(hasIccCard: bool, simState: SimState)

  /**
   * The telephony state the dialog reads: whether multi-SIM is on, the slots
   * (their number is getPhoneCount), and the single-SIM hasIccCard answer.
   */
  datatype Telephony = Telephony(multiSimEnabled: bool, slots: seq<Slot>, defaultHasIccCard: bool)

  /** The boolean configuration resources loadData consults. */
  datatype MenuConfig = MenuConfig(
    allowSimImport: bool,
    allowImportFromSdcard: bool,
    allowExportToSdcard: bool,
    allowShareVisibleContacts: bool)

  /** The ArrayAdapter behind the dialog's list. */
  class MenuAdapter {
    var items: seq<MenuItem>

    constructor()
      ensures items == []
    {
      items := [];
    }

    method Clear()
      modifies this
      ensures items == []
    {
      items := [];
    }

    method Add(m: MenuItem)
      modifies this
      ensures items == old(items) + [m]
    {
      items := items + [m];
    }
  }

  /**
   * Whether a card is present: in multi-SIM mode, in some slot; otherwise the
   * single-SIM answer.
   */
  predicate AnyIccCard(tel: Telephony) {
    if tel.multiSimEnabled then exists i :: 0 <= i < |tel.slots| && tel.slots[i].hasIccCard
    else tel.defaultHasIccCard
  }

  /** Whether loadData adds an entry; hasContact is contactsAreAvailable or a database hit. */
  predicate Offered(m: MenuItem, cfg: MenuConfig, tel: Telephony, contactsAreAvailable: bool, databaseHasContacts: bool) {
    var hasContact := contactsAreAvailable || databaseHasContacts;
    match m
    case ImportFromSim => tel.defaultHasIccCard && cfg.allowSimImport
    case ImportFromSdcard => cfg.allowImportFromSdcard
    case ExportToSim => AnyIccCard(tel) && hasContact
    case ExportToSdcard => cfg.allowExportToSdcard && contactsAreAvailable && hasContact
    case ShareVisibleContacts => cfg.allowShareVisibleContacts && contactsAreAvailable
  }

  /** Every entry, in the order loadData considers them. */
  const AllItems: seq<MenuItem> := [ImportFromSim, ImportFromSdcard, ExportToSim, ExportToSdcard, ShareVisibleContacts]

  /** Include(m, b): the entry when b holds, nothing otherwise. */
  function Include(m: MenuItem, b: bool): seq<MenuItem> {
    if b then [m] else []
  }

  /** The entries of items that are offered, in their order. */
  function OfferedItems(items: seq<MenuItem>, cfg: MenuConfig, tel: Telephony, contactsAreAvailable: bool, databaseHasContacts: bool): seq<MenuItem> {
    if items == [] then []
    else
      var last := items[|items| - 1];
      OfferedItems(items[..|items| - 1], cfg, tel, contactsAreAvailable, databaseHasContacts)
      + Include(last, Offered(last, cfg, tel, contactsAreAvailable, databaseHasContacts))
  }

  /** The entries loadData leaves in the adapter. */
  function MenuItems(cfg: MenuConfig, tel: Telephony, contactsAreAvailable: bool, databaseHasContacts: bool): seq<MenuItem> {
    OfferedItems(AllItems, cfg, tel, contactsAreAvailable, databaseHasContacts)
  }

  predicate RankIncreasing(s: seq<MenuItem>) {
    forall i, j :: 0 <= i < j < |s| ==> Rank(s[i]) < Rank(s[j])
  }

  /** Filtering keeps the entries in rank order, none ranked above the last candidate. */
  lemma {:induction false} OfferedItemsInOrder(items: seq<MenuItem>, cfg: MenuConfig, tel: Telephony, ca: bool, db: bool)
    requires RankIncreasing(items)
    ensures var r := OfferedItems(items, cfg, tel, ca, db);
      RankIncreasing(r) && forall k :: 0 <= k < |r| ==> Rank(r[k]) <= Rank(items[|items| - 1])
  {
    if items != [] {
      var n := |items| - 1;
      var init := items[..n];
      var last := items[n];
      assert RankIncreasing(init) by {
        forall i, j | 0 <= i < j < |init| ensures Rank(init[i]) < Rank(init[j]) {
          assert init[i] == items[i] && init[j] == items[j];
        }
      }
      OfferedItemsInOrder(init, cfg, tel, ca, db);
      var front := OfferedItems(init, cfg, tel, ca, db);
      if n > 0 {
        assert Rank(init[n - 1]) < Rank(last);
      } else {
        assert front == [];
      }
      var r := front + Include(last, Offered(last, cfg, tel, ca, db));
      forall i, j | 0 <= i < j < |r| ensures Rank(r[i]) < Rank(r[j]) {
        if j >= |front| {
          assert r[j] == last;
          assert r[i] == front[i];
        }
      }
    }
  }

  /** Filtering keeps exactly the offered entries. */
  lemma {:induction false} OfferedItemsMembers(items: seq<MenuItem>, cfg: MenuConfig, tel: Telephony, ca: bool, db: bool, m: MenuItem)
    ensures m in OfferedItems(items, cfg, tel, ca, db) <==> m in items && Offered(m, cfg, tel, ca, db)
  {
    if items != [] {
      var n := |items| - 1;
      OfferedItemsMembers(items[..n], cfg, tel, ca, db, m);
      assert items == items[..n] + [items[n]];
    }
  }

  /**
   * The menu lists its entries in the fixed order without repetition, and
   * holds each entry exactly when that entry's condition holds. Importing from
   * the SIM looks at the single-SIM card answer even in multi-SIM mode, and
   * exporting to the SD card needs no database hit once contacts are available.
   */
  lemma MenuItemsOrderAndMembership(cfg: MenuConfig, tel: Telephony, contactsAreAvailable: bool, databaseHasContacts: bool)
    ensures var r := MenuItems(cfg, tel, contactsAreAvailable, databaseHasContacts);
      RankIncreasing(r)
      && (ImportFromSim in r <==> tel.defaultHasIccCard && cfg.allowSimImport)
      && (ImportFromSdcard in r <==> cfg.allowImportFromSdcard)
      && (ExportToSim in r <==> AnyIccCard(tel) && (contactsAreAvailable || databaseHasContacts))
      && (ExportToSdcard in r <==> cfg.allowExportToSdcard && contactsAreAvailable)
      && (ShareVisibleContacts in r <==> cfg.allowShareVisibleContacts && contactsAreAvailable)
  {
    var ca, db := contactsAreAvailable, databaseHasContacts;
    OfferedItemsInOrder(AllItems, cfg, tel, ca, db);
    OfferedItemsMembers(AllItems, cfg, tel, ca, db, ImportFromSim);
    OfferedItemsMembers(AllItems, cfg, tel, ca, db, ImportFromSdcard);
    OfferedItemsMembers(AllItems, cfg, tel, ca, db, ExportToSim);
    OfferedItemsMembers(AllItems, cfg, tel, ca, db, ExportToSdcard);
    OfferedItemsMembers(AllItems, cfg, tel, ca, db, ShareVisibleContacts);
  }

  /** The menu as five optional entries one after the other. */
  lemma MenuItemsUnfolded(cfg: MenuConfig, tel: Telephony, ca: bool, db: bool)
    ensures MenuItems(cfg, tel, ca, db)
      == Include(ImportFromSim, Offered(ImportFromSim, cfg, tel, ca, db))
       + Include(ImportFromSdcard, Offered(ImportFromSdcard, cfg, tel, ca, db))
       + Include(ExportToSim, Offered(ExportToSim, cfg, tel, ca, db))
       + Include(ExportToSdcard, Offered(ExportToSdcard, cfg, tel, ca, db))
       + Include(ShareVisibleContacts, Offered(ShareVisibleContacts, cfg, tel, ca, db))
  {
    var s1 := [ImportFromSim];
    var s2 := [ImportFromSim, ImportFromSdcard];
    var s3 := [ImportFromSim, ImportFromSdcard, ExportToSim];
    var s4 := [ImportFromSim, ImportFromSdcard, ExportToSim, ExportToSdcard];
    var s5 := AllItems;
    assert s1[..0] == [] && s2[..1] == s1 && s3[..2] == s2 && s4[..3] == s3 && s5[..4] == s4;
    assert OfferedItems(s1, cfg, tel, ca, db) == Include(ImportFromSim, Offered(ImportFromSim, cfg, tel, ca, db));
    assert OfferedItems(s2, cfg, tel, ca, db) == OfferedItems(s1, cfg, tel, ca, db) + Include(ImportFromSdcard, Offered(ImportFromSdcard, cfg, tel, ca, db));
    assert OfferedItems(s3, cfg, tel, ca, db) == OfferedItems(s2, cfg, tel, ca, db) + Include(ExportToSim, Offered(ExportToSim, cfg, tel, ca, db));
    assert OfferedItems(s4, cfg, tel, ca, db) == OfferedItems(s3, cfg, tel, ca, db) + Include(ExportToSdcard, Offered(ExportToSdcard, cfg, tel, ca, db));
  }

  /**
   * loadData: clears the adapter and adds the entries one by one. Whether a
   * card is present in multi-SIM mode is found by scanning the slots up to the
   * first one holding a card.
   */
  method LoadData(adapter: MenuAdapter, cfg: MenuConfig, tel: Telephony, contactsAreAvailable: bool, databaseHasContacts: bool)
    modifies adapter
    ensures adapter.items == MenuItems(cfg, tel, contactsAreAvailable, databaseHasContacts)
  {
    adapter.Clear();
    var hasIccCard := false;
    if tel.multiSimEnabled {
      var i := 0;
      while i < |tel.slots|
        invariant 0 <= i <= |tel.slots|
        invariant !hasIccCard
        invariant forall k :: 0 <= k < i ==> !tel.slots[k].hasIccCard
      {
        hasIccCard := tel.slots[i].hasIccCard;
        if hasIccCard {
          break;
        }
        i := i + 1;
      }
    } else {
      hasIccCard := tel.defaultHasIccCard;
    }
    assert hasIccCard == AnyIccCard(tel);
    ghost var ca, db := contactsAreAvailable, databaseHasContacts;
    MenuItemsUnfolded(cfg, tel, ca, db);

    if tel.defaultHasIccCard && cfg.allowSimImport {
      adapter.Add(ImportFromSim);
    }
    ghost var part := Include(ImportFromSim, Offered(ImportFromSim, cfg, tel, ca, db));
    assert adapter.items == part;
    if cfg.allowImportFromSdcard {
      adapter.Add(ImportFromSdcard);
    }
    part := part + Include(ImportFromSdcard, Offered(ImportFromSdcard, cfg, tel, ca, db));
    assert adapter.items == part;
    var hasContact := false;
    if contactsAreAvailable {
      hasContact := true;
    } else {
      hasContact := databaseHasContacts;
    }
    if hasIccCard && hasContact {
      adapter.Add(ExportToSim);
    }
    part := part + Include(ExportToSim, Offered(ExportToSim, cfg, tel, ca, db));
    assert adapter.items == part;
    if cfg.allowExportToSdcard {
      if contactsAreAvailable && hasContact {
        adapter.Add(ExportToSdcard);
      }
    }
    part := part + Include(ExportToSdcard, Offered(ExportToSdcard, cfg, tel, ca, db));
    assert adapter.items == part;
    if cfg.allowShareVisibleContacts {
      if contactsAreAvailable {
        adapter.Add(ShareVisibleContacts);
      }
    }
  }

  // ---------------------------------------------------------------------
  // SIM slot selection
  // ---------------------------------------------------------------------

  /** hasEnabledIccCard(i): the slot holds a card that is READY. */
  predicate SlotEnabled(slot: Slot) {
    slot.hasIccCard && slot.simState == Ready
  }

  /** The number of enabled slots. */
  function EnabledCount(slots: seq<Slot>): nat {
    if slots == [] then 0
    else EnabledCount(slots[..|slots| - 1]) + (if SlotEnabled(slots[|slots| - 1]) then 1 else 0)
  }

  /** More than one slot is enabled exactly when two different slots are. */
  lemma {:induction false} EnabledCountAboveOneIffTwoSlots(slots: seq<Slot>)
    ensures EnabledCount(slots) > 1 <==>
              exists i, j :: 0 <= i < j < |slots| && SlotEnabled(slots[i]) && SlotEnabled(slots[j])
    ensures EnabledCount(slots) > 0 <==> exists i :: 0 <= i < |slots| && SlotEnabled(slots[i])
  {
    if slots != [] {
      var init := slots[..|slots| - 1];
      var n := |slots| - 1;
      EnabledCountAboveOneIffTwoSlots(init);
      assert forall i :: 0 <= i < n ==> init[i] == slots[i];
      if EnabledCount(slots) > 1 && EnabledCount(init) <= 1 {
        var i :| 0 <= i < n && SlotEnabled(init[i]);
        assert SlotEnabled(slots[i]) && SlotEnabled(slots[n]);
      }
      if exists i, j :: 0 <= i < j < |slots| && SlotEnabled(slots[i]) && SlotEnabled(slots[j]) {
        var i, j :| 0 <= i < j < |slots| && SlotEnabled(slots[i]) && SlotEnabled(slots[j]);
        if j < n {
          assert SlotEnabled(init[i]) && SlotEnabled(init[j]);
        } else {
          assert SlotEnabled(init[i]);
        }
      }
      if exists i :: 0 <= i < |slots| && SlotEnabled(slots[i]) {
        var i :| 0 <= i < |slots| && SlotEnabled(slots[i]);
        if i < n {
          assert SlotEnabled(init[i]);
        }
      }
    }
  }

  /** hasMultiEnabledIccCard: counts the enabled slots and compares with one. */
  method HasMultiEnabledIccCard(slots: seq<Slot>) returns (r: bool)
    ensures r <==> exists i, j :: 0 <= i < j < |slots| && SlotEnabled(slots[i]) && SlotEnabled(slots[j])
  {
    var count := 0;
    var i := 0;
    while i < |slots|
      invariant 0 <= i <= |slots|
      invariant count == EnabledCount(slots[..i])
    {
      assert slots[..i + 1][..i] == slots[..i];
      if SlotEnabled(slots[i]) {
        count := count + 1;
      }
      i := i + 1;
    }
    assert slots[..i] == slots;
    EnabledCountAboveOneIffTwoSlots(slots);
    r := count > 1;
  }

  /**
   * hasEnabledIccCard(): in multi-SIM mode some slot is enabled; otherwise the
   * single-SIM card answer (its READY state is not consulted).
   */
  method HasEnabledIccCard(tel: Telephony) returns (r: bool)
    ensures tel.multiSimEnabled ==> (r <==> exists i :: 0 <= i < |tel.slots| && SlotEnabled(tel.slots[i]))
    ensures !tel.multiSimEnabled ==> r == tel.defaultHasIccCard
  {
    if tel.multiSimEnabled {
      var enabled := false;
      var i := 0;
      while i < |tel.slots|
        invariant 0 <= i <= |tel.slots|
        invariant !enabled
        invariant forall k :: 0 <= k < i ==> !SlotEnabled(tel.slots[k])
      {
        enabled := SlotEnabled(tel.slots[i]);
        if enabled {
          break;
        }
        i := i + 1;
      }
      r := enabled;
    } else {
      r := tel.defaultHasIccCard;
    }
  }

  /** getEnabledIccCard: the lowest enabled slot, or 0 when none is. */
  method GetEnabledIccCard(slots: seq<Slot>) returns (r: nat)
    ensures (exists i :: 0 <= i < |slots| && SlotEnabled(slots[i])) ==>
              r < |slots| && SlotEnabled(slots[r]) && forall k :: 0 <= k < r ==> !SlotEnabled(slots[k])
    ensures (forall i :: 0 <= i < |slots| ==> !SlotEnabled(slots[i])) ==> r == 0
  {
    var i := 0;
    while i < |slots|
      invariant 0 <= i <= |slots|
      invariant forall k :: 0 <= k < i ==> !SlotEnabled(slots[k])
    {
      if SlotEnabled(slots[i]) {
        return i;
      }
      i := i + 1;
    }
    return 0;
  }

  // ---------------------------------------------------------------------
  // Account names
  // ---------------------------------------------------------------------

  /** SimContactsConstants.SIM_NAME, SIM_NAME_1 and SIM_NAME_2. */
  datatype AccountName = SimName | SimName1 | SimName2

  /** getAccountNameBy: the SIM account a subscription's contacts are filed under, or null. */
  function GetAccountNameBy(multiSimEnabled: bool, subscription: int): (r: Option<AccountName>)
    ensures !multiSimEnabled ==> r == Some(SimName)
    ensures multiSimEnabled && subscription == 0 ==> r == Some(SimName1)
    ensures multiSimEnabled && subscription == 1 ==> r == Some(SimName2)
    ensures r.Some? <==> !multiSimEnabled || subscription == 0 || subscription == 1
  {
    if !multiSimEnabled then Some(SimName)
    else if subscription == 0 then Some(SimName1)
    else if subscription == 1 then Some(SimName2)
    else None
  }

  /**
   * In multi-SIM mode the two subscriptions get different accounts, neither
   * of them the single-SIM account.
   */
  lemma AccountNamesSeparateSubscriptions(s1: int, s2: int)
    requires GetAccountNameBy(true, s1).Some? && GetAccountNameBy(true, s2).Some?
    ensures GetAccountNameBy(true, s1) == GetAccountNameBy(true, s2) <==> s1 == s2
    ensures GetAccountNameBy(true, s1) != Some(SimName)
  {
  }

  // ---------------------------------------------------------------------
  // Copying one SIM contact into the provider (actuallyImportOneSimContact)
  // ---------------------------------------------------------------------

  // The ContentValues keys of a SIM record.
  const STR_TAG: string := "tag"
  const STR_NUMBER: string := "number"
  const STR_EMAILS: string := "emails"
  const STR_ANRS: string := "anrs"

  /** ContentValues.getAsString: the value under a key, null when absent. */
  function GetAsString(values: map<string, Option<string>>, key: string): (r: Option<string>)
    ensures key !in values ==> r.None?
    ensures key in values ==> r == values[key]
  {
    if key in values then values[key] else None
  }

  /** Phone.TYPE_MOBILE and Phone.TYPE_HOME. */
  datatype PhoneType = Mobile | Home

  /** The data row a provider insert carries (the email type is always mobile). */
  datatype DataValues =
    | StructuredName(displayName: Option<string>)
    | Phone(phoneType: PhoneType, number: Option<string>, isPrimary: bool)
    | Email(address: string)

  /**
   * A ContentProviderOperation of the batch: the raw contact in the SIM
   * account type with aggregation suspended, or a data row whose raw contact
   * id is the result of an earlier operation of the batch.
   */
  datatype Operation =
    | InsertRawContact(accountName: Option<AccountName>)
    | InsertData(rawContactBackReference: nat, row: DataValues)

  /** The operation list, or the NullPointerException the Java code raises. */
  datatype Batch = Operations(ops: seq<Operation>) | NullPointerException

  /** Splits a comma list, as the Java code does for a non-empty value; null otherwise. */
  function SplitIfPresent(s: Option<string>): (r: Option<seq<string>>)
    ensures r.Some? <==> !IsEmpty(s)
    ensures r.Some? ==> r.value == Split(s.value, ',')
  {
    if !IsEmpty(s) then Some(Split(s.value, ',')) else None
  }

  /** The elements of a possibly null array; none for null. */
  function Elements(a: Option<seq<string>>): seq<string> {
    if a.Some? then a.value else []
  }

  /** One home-number row per additional number, in order, each tied to operation 0. */
  function HomeNumberRows(anrs: seq<string>): (r: seq<Operation>)
    ensures |r| == |anrs|
    ensures forall k :: 0 <= k < |r| ==> r[k] == InsertData(0, Phone(Home, Some(anrs[k]), false))
  {
    seq(|anrs|, k requires 0 <= k < |anrs| => InsertData(0, Phone(Home, Some(anrs[k]), false)))
  }

  /** One email row per address, in order, each tied to operation 0. */
  function EmailRows(emails: seq<string>): (r: seq<Operation>)
    ensures |r| == |emails|
    ensures forall k :: 0 <= k < |r| ==> r[k] == InsertData(0, Email(emails[k]))
  {
    seq(|emails|, k requires 0 <= k < |emails| => InsertData(0, Email(emails[k])))
  }

  /**
   * The operation list in the order it is built: the raw contact, its name,
   * its primary mobile number, one home number per additional number and one
   * email row per address, every data row referring back to operation 0.
   */
  function OperationList(accountName: Option<AccountName>, name: Option<string>, number: Option<string>,
                         anrs: seq<string>, emails: seq<string>): (r: seq<Operation>)
    ensures |r| == 3 + |anrs| + |emails|
    ensures r[0] == InsertRawContact(accountName)
    ensures r[1] == InsertData(0, StructuredName(name))
    ensures r[2] == InsertData(0, Phone(Mobile, number, true))
    ensures forall k :: 0 <= k < |anrs| ==> r[3 + k] == InsertData(0, Phone(Home, Some(anrs[k]), false))
    ensures forall k :: 0 <= k < |emails| ==> r[3 + |anrs| + k] == InsertData(0, Email(emails[k]))
    ensures forall k :: 1 <= k < |r| ==> r[k].InsertData? && r[k].rawContactBackReference == 0
  {
    var r := [InsertRawContact(accountName), InsertData(0, StructuredName(name)), InsertData(0, Phone(Mobile, number, true))]
      + HomeNumberRows(anrs) + EmailRows(emails);
    assert forall k :: 0 <= k < |anrs| ==> r[3 + k] == HomeNumberRows(anrs)[k];
    assert forall k :: 0 <= k < |emails| ==> r[3 + |anrs| + k] == EmailRows(emails)[k];
    r
  }

  /** The loop over the additional numbers: appends one home-number row each. */
  method AppendHomeNumbers(operationList: seq<Operation>, anrArray: seq<string>) returns (r: seq<Operation>)
    ensures r == operationList + HomeNumberRows(anrArray)
  {
    r := operationList;
    var i := 0;
    while i < |anrArray|
      invariant 0 <= i <= |anrArray|
      invariant r == operationList + HomeNumberRows(anrArray[..i])
    {
      assert HomeNumberRows(anrArray[..i + 1]) == HomeNumberRows(anrArray[..i]) + [InsertData(0, Phone(Home, Some(anrArray[i]), false))];
      r := r + [InsertData(0, Phone(Home, Some(anrArray[i]), false))];
      i := i + 1;
    }
    assert anrArray[..i] == anrArray;
  }

  /** The loop over the email addresses: appends one email row each. */
  method AppendEmails(operationList: seq<Operation>, emailAddressArray: seq<string>) returns (r: seq<Operation>)
    ensures r == operationList + EmailRows(emailAddressArray)
  {
    r := operationList;
    var i := 0;
    while i < |emailAddressArray|
      invariant 0 <= i <= |emailAddressArray|
      invariant r == operationList + EmailRows(emailAddressArray[..i])
    {
      assert EmailRows(emailAddressArray[..i + 1]) == EmailRows(emailAddressArray[..i]) + [InsertData(0, Email(emailAddressArray[i]))];
      r := r + [InsertData(0, Email(emailAddressArray[i]))];
      i := i + 1;
    }
    assert emailAddressArray[..i] == emailAddressArray;
  }

  /**
   * The batch actuallyImportOneSimContact hands to applyBatch. The email loop
   * runs whenever the email value is non-null, over an array that was only
   * split when the value is non-empty.
   */
  function ImportOperations(values: map<string, Option<string>>, multiSimEnabled: bool, subscription: int): Batch {
    var emails := GetAsString(values, STR_EMAILS);
    var emailArray := SplitIfPresent(emails);
    var anrArray := SplitIfPresent(GetAsString(values, STR_ANRS));
    if emails.Some? && emailArray.None? then NullPointerException
    else
      Operations(OperationList(GetAccountNameBy(multiSimEnabled, subscription),
                               GetAsString(values, STR_TAG), GetAsString(values, STR_NUMBER),
                               Elements(anrArray), Elements(emailArray)))
  }

  /**
   * The import throws exactly when the email value is the empty string;
   * otherwise the batch holds one email row per comma-separated address and
   * one home number per comma-separated additional number.
   */
  lemma ImportOperationsThrowsOnlyOnEmptyEmails(values: map<string, Option<string>>, multiSimEnabled: bool, subscription: int)
    ensures var b := ImportOperations(values, multiSimEnabled, subscription);
              b.NullPointerException? <==> GetAsString(values, STR_EMAILS) == Some("")
    ensures GetAsString(values, STR_EMAILS) != Some("") ==>
              var anrs := GetAsString(values, STR_ANRS);
              var emails := GetAsString(values, STR_EMAILS);
              |ImportOperations(values, multiSimEnabled, subscription).ops|
                == 3 + (if IsEmpty(anrs) then 0 else |Split(anrs.value, ',')|)
                     + (if IsEmpty(emails) then 0 else |Split(emails.value, ',')|)
  {
  }

  /**
   * actuallyImportOneSimContact: reads the record's values, then appends the
   * operations to the list one at a time. Running the batch is left out.
   */
  method ActuallyImportOneSimContact(values: map<string, Option<string>>, multiSimEnabled: bool, subscription: int)
    returns (r: Batch)
    ensures r == ImportOperations(values, multiSimEnabled, subscription)
  {
    var name := GetAsString(values, STR_TAG);
    var phoneNumber := GetAsString(values, STR_NUMBER);
    var emailAddresses := GetAsString(values, STR_EMAILS);
    var anrs := GetAsString(values, STR_ANRS);
    var emailAddressArray := SplitIfPresent(emailAddresses);
    var anrArray := SplitIfPresent(anrs);
    var accountName := GetAccountNameBy(multiSimEnabled, subscription);

    var operationList: seq<Operation> := [];
    operationList := operationList + [InsertRawContact(accountName)];
    operationList := operationList + [InsertData(0, StructuredName(name))];
    operationList := operationList + [InsertData(0, Phone(Mobile, phoneNumber, true))];
    ghost var head := [InsertRawContact(accountName), InsertData(0, StructuredName(name)), InsertData(0, Phone(Mobile, phoneNumber, true))];
    assert operationList == head;
    if anrArray.Some? {
      operationList := AppendHomeNumbers(operationList, anrArray.value);
    } else {
      assert HomeNumberRows(Elements(anrArray)) == [];
      assert operationList == head + HomeNumberRows(Elements(anrArray));
    }
    ghost var withAnrs := operationList;
    assert withAnrs == head + HomeNumberRows(Elements(anrArray));
    if emailAddresses.Some? {
      if emailAddressArray.None? {
        return NullPointerException;
      }
      operationList := AppendEmails(operationList, emailAddressArray.value);
    } else {
      assert EmailRows(Elements(emailAddressArray)) == [];
      assert operationList == withAnrs + EmailRows(Elements(emailAddressArray));
    }
    assert operationList == head + HomeNumberRows(Elements(anrArray)) + EmailRows(Elements(emailAddressArray));
    r := Operations(operationList);
  }

  // ---------------------------------------------------------------------
  // getEmails and hasChinese
  // ---------------------------------------------------------------------

  /** StringBuffer.append(String): a null string is appended as "null". */
  function AppendForm(s: Option<string>): string {
    if s.Some? then s.value else "null"
  }

  /** The strings a cursor's rows append, in order. */
  function AppendForms(rows: seq<Option<string>>): (r: seq<string>)
    ensures |r| == |rows|
    ensures forall k :: 0 <= k < |r| ==> r[k] == AppendForm(rows[k])
  {
    if rows == [] then [] else [AppendForm(rows[0])] + AppendForms(rows[1..])
  }

  /**
   * getEmails: null for a null contact id or a null cursor; otherwise every
   * address of the cursor, each followed by a comma.
   */
  method GetEmails(contactId: Option<string>, emailCursor: Option<seq<Option<string>>>) returns (r: Option<string>)
    ensures contactId.None? || emailCursor.None? ==> r.None?
    ensures contactId.Some? && emailCursor.Some? ==> r == Some(JoinTerminated(AppendForms(emailCursor.value), ','))
  {
    if contactId.None? {
      return None;
    }
    if emailCursor.None? {
      return None;
    }
    var rows := emailCursor.value;
    var emails := "";
    var i := 0;
    while i < |rows|
      invariant 0 <= i <= |rows|
      invariant emails == JoinTerminated(AppendForms(rows)[..i], ',')
    {
      assert AppendForms(rows)[..i + 1][..i] == AppendForms(rows)[..i];
      emails := emails + AppendForm(rows[i]);
      emails := emails + ",";
      i := i + 1;
    }
    assert AppendForms(rows)[..i] == AppendForms(rows);
    r := Some(emails);
  }

  /**
   * The list getEmails builds splits back into the addresses, when there is
   * at least one, none is null or holds a comma, and the last is not empty.
   */
  lemma GetEmailsSplitsBack(rows: seq<Option<string>>)
    requires rows != []
    requires forall k :: 0 <= k < |rows| ==> rows[k].Some? && ',' !in rows[k].value
    requires rows[|rows| - 1].value != ""
    ensures |Split(JoinTerminated(AppendForms(rows), ','), ',')| == |rows|
    ensures forall k :: 0 <= k < |rows| ==> Split(JoinTerminated(AppendForms(rows), ','), ',')[k] == rows[k].value
  {
    SplitOfJoin(AppendForms(rows), ',');
  }

  /**
   * hasChinese: the name is non-null and its UTF-8 encoding takes more bytes
   * than it has UTF-16 units, which happens exactly when some character of it
   * is not ASCII.
   */
  function HasChinese(name: Option<string>): (r: bool)
    ensures r <==> name.Some? && exists i :: 0 <= i < |name.value| && name.value[i] as int >= 0x80
  {
    if name.Some? then
      EncodedLengthVsLength(name.value);
      EncodedLength(name.value) > Length(name.value)
    else false
  }
}
