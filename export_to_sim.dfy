/**
 * ExportToSimThread: copies selected contacts onto a SIM card. For each
 * contact it collects phone numbers and emails under the card's spare-slot
 * budgets, works out how many SIM records the contact needs, and hands out
 * one primary number, one additional number (anr) and one email per record
 * until the card's free count runs out. The card, the provider queries and
 * the user's cancel button are inputs.
 */
module ExportToSim {
  import opened JavaLang
  import opened ImportExportDialog

  // Name length limits of a SIM record.
  const CONTACT_NAME_MAX_LENGTH_NOT_CHN: nat := 14
  const CONTACT_NAME_MAX_LENGTH_CHN: nat := 6

  /**
   * The toast messages of the thread: TOAST_EXPORT_FAILED (0),
   * TOAST_EXPORT_FINISHED (1), TOAST_SIM_CARD_FULL (2),
   * TOAST_CONTACT_NAME_TOO_LONG (3), TOAST_EXPORT_CANCELED (4, with the count
   * of records inserted) and TOAST_EXPORT_NO_PHONE_OR_EMAIL (5, with the
   * contact's name).
   */
  datatype Toast =
    | ExportFailed
    | ExportFinished
    | SimCardFull
    | ContactNameTooLong
    | ExportCanceled(insertCount: int)
    | NoPhoneOrEmail(name: Option<string>)

  /** The MIME types the data query can return; only three matter. */
  datatype Mime = PhoneMime | StructuredNameMime | EmailMime | OtherMime

  /** One row of a contact's data query: its MIME type and DATA1. */
  datatype DataRow = DataRow(mimeType: Mime, data1: Option<string>)

  /** The arguments of one MoreContactUtils.insertToCard call. */
  datatype SimRecord = SimRecord(name: Option<string>, number: Option<string>, email: Option<string>, anr: Option<string>)

  /**
   * What the card answers to an insert: a record, or null; on null the thread
   * asks whether the card is full (it has ADN records and no free one), and
   * if not, whether airplane mode is on.
   */
  datatype InsertResult = Inserted | NotInserted(cardFull: bool, airplaneMode: bool)

  /** MoreContactUtils.insertToCard, answering the n-th insert of the run. */
  type SimInserter = (nat, SimRecord) -> InsertResult

  /**
   * What MoreContactUtils reports about the card when the thread starts: its
   * free record count, whether records carry an anr and an email, and how many
   * spare anr and email slots it has.
   */
  datatype SimConfig = SimConfig(freeCount: int, canSaveAnr: bool, canSaveEmail: bool, spareAnr: int, spareEmail: int)

  // ---------------------------------------------------------------------
  // Collecting one contact's numbers and emails
  // ---------------------------------------------------------------------

  /** The contact's name, its collected numbers and emails, and the two budgets. */
  datatype Gathered = Gathered(name: Option<string>, numbers: seq<string>, emails: seq<string>, emptyNumber: int, emptyEmail: int)

  /**
   * One data row: a non-empty number is kept while the number budget, read
   * before it is decremented, is positive; a name row replaces the name; a
   * non-empty email is kept likewise under the email budget, when the card
   * stores emails.
   */
  function CollectRow(canSaveEmail: bool, g: Gathered, row: DataRow): Gathered {
    var g1 :=
      if row.mimeType == PhoneMime then
        if IsEmpty(row.data1) then g
        else g.(numbers := if g.emptyNumber > 0 then g.numbers + [row.data1.value] else g.numbers,
                emptyNumber := g.emptyNumber - 1)
      else if row.mimeType == StructuredNameMime then g.(name := row.data1)
      else g;
    if canSaveEmail && row.mimeType == EmailMime && !IsEmpty(row.data1) then
      g1.(emails := if g1.emptyEmail > 0 then g1.emails + [row.data1.value] else g1.emails,
          emptyEmail := g1.emptyEmail - 1)
    else g1
  }

  /** The cursor loop over a contact's data rows. */
  function Collect(canSaveEmail: bool, g: Gathered, rows: seq<DataRow>): Gathered
    decreases |rows|
  {
    if rows == [] then g else Collect(canSaveEmail, CollectRow(canSaveEmail, g, rows[0]), rows[1..])
  }

  /** The row's number when it is a phone row with a non-empty DATA1. */
  function RowPhone(row: DataRow): seq<string> {
    if row.mimeType == PhoneMime && !IsEmpty(row.data1) then [row.data1.value] else []
  }

  /** The row's address when it is an email row with a non-empty DATA1. */
  function RowEmail(row: DataRow): seq<string> {
    if row.mimeType == EmailMime && !IsEmpty(row.data1) then [row.data1.value] else []
  }

  /** The non-empty phone numbers among the rows, in order. */
  function PhoneValues(rows: seq<DataRow>): seq<string> {
    if rows == [] then [] else RowPhone(rows[0]) + PhoneValues(rows[1..])
  }

  /** The non-empty email addresses among the rows, in order. */
  function EmailValues(rows: seq<DataRow>): seq<string> {
    if rows == [] then [] else RowEmail(rows[0]) + EmailValues(rows[1..])
  }

  /** The first n elements of s, or all of them, or none when n is not positive. */
  function Take(s: seq<string>, n: int): (r: seq<string>)
    ensures |r| <= |s| && r == s[..|r|]
    ensures |r| == if n <= 0 then 0 else if n >= |s| then |s| else n
  {
    if n <= 0 then [] else if n >= |s| then s else s[..n]
  }

  /** Taking across a front of at most one element. */
  lemma TakeAfterFront(a: seq<string>, s: seq<string>, n: int)
    requires |a| <= 1
    ensures Take(a + s, n) == Take(a, n) + Take(s, n - |a|)
  {
    if |a| == 1 && n > 0 {
      var x, y := Take(a + s, n), Take(a, n) + Take(s, n - 1);
      assert |x| == |y|;
      forall i | 0 <= i < |x| ensures x[i] == y[i] {
        if i > 0 {
          assert x[i] == s[i - 1];
        }
      }
    }
  }

  /** One row moves the number part by at most one kept number. */
  lemma CollectRowNumbers(canSaveEmail: bool, g: Gathered, row: DataRow)
    ensures var g1 := CollectRow(canSaveEmail, g, row);
      g1.numbers == g.numbers + Take(RowPhone(row), g.emptyNumber)
      && g1.emptyNumber == g.emptyNumber - |RowPhone(row)|
  {
  }

  /** One row moves the email part by at most one kept address. */
  lemma CollectRowEmails(canSaveEmail: bool, g: Gathered, row: DataRow)
    ensures var g1 := CollectRow(canSaveEmail, g, row);
      g1.emails == g.emails + (if canSaveEmail then Take(RowEmail(row), g.emptyEmail) else [])
      && g1.emptyEmail == g.emptyEmail - (if canSaveEmail then |RowEmail(row)| else 0)
  {
  }

  /**
   * Collecting keeps the first numbers of the contact, as many as the number
   * budget allows, and counts the budget down once per non-empty number.
   */
  lemma {:induction false} CollectKeepsBudgetedNumbers(canSaveEmail: bool, g: Gathered, rows: seq<DataRow>)
    ensures var r := Collect(canSaveEmail, g, rows);
      r.numbers == g.numbers + Take(PhoneValues(rows), g.emptyNumber)
      && r.emptyNumber == g.emptyNumber - |PhoneValues(rows)|
    decreases |rows|
  {
    if rows != [] {
      var g1 := CollectRow(canSaveEmail, g, rows[0]);
      CollectRowNumbers(canSaveEmail, g, rows[0]);
      CollectKeepsBudgetedNumbers(canSaveEmail, g1, rows[1..]);
      TakeAfterFront(RowPhone(rows[0]), PhoneValues(rows[1..]), g.emptyNumber);
    }
  }

  /**
   * Collecting keeps the first email addresses, as many as the email budget
   * allows, when the card stores emails, and none otherwise.
   */
  lemma {:induction false} CollectKeepsBudgetedEmails(canSaveEmail: bool, g: Gathered, rows: seq<DataRow>)
    ensures var r := Collect(canSaveEmail, g, rows);
      r.emails == g.emails + (if canSaveEmail then Take(EmailValues(rows), g.emptyEmail) else [])
      && r.emptyEmail == g.emptyEmail - (if canSaveEmail then |EmailValues(rows)| else 0)
    decreases |rows|
  {
    if rows != [] {
      var g1 := CollectRow(canSaveEmail, g, rows[0]);
      CollectRowEmails(canSaveEmail, g, rows[0]);
      CollectKeepsBudgetedEmails(canSaveEmail, g1, rows[1..]);
      var r := Collect(canSaveEmail, g1, rows[1..]);
      assert r == Collect(canSaveEmail, g, rows);
      if canSaveEmail {
        TakeAfterFront(RowEmail(rows[0]), EmailValues(rows[1..]), g.emptyEmail);
        assert EmailValues(rows) == RowEmail(rows[0]) + EmailValues(rows[1..]);
      }
    }
  }

  // ---------------------------------------------------------------------
  // Packing one contact into SIM records
  // ---------------------------------------------------------------------

  /** The numbers and emails of a contact not yet handed out. */
  datatype Pending = Pending(numbers: seq<string>, emails: seq<string>)

  /**
   * The thread's counters and what it has produced so far: the free count,
   * the spare anr count, the records inserted, the two stop flags, every
   * record offered to the card, the records the card took, and the toasts.
   */
  datatype Progress = Progress(
    freeSimCount: int,
    emptyAnr: int,
    insertCount: int,
    simFull: bool,
    airplaneMode: bool,
    offered: seq<SimRecord>,
    exported: seq<SimRecord>,
    toasts: seq<Toast>)

  /** ArrayList.remove(0) when the list is not empty, null otherwise. */
  function PopFront(s: seq<string>): (r: (Option<string>, seq<string>))
    ensures s == [] ==> r == (None, [])
    ensures s != [] ==> r == (Some(s[0]), s[1..])
  {
    if s == [] then (None, s) else (Some(s[0]), s[1..])
  }

  /**
   * The record of one group: the next number as primary; the one after as anr
   * when the card stores anrs and the spare anr count is still positive; the
   * next email when the card stores emails.
   */
  function Handout(cfg: SimConfig, name: Option<string>, emptyAnr: int, pend: Pending): (SimRecord, Pending) {
    var (num, ns) := PopFront(pend.numbers);
    var (anr, ns2) := if cfg.canSaveAnr && emptyAnr > 0 then PopFront(ns) else (None, ns);
    var (email, es) := if cfg.canSaveEmail then PopFront(pend.emails) else (None, pend.emails);
    (SimRecord(name, num, email, anr), Pending(ns2, es))
  }

  /** The numbers a record carries, primary first. */
  function RecordNumbers(r: SimRecord): seq<string> {
    (if r.number.Some? then [r.number.value] else []) + (if r.anr.Some? then [r.anr.value] else [])
  }

  function RecordEmails(r: SimRecord): seq<string> {
    if r.email.Some? then [r.email.value] else []
  }

  /** A record takes its numbers and its email from the front of the pending lists. */
  lemma HandoutTakesFromFront(cfg: SimConfig, name: Option<string>, emptyAnr: int, pend: Pending)
    ensures var (rec, rest) := Handout(cfg, name, emptyAnr, pend);
      RecordNumbers(rec) + rest.numbers == pend.numbers
      && RecordEmails(rec) + rest.emails == pend.emails
      && rec.name == name
      && |RecordNumbers(rec)| == (if pend.numbers == [] then 0
                                  else if cfg.canSaveAnr && emptyAnr > 0 && |pend.numbers| > 1 then 2 else 1)
      && |RecordEmails(rec)| == (if cfg.canSaveEmail && pend.emails != [] then 1 else 0)
  {
    var (rec, rest) := Handout(cfg, name, emptyAnr, pend);
    if pend.numbers != [] {
      assert pend.numbers == [pend.numbers[0]] + pend.numbers[1..];
      if cfg.canSaveAnr && emptyAnr > 0 && |pend.numbers| > 1 {
        assert pend.numbers[1..] == [pend.numbers[1]] + pend.numbers[2..];
      }
    }
    if cfg.canSaveEmail && pend.emails != [] {
      assert pend.emails == [pend.emails[0]] + pend.emails[1..];
    }
  }

  /** emptyAnr-- in the test: decremented on every group when the card stores anrs. */
  function NextEmptyAnr(cfg: SimConfig, emptyAnr: int): int {
    if cfg.canSaveAnr then emptyAnr - 1 else emptyAnr
  }

  /**
   * One pass of the group loop: with no free record left the card is full;
   * otherwise a record is handed out and offered to the card. A success counts
   * the insert and uses one free record; a failure on a full card or in
   * airplane mode stops the thread; any other failure moves on.
   */
  function GroupStep(cfg: SimConfig, insertToCard: SimInserter, name: Option<string>, p: Progress, pend: Pending): (Progress, Pending) {
    if p.freeSimCount > 0 then
      var (rec, rest) := Handout(cfg, name, p.emptyAnr, pend);
      var p1 := p.(emptyAnr := NextEmptyAnr(cfg, p.emptyAnr), offered := p.offered + [rec]);
      match insertToCard(|p.offered|, rec)
      case Inserted =>
        (p1.(insertCount := p1.insertCount + 1, freeSimCount := p1.freeSimCount - 1, exported := p1.exported + [rec]), rest)
      case NotInserted(cardFull, airplaneMode) =>
        if cardFull then (p1.(simFull := true, toasts := p1.toasts + [SimCardFull]), rest)
        else if airplaneMode then (p1.(airplaneMode := true, toasts := p1.toasts + [ExportFailed]), rest)
        else (p1, rest)
    else
      (p.(simFull := true, toasts := p.toasts + [SimCardFull]), pend)
  }

  /** The group loop: at most `groups` passes, stopping once a stop flag is set. */
  function PackGroups(cfg: SimConfig, insertToCard: SimInserter, name: Option<string>, groups: nat, p: Progress, pend: Pending): (Progress, Pending)
    decreases groups
  {
    if groups == 0 || p.simFull || p.airplaneMode then (p, pend)
    else
      var (p1, pend1) := GroupStep(cfg, insertToCard, name, p, pend);
      PackGroups(cfg, insertToCard, name, groups - 1, p1, pend1)
  }

  /** A failed insert on a card that is not full, outside airplane mode, uses no capacity and goes on. */
  lemma FailedInsertKeepsCapacity(cfg: SimConfig, insertToCard: SimInserter, name: Option<string>, p: Progress, pend: Pending)
    requires p.freeSimCount > 0
    requires insertToCard(|p.offered|, Handout(cfg, name, p.emptyAnr, pend).0) == NotInserted(false, false)
    ensures var (p1, _) := GroupStep(cfg, insertToCard, name, p, pend);
      p1.freeSimCount == p.freeSimCount && p1.insertCount == p.insertCount && p1.exported == p.exported
      && p1.simFull == p.simFull && p1.airplaneMode == p.airplaneMode && p1.toasts == p.toasts
      && |p1.offered| == |p.offered| + 1
  {
  }

  // ---------------------------------------------------------------------
  // How many records a contact needs
  // ---------------------------------------------------------------------

  /** 1 when the name is non-null and not empty. */
  function NameCount(name: Option<string>): nat {
    if name.Some? && name.value != "" then 1 else 0
  }

  /** ceil(n / k) for the one or two numbers a record can carry. */
  function NumbersPerRecordCeil(canSaveAnr: bool, n: nat): nat {
    var phoneCountInOneSimContact := if canSaveAnr then 2 else 1;
    if n % phoneCountInOneSimContact != 0 then n / phoneCountInOneSimContact + 1 else n / phoneCountInOneSimContact
  }

  /**
   * The record count for n numbers as the thread computes it: ceil(n / k);
   * then, when anrs are stored and the spare anr count is at most that,
   * n minus the spare anr count.
   */
  function GroupNumCountAsWritten(canSaveAnr: bool, emptyAnr: int, n: nat): (r: int)
    ensures r >= 0
    ensures !canSaveAnr ==> r == n
    ensures emptyAnr >= 0 ==> r <= n
    ensures canSaveAnr && emptyAnr < 0 ==> r > n
  {
    var groupNumCount := NumbersPerRecordCeil(canSaveAnr, n);
    if canSaveAnr && emptyAnr <= groupNumCount then n - emptyAnr else groupNumCount
  }

  /**
   * The record count for n numbers with the spare anr count taken as zero when
   * it has gone negative, and recomputed only when it is strictly short.
   */
  function GroupNumCount(canSaveAnr: bool, emptyAnr: int, n: nat): (r: nat)
    ensures r <= n
    ensures !canSaveAnr ==> r == n
    ensures canSaveAnr ==> n <= 2 * r
  {
    var groupNumCount := NumbersPerRecordCeil(canSaveAnr, n);
    assert canSaveAnr ==> 2 * groupNumCount == n || 2 * groupNumCount == n + 1;
    var spare := if emptyAnr > 0 then emptyAnr else 0;
    if canSaveAnr && spare < groupNumCount then n - spare else groupNumCount
  }

  /** max(emails, max(nameCount, groupNumCount)). */
  function GroupCount(emailCount: nat, nameCount: nat, groupNumCount: int): nat {
    var m := if nameCount >= groupNumCount then nameCount else groupNumCount;
    if emailCount >= m then emailCount else m
  }

  /**
   * How many numbers `groups` records carry: one primary each, plus one anr
   * on each of the first records while the spare anr count lasts.
   */
  function Capacity(canSaveAnr: bool, emptyAnr: int, groups: nat): nat {
    var spare := if emptyAnr > 0 then emptyAnr else 0;
    groups + (if canSaveAnr then (if groups <= spare then groups else spare) else 0)
  }

  /** More records carry at least as many numbers. */
  lemma CapacityMonotone(canSaveAnr: bool, emptyAnr: int, g1: nat, g2: nat)
    requires g1 <= g2
    ensures Capacity(canSaveAnr, emptyAnr, g1) <= Capacity(canSaveAnr, emptyAnr, g2)
  {
  }

  /** The corrected count is the least number of records that carries every number. */
  lemma GroupNumCountIsLeastSufficient(canSaveAnr: bool, emptyAnr: int, n: nat)
    ensures Capacity(canSaveAnr, emptyAnr, GroupNumCount(canSaveAnr, emptyAnr, n)) >= n
    ensures forall g: nat :: g < GroupNumCount(canSaveAnr, emptyAnr, n) ==> Capacity(canSaveAnr, emptyAnr, g) < n
  {
    var c := NumbersPerRecordCeil(canSaveAnr, n);
    if canSaveAnr {
      assert 2 * c == n || 2 * c == n + 1;
    }
  }

  /**
   * The count as written differs from the corrected one exactly when anrs are
   * stored and either the spare anr count has gone negative, or the number
   * count is odd and the spare anr count equals ceil(n / 2).
   */
  lemma GroupNumCountAsWrittenDiffers(canSaveAnr: bool, emptyAnr: int, n: nat)
    ensures var differs := GroupNumCountAsWritten(canSaveAnr, emptyAnr, n) != GroupNumCount(canSaveAnr, emptyAnr, n);
      differs <==> canSaveAnr && (emptyAnr < 0 || (n % 2 == 1 && emptyAnr == n / 2 + 1))
  {
    if canSaveAnr {
      var c := NumbersPerRecordCeil(canSaveAnr, n);
      assert 2 * c == n || 2 * c == n + 1;
    }
  }

  /** As written, three numbers with two spare anrs get one record, which carries only two. */
  lemma GroupNumCountAsWrittenDropsANumber()
    ensures GroupNumCountAsWritten(true, 2, 3) == 1
    ensures Capacity(true, 2, 1) == 2 < 3
    ensures GroupNumCount(true, 2, 3) == 2 && Capacity(true, 2, 2) == 4
  {
  }

  /**
   * As written, one number with a spare anr count driven to -1 gets two
   * records although one carries it: the second record holds no number.
   */
  lemma GroupNumCountAsWrittenAddsARecord()
    ensures GroupNumCountAsWritten(true, -1, 1) == 2
    ensures Capacity(true, -1, 1) == 1
    ensures GroupNumCount(true, -1, 1) == 1
  {
  }

  // ---------------------------------------------------------------------
  // The whole run
  // ---------------------------------------------------------------------

  /** The number and email budgets, shared by all contacts of the run. */
  datatype Budgets = Budgets(emptyNumber: int, emptyEmail: int)

  /** Which record count a run uses: the one the thread computes, or the corrected one. */
  datatype GroupCounting = AsWritten | Corrected

  function GroupNumCountBy(counting: GroupCounting, canSaveAnr: bool, emptyAnr: int, n: nat): int {
    match counting
    case AsWritten => GroupNumCountAsWritten(canSaveAnr, emptyAnr, n)
    case Corrected => GroupNumCount(canSaveAnr, emptyAnr, n)
  }

  /**
   * One contact: collect its data; skip it with a toast when it has neither
   * a number nor an email; otherwise run the group loop over as many records
   * as the chosen count asks for.
   */
  function ExportContact(cfg: SimConfig, insertToCard: SimInserter, counting: GroupCounting,
                         b: Budgets, p: Progress, rows: seq<DataRow>): (Budgets, Progress) {
    var g := Collect(cfg.canSaveEmail, Gathered(Some(""), [], [], b.emptyNumber, b.emptyEmail), rows);
    var b1 := Budgets(g.emptyNumber, g.emptyEmail);
    if |g.numbers| == 0 && |g.emails| == 0 then
      (b1, p.(toasts := p.toasts + [NoPhoneOrEmail(g.name)]))
    else
      var groups := GroupCount(|g.emails|, NameCount(g.name), GroupNumCountBy(counting, cfg.canSaveAnr, p.emptyAnr, |g.numbers|));
      (b1, PackGroups(cfg, insertToCard, g.name, groups, p, Pending(g.numbers, g.emails)).0)
  }

  /** The user has pressed cancel by the time k contacts have been taken. */
  predicate Canceled(cancelAt: Option<nat>, k: nat) {
    cancelAt.Some? && cancelAt.value <= k
  }

  /**
   * The contact loop from the k-th contact: it runs while contacts remain,
   * the user has not canceled and airplane mode was not seen, and stops
   * right after a contact that found the card full. Its second result is the
   * number of contacts taken.
   */
  function ExportFrom(cfg: SimConfig, insertToCard: SimInserter, counting: GroupCounting, cancelAt: Option<nat>,
                      contacts: seq<seq<DataRow>>, k: nat, b: Budgets, p: Progress): (Progress, nat)
    requires k <= |contacts|
    decreases |contacts| - k
  {
    if k < |contacts| && !Canceled(cancelAt, k) && !p.airplaneMode then
      var (b1, p1) := ExportContact(cfg, insertToCard, counting, b, p, contacts[k]);
      if p1.simFull then (p1, k + 1) else ExportFrom(cfg, insertToCard, counting, cancelAt, contacts, k + 1, b1, p1)
    else (p, k)
  }

  function InitialProgress(cfg: SimConfig): Progress {
    Progress(cfg.freeCount, cfg.spareAnr, 0, false, false, [], [], [])
  }

  /** emptyNumber starts as the free count plus the spare anr count. */
  function InitialBudgets(cfg: SimConfig): Budgets {
    Budgets(cfg.freeCount + cfg.spareAnr, cfg.spareEmail)
  }

  /** The contact loop of run() over the selected contacts; a null list takes none. */
  function ExportLoop(cfg: SimConfig, insertToCard: SimInserter, counting: GroupCounting, cancelAt: Option<nat>,
                      contactList: Option<seq<seq<DataRow>>>): (Progress, nat) {
    if contactList.Some? then ExportFrom(cfg, insertToCard, counting, cancelAt, contactList.value, 0, InitialBudgets(cfg), InitialProgress(cfg))
    else (InitialProgress(cfg), 0)
  }

  /**
   * run() for the selected contacts: the contact loop, then, unless the card
   * was full or airplane mode was seen, a canceled toast with the insert
   * count or a finished toast.
   */
  function Export(cfg: SimConfig, insertToCard: SimInserter, counting: GroupCounting, cancelAt: Option<nat>,
                  contactList: Option<seq<seq<DataRow>>>): Progress {
    var (p, k) := ExportLoop(cfg, insertToCard, counting, cancelAt, contactList);
    if !p.airplaneMode && !p.simFull then
      p.(toasts := p.toasts + [if Canceled(cancelAt, k) then ExportCanceled(p.insertCount) else ExportFinished])
    else p
  }

  // ---------------------------------------------------------------------
  // What the run keeps
  // ---------------------------------------------------------------------

  /**
   * Counting: every insert uses one free record, the free count is never
   * pushed below zero (nor below its start), and the records the card took
   * are as many as the inserts counted.
   */
  predicate Accounted(initialFree: int, p: Progress) {
    p.insertCount + p.freeSimCount == initialFree
    && p.freeSimCount >= (if initialFree < 0 then initialFree else 0)
    && |p.exported| == p.insertCount
  }

  /**
   * Toasts: while running, only skipped-contact toasts; once stopped, exactly
   * one of the two stop flags, announced by the last toast.
   */
  predicate ToastsSoFar(p: Progress) {
    (forall i :: 0 <= i < |p.toasts| - 1 ==> p.toasts[i].NoPhoneOrEmail?)
    && (!p.simFull && !p.airplaneMode ==> forall i :: 0 <= i < |p.toasts| ==> p.toasts[i].NoPhoneOrEmail?)
    && (p.simFull ==> !p.airplaneMode && |p.toasts| > 0 && p.toasts[|p.toasts| - 1] == SimCardFull)
    && (p.airplaneMode ==> |p.toasts| > 0 && p.toasts[|p.toasts| - 1] == ExportFailed)
  }

  lemma GroupStepKeeps(cfg: SimConfig, insertToCard: SimInserter, name: Option<string>, p: Progress, pend: Pending, initialFree: int)
    requires Accounted(initialFree, p) && ToastsSoFar(p)
    requires !p.simFull && !p.airplaneMode
    ensures var (p1, _) := GroupStep(cfg, insertToCard, name, p, pend);
      Accounted(initialFree, p1) && ToastsSoFar(p1)
  {
  }

  lemma {:induction false} PackGroupsKeeps(cfg: SimConfig, insertToCard: SimInserter, name: Option<string>, groups: nat, p: Progress, pend: Pending, initialFree: int)
    requires Accounted(initialFree, p) && ToastsSoFar(p)
    ensures var (p1, _) := PackGroups(cfg, insertToCard, name, groups, p, pend);
      Accounted(initialFree, p1) && ToastsSoFar(p1)
    decreases groups
  {
    if groups > 0 && !p.simFull && !p.airplaneMode {
      var (p1, pend1) := GroupStep(cfg, insertToCard, name, p, pend);
      GroupStepKeeps(cfg, insertToCard, name, p, pend, initialFree);
      PackGroupsKeeps(cfg, insertToCard, name, groups - 1, p1, pend1, initialFree);
    }
  }

  /**
   * The toasts the group loop adds: none, or one stop toast (card full or
   * export failed) once a stop flag is set.
   */
  lemma {:induction false} PackGroupsToasts(cfg: SimConfig, insertToCard: SimInserter, name: Option<string>, groups: nat, p: Progress, pend: Pending)
    requires !p.simFull && !p.airplaneMode
    ensures var (p1, _) := PackGroups(cfg, insertToCard, name, groups, p, pend);
      p1.toasts == p.toasts
      || (p1.toasts == p.toasts + [SimCardFull] && p1.simFull)
      || (p1.toasts == p.toasts + [ExportFailed] && p1.airplaneMode)
    decreases groups
  {
    if groups > 0 {
      var (p1, pend1) := GroupStep(cfg, insertToCard, name, p, pend);
      if !p1.simFull && !p1.airplaneMode {
        PackGroupsToasts(cfg, insertToCard, name, groups - 1, p1, pend1);
      }
    }
  }

  /**
   * A contact with neither a number nor an email is skipped: only its toast
   * and the collection budgets change, and nothing is offered to the card.
   * Any other contact gets no skipped-contact toast.
   */
  lemma ExportContactSkipsEmpty(cfg: SimConfig, insertToCard: SimInserter, counting: GroupCounting,
                                b: Budgets, p: Progress, rows: seq<DataRow>)
    requires !p.simFull && !p.airplaneMode
    ensures var g := Collect(cfg.canSaveEmail, Gathered(Some(""), [], [], b.emptyNumber, b.emptyEmail), rows);
      var (b1, p1) := ExportContact(cfg, insertToCard, counting, b, p, rows);
      b1 == Budgets(g.emptyNumber, g.emptyEmail)
      && (|g.numbers| == 0 && |g.emails| == 0 ==>
            p1 == p.(toasts := p.toasts + [NoPhoneOrEmail(g.name)])
            && p1.offered == p.offered && p1.exported == p.exported
            && p1.freeSimCount == p.freeSimCount && p1.insertCount == p.insertCount && p1.emptyAnr == p.emptyAnr)
      && (|g.numbers| > 0 || |g.emails| > 0 ==>
            |p.toasts| <= |p1.toasts| && p1.toasts[..|p.toasts|] == p.toasts
            && forall i :: |p.toasts| <= i < |p1.toasts| ==> !p1.toasts[i].NoPhoneOrEmail?)
  {
    var g := Collect(cfg.canSaveEmail, Gathered(Some(""), [], [], b.emptyNumber, b.emptyEmail), rows);
    if |g.numbers| > 0 || |g.emails| > 0 {
      var groups := GroupCount(|g.emails|, NameCount(g.name), GroupNumCountBy(counting, cfg.canSaveAnr, p.emptyAnr, |g.numbers|));
      PackGroupsToasts(cfg, insertToCard, g.name, groups, p, Pending(g.numbers, g.emails));
    }
  }

  lemma ExportContactKeeps(cfg: SimConfig, insertToCard: SimInserter, counting: GroupCounting,
                           b: Budgets, p: Progress, rows: seq<DataRow>, initialFree: int)
    requires Accounted(initialFree, p) && ToastsSoFar(p)
    requires !p.simFull && !p.airplaneMode
    ensures var (_, p1) := ExportContact(cfg, insertToCard, counting, b, p, rows);
      Accounted(initialFree, p1) && ToastsSoFar(p1)
  {
    var g := Collect(cfg.canSaveEmail, Gathered(Some(""), [], [], b.emptyNumber, b.emptyEmail), rows);
    if !(|g.numbers| == 0 && |g.emails| == 0) {
      var groups := GroupCount(|g.emails|, NameCount(g.name), GroupNumCountBy(counting, cfg.canSaveAnr, p.emptyAnr, |g.numbers|));
      PackGroupsKeeps(cfg, insertToCard, g.name, groups, p, Pending(g.numbers, g.emails), initialFree);
    }
  }

  lemma {:induction false} ExportFromKeeps(cfg: SimConfig, insertToCard: SimInserter, counting: GroupCounting, cancelAt: Option<nat>,
                                           contacts: seq<seq<DataRow>>, k: nat, b: Budgets, p: Progress, initialFree: int)
    requires k <= |contacts|
    requires Accounted(initialFree, p) && ToastsSoFar(p)
    requires !p.simFull
    ensures var (p1, k1) := ExportFrom(cfg, insertToCard, counting, cancelAt, contacts, k, b, p);
      Accounted(initialFree, p1) && ToastsSoFar(p1) && k <= k1 <= |contacts|
    decreases |contacts| - k
  {
    if k < |contacts| && !Canceled(cancelAt, k) && !p.airplaneMode {
      var (b1, p1) := ExportContact(cfg, insertToCard, counting, b, p, contacts[k]);
      ExportContactKeeps(cfg, insertToCard, counting, b, p, contacts[k], initialFree);
      if !p1.simFull {
        ExportFromKeeps(cfg, insertToCard, counting, cancelAt, contacts, k + 1, b1, p1, initialFree);
      }
    }
  }

  /**
   * Over a whole run: inserts plus the free count left equal the free count
   * at the start; the inserts never exceed the free count at the start (nor
   * go below zero); a card that started with free records never shows a
   * negative free count; and the card took exactly insertCount records.
   */
  lemma ExportAccounting(cfg: SimConfig, insertToCard: SimInserter, counting: GroupCounting, cancelAt: Option<nat>,
                         contactList: Option<seq<seq<DataRow>>>)
    ensures var r := Export(cfg, insertToCard, counting, cancelAt, contactList);
      r.insertCount + r.freeSimCount == cfg.freeCount
      && 0 <= r.insertCount <= (if cfg.freeCount > 0 then cfg.freeCount else 0)
      && (cfg.freeCount >= 0 ==> r.freeSimCount >= 0)
      && |r.exported| == r.insertCount
  {
    if contactList.Some? {
      ExportFromKeeps(cfg, insertToCard, counting, cancelAt, contactList.value, 0, InitialBudgets(cfg), InitialProgress(cfg), cfg.freeCount);
    }
  }

  /**
   * Over a whole run the toasts are the skipped-contact toasts followed by
   * exactly one closing toast: card full, export failed (airplane mode),
   * canceled or finished.
   */
  lemma ExportToasts(cfg: SimConfig, insertToCard: SimInserter, counting: GroupCounting, cancelAt: Option<nat>,
                     contactList: Option<seq<seq<DataRow>>>)
    ensures var r := Export(cfg, insertToCard, counting, cancelAt, contactList);
      |r.toasts| > 0
      && (forall i :: 0 <= i < |r.toasts| - 1 ==> r.toasts[i].NoPhoneOrEmail?)
      && !r.toasts[|r.toasts| - 1].NoPhoneOrEmail? && !r.toasts[|r.toasts| - 1].ContactNameTooLong?
      && (r.toasts[|r.toasts| - 1] == SimCardFull <==> r.simFull)
      && (r.toasts[|r.toasts| - 1] == ExportFailed <==> r.airplaneMode)
  {
    if contactList.Some? {
      ExportFromKeeps(cfg, insertToCard, counting, cancelAt, contactList.value, 0, InitialBudgets(cfg), InitialProgress(cfg), cfg.freeCount);
    }
  }

  /**
   * The contact loop stops only when the contacts run out, the user has
   * canceled, airplane mode was seen, or the card was found full.
   */
  lemma {:induction false} ExportFromStops(cfg: SimConfig, insertToCard: SimInserter, counting: GroupCounting, cancelAt: Option<nat>,
                                           contacts: seq<seq<DataRow>>, k: nat, b: Budgets, p: Progress)
    requires k <= |contacts|
    ensures var (p1, k1) := ExportFrom(cfg, insertToCard, counting, cancelAt, contacts, k, b, p);
      k1 == |contacts| || Canceled(cancelAt, k1) || p1.airplaneMode || p1.simFull
    decreases |contacts| - k
  {
    if k < |contacts| && !Canceled(cancelAt, k) && !p.airplaneMode {
      var (b1, p1) := ExportContact(cfg, insertToCard, counting, b, p, contacts[k]);
      if !p1.simFull {
        ExportFromStops(cfg, insertToCard, counting, cancelAt, contacts, k + 1, b1, p1);
      }
    }
  }

  /**
   * The closing toast of a run that neither filled the card nor met airplane
   * mode: the canceled toast, carrying the insert count, exactly when the
   * user had canceled by the time the loop stopped; the finished toast
   * otherwise, and then every selected contact was taken.
   */
  lemma ExportClosingToast(cfg: SimConfig, insertToCard: SimInserter, counting: GroupCounting, cancelAt: Option<nat>,
                           contactList: Option<seq<seq<DataRow>>>)
    ensures |Export(cfg, insertToCard, counting, cancelAt, contactList).toasts| > 0
    ensures var r := Export(cfg, insertToCard, counting, cancelAt, contactList);
      var k := ExportLoop(cfg, insertToCard, counting, cancelAt, contactList).1;
      var last := r.toasts[|r.toasts| - 1];
      (last == ExportCanceled(r.insertCount) <==> !r.simFull && !r.airplaneMode && Canceled(cancelAt, k))
      && (last.ExportCanceled? ==> last == ExportCanceled(r.insertCount))
      && (last == ExportFinished <==> !r.simFull && !r.airplaneMode && !Canceled(cancelAt, k))
      && (last == ExportFinished && contactList.Some? ==> k == |contactList.value|)
  {
    ExportToasts(cfg, insertToCard, counting, cancelAt, contactList);
    if contactList.Some? {
      ExportFromStops(cfg, insertToCard, counting, cancelAt, contactList.value, 0, InitialBudgets(cfg), InitialProgress(cfg));
    }
  }

  // ---------------------------------------------------------------------
  // Order of consumption and the corrected record count
  // ---------------------------------------------------------------------

  /** The numbers the records carry, record by record, primary before anr. */
  function NumbersOf(recs: seq<SimRecord>): seq<string> {
    if recs == [] then [] else RecordNumbers(recs[0]) + NumbersOf(recs[1..])
  }

  function EmailsOf(recs: seq<SimRecord>): seq<string> {
    if recs == [] then [] else RecordEmails(recs[0]) + EmailsOf(recs[1..])
  }

  lemma {:induction false} NumbersOfAppend(a: seq<SimRecord>, b: seq<SimRecord>)
    ensures NumbersOf(a + b) == NumbersOf(a) + NumbersOf(b)
    decreases |a|
  {
    if a == [] {
      assert a + b == b;
    } else {
      assert (a + b)[1..] == a[1..] + b;
      NumbersOfAppend(a[1..], b);
    }
  }

  lemma {:induction false} EmailsOfAppend(a: seq<SimRecord>, b: seq<SimRecord>)
    ensures EmailsOf(a + b) == EmailsOf(a) + EmailsOf(b)
    decreases |a|
  {
    if a == [] {
      assert a + b == b;
    } else {
      assert (a + b)[1..] == a[1..] + b;
      EmailsOfAppend(a[1..], b);
    }
  }

  /** Consuming x and then y from the front of a list consumes x + y. */
  lemma ConsumedTwice(x: seq<string>, y: seq<string>, l0: seq<string>, l1: seq<string>, l2: seq<string>)
    requires x + l1 == l0 && y + l2 == l1
    ensures x + y + l2 == l0
  {
  }

  /** Two consecutive stretches of offers carry two consecutive stretches of the pending numbers. */
  lemma NumbersChain(o0: seq<SimRecord>, q: seq<SimRecord>, o1: seq<SimRecord>, n0: seq<string>, n1: seq<string>, n2: seq<string>)
    requires |o0| <= |q| <= |o1| && o1[..|q|] == q
    requires NumbersOf(q[|o0|..]) + n1 == n0 && NumbersOf(o1[|q|..]) + n2 == n1
    ensures NumbersOf(o1[|o0|..]) + n2 == n0
  {
    var a, b := q[|o0|..], o1[|q|..];
    assert o1[|o0|..] == a + b;
    NumbersOfAppend(a, b);
    ConsumedTwice(NumbersOf(a), NumbersOf(b), n0, n1, n2);
  }

  /** Two consecutive stretches of offers carry two consecutive stretches of the pending emails. */
  lemma EmailsChain(o0: seq<SimRecord>, q: seq<SimRecord>, o1: seq<SimRecord>, e0: seq<string>, e1: seq<string>, e2: seq<string>)
    requires |o0| <= |q| <= |o1| && o1[..|q|] == q
    requires EmailsOf(q[|o0|..]) + e1 == e0 && EmailsOf(o1[|q|..]) + e2 == e1
    ensures EmailsOf(o1[|o0|..]) + e2 == e0
  {
    var a, b := q[|o0|..], o1[|q|..];
    assert o1[|o0|..] == a + b;
    EmailsOfAppend(a, b);
    ConsumedTwice(EmailsOf(a), EmailsOf(b), e0, e1, e2);
  }

  /** Two consecutive stretches of appended offers under one name make one. */
  lemma AppendedChain(o0: seq<SimRecord>, q: seq<SimRecord>, o1: seq<SimRecord>, name: Option<string>)
    requires |o0| <= |q| <= |o1| && q[..|o0|] == o0 && o1[..|q|] == q
    requires forall i :: |o0| <= i < |q| ==> q[i].name == name
    requires forall i :: |q| <= i < |o1| ==> o1[i].name == name
    ensures o1[..|o0|] == o0
    ensures forall i :: |o0| <= i < |o1| ==> o1[i].name == name
  {
    assert o1[..|o0|] == o1[..|q|][..|o0|];
    forall i | |o0| <= i < |q| ensures o1[i].name == name {
      assert o1[i] == o1[..|q|][i];
    }
  }

  /** With a free record, a group offers the handed-out record and keeps the rest pending. */
  lemma GroupStepOffers(cfg: SimConfig, insertToCard: SimInserter, name: Option<string>, p: Progress, pend: Pending)
    requires p.freeSimCount > 0
    ensures var (q, rest) := GroupStep(cfg, insertToCard, name, p, pend);
      var h := Handout(cfg, name, p.emptyAnr, pend);
      q.offered == p.offered + [h.0] && rest == h.1 && q.emptyAnr == NextEmptyAnr(cfg, p.emptyAnr)
      && (insertToCard(|p.offered|, h.0) == Inserted ==>
            q.exported == p.exported + [h.0] && q.freeSimCount == p.freeSimCount - 1
            && q.simFull == p.simFull && q.airplaneMode == p.airplaneMode)
  {
  }

  /** One group takes its record's numbers and email from the front of the pending lists. */
  lemma GroupStepConsumesFromFront(cfg: SimConfig, insertToCard: SimInserter, name: Option<string>, p: Progress, pend: Pending)
    ensures var (q, rest) := GroupStep(cfg, insertToCard, name, p, pend);
      |p.offered| <= |q.offered| && q.offered[..|p.offered|] == p.offered
      && NumbersOf(q.offered[|p.offered|..]) + rest.numbers == pend.numbers
      && EmailsOf(q.offered[|p.offered|..]) + rest.emails == pend.emails
      && forall i :: |p.offered| <= i < |q.offered| ==> q.offered[i].name == name
  {
    var (q, rest) := GroupStep(cfg, insertToCard, name, p, pend);
    if p.freeSimCount > 0 {
      GroupStepOffers(cfg, insertToCard, name, p, pend);
      var (rec, _) := Handout(cfg, name, p.emptyAnr, pend);
      HandoutTakesFromFront(cfg, name, p.emptyAnr, pend);
      assert q.offered[|p.offered|..] == [rec];
      assert [rec][1..] == [];
    } else {
      assert q.offered[|p.offered|..] == [];
    }
  }

  /** The group loop only appends records, all under the contact's name. */
  lemma {:induction false} PackGroupsAppendsOffers(cfg: SimConfig, insertToCard: SimInserter, name: Option<string>,
                                                   groups: nat, p: Progress, pend: Pending)
    ensures var (p1, _) := PackGroups(cfg, insertToCard, name, groups, p, pend);
      |p.offered| <= |p1.offered| && p1.offered[..|p.offered|] == p.offered
      && forall i :: |p.offered| <= i < |p1.offered| ==> p1.offered[i].name == name
    decreases groups
  {
    if groups > 0 && !p.simFull && !p.airplaneMode {
      var (q, rest) := GroupStep(cfg, insertToCard, name, p, pend);
      GroupStepConsumesFromFront(cfg, insertToCard, name, p, pend);
      PackGroupsAppendsOffers(cfg, insertToCard, name, groups - 1, q, rest);
      var (p1, _) := PackGroups(cfg, insertToCard, name, groups - 1, q, rest);
      AppendedChain(p.offered, q.offered, p1.offered, name);
    }
  }

  /**
   * The records the group loop offers carry exactly the numbers and the
   * emails no longer pending, in their order.
   */
  lemma {:induction false} PackGroupsConsumesFromFront(cfg: SimConfig, insertToCard: SimInserter, name: Option<string>,
                                                       groups: nat, p: Progress, pend: Pending)
    ensures var (p1, pend1) := PackGroups(cfg, insertToCard, name, groups, p, pend);
      |p.offered| <= |p1.offered|
      && NumbersOf(p1.offered[|p.offered|..]) + pend1.numbers == pend.numbers
      && EmailsOf(p1.offered[|p.offered|..]) + pend1.emails == pend.emails
    decreases groups
  {
    if groups > 0 && !p.simFull && !p.airplaneMode {
      var (q, rest) := GroupStep(cfg, insertToCard, name, p, pend);
      GroupStepConsumesFromFront(cfg, insertToCard, name, p, pend);
      PackGroupsConsumesFromFront(cfg, insertToCard, name, groups - 1, q, rest);
      PackGroupsAppendsOffers(cfg, insertToCard, name, groups - 1, q, rest);
      var (p1, pend1) := PackGroups(cfg, insertToCard, name, groups - 1, q, rest);
      NumbersChain(p.offered, q.offered, p1.offered, pend.numbers, rest.numbers, pend1.numbers);
      EmailsChain(p.offered, q.offered, p1.offered, pend.emails, rest.emails, pend1.emails);
    }
  }

  /** All inserts succeed. */
  ghost predicate AlwaysInserts(insertToCard: SimInserter) {
    forall n, r :: insertToCard(n, r) == Inserted
  }

  /**
   * When every insert succeeds and the card has a free record per group, the
   * group loop never stops early and the card takes every record offered.
   */
  lemma {:induction false} PackGroupsAllInsertedRecords(cfg: SimConfig, insertToCard: SimInserter, name: Option<string>,
                                                        groups: nat, p: Progress, pend: Pending)
    requires AlwaysInserts(insertToCard)
    requires groups <= p.freeSimCount
    requires !p.simFull && !p.airplaneMode
    ensures var (p1, _) := PackGroups(cfg, insertToCard, name, groups, p, pend);
      !p1.simFull && !p1.airplaneMode
      && |p.offered| <= |p1.offered| && p1.offered[..|p.offered|] == p.offered
      && p1.exported == p.exported + p1.offered[|p.offered|..]
    decreases groups
  {
    if groups > 0 {
      var (q, rest) := GroupStep(cfg, insertToCard, name, p, pend);
      GroupStepOffers(cfg, insertToCard, name, p, pend);
      var rec := Handout(cfg, name, p.emptyAnr, pend).0;
      assert insertToCard(|p.offered|, rec) == Inserted;
      PackGroupsAllInsertedRecords(cfg, insertToCard, name, groups - 1, q, rest);
      var (p1, _) := PackGroups(cfg, insertToCard, name, groups, p, pend);
      assert p1.offered[|p.offered|..] == [rec] + p1.offered[|q.offered|..];
      assert p1.offered[..|p.offered|] == p1.offered[..|q.offered|][..|p.offered|];
    }
  }

  /**
   * When every insert succeeds and the card has a free record per group, the
   * numbers left over are those beyond the groups' capacity, and the emails
   * left over those beyond one per group.
   */
  lemma {:induction false} PackGroupsAllInsertedLeftover(cfg: SimConfig, insertToCard: SimInserter, name: Option<string>,
                                                         groups: nat, p: Progress, pend: Pending)
    requires AlwaysInserts(insertToCard)
    requires groups <= p.freeSimCount
    requires !p.simFull && !p.airplaneMode
    ensures var (_, pend1) := PackGroups(cfg, insertToCard, name, groups, p, pend);
      var capacity := Capacity(cfg.canSaveAnr, p.emptyAnr, groups);
      |pend1.numbers| == (if |pend.numbers| > capacity then |pend.numbers| - capacity else 0)
      && (cfg.canSaveEmail ==> |pend1.emails| == (if |pend.emails| > groups then |pend.emails| - groups else 0))
    decreases groups
  {
    if groups > 0 {
      var (q, rest) := GroupStep(cfg, insertToCard, name, p, pend);
      GroupStepOffers(cfg, insertToCard, name, p, pend);
      var rec := Handout(cfg, name, p.emptyAnr, pend).0;
      assert insertToCard(|p.offered|, rec) == Inserted;
      HandoutTakesFromFront(cfg, name, p.emptyAnr, pend);
      PackGroupsAllInsertedLeftover(cfg, insertToCard, name, groups - 1, q, rest);
      assert |rest.numbers| == |pend.numbers| - |RecordNumbers(rec)| by {
        assert RecordNumbers(rec) + rest.numbers == pend.numbers;
      }
      assert |rest.emails| == |pend.emails| - |RecordEmails(rec)| by {
        assert RecordEmails(rec) + rest.emails == pend.emails;
      }
      assert Capacity(cfg.canSaveAnr, p.emptyAnr, groups)
        == 1 + (if cfg.canSaveAnr && p.emptyAnr > 0 then 1 else 0) + Capacity(cfg.canSaveAnr, q.emptyAnr, groups - 1);
    }
  }

  /**
   * With the corrected record count, a card that accepts every record and
   * has a free record per group receives every collected number and, when it
   * stores emails, every collected email, in their order.
   */
  lemma CorrectedCountExportsEverything(cfg: SimConfig, insertToCard: SimInserter, name: Option<string>, p: Progress, pend: Pending)
    requires AlwaysInserts(insertToCard)
    requires !p.simFull && !p.airplaneMode
    requires GroupCount(|pend.emails|, NameCount(name), GroupNumCount(cfg.canSaveAnr, p.emptyAnr, |pend.numbers|)) <= p.freeSimCount
    ensures var groups := GroupCount(|pend.emails|, NameCount(name), GroupNumCount(cfg.canSaveAnr, p.emptyAnr, |pend.numbers|));
      var (p1, _) := PackGroups(cfg, insertToCard, name, groups, p, pend);
      |p.exported| <= |p1.exported|
      && NumbersOf(p1.exported[|p.exported|..]) == pend.numbers
      && (cfg.canSaveEmail ==> EmailsOf(p1.exported[|p.exported|..]) == pend.emails)
  {
    var numCount := GroupNumCount(cfg.canSaveAnr, p.emptyAnr, |pend.numbers|);
    var groups := GroupCount(|pend.emails|, NameCount(name), numCount);
    GroupNumCountIsLeastSufficient(cfg.canSaveAnr, p.emptyAnr, |pend.numbers|);
    CapacityMonotone(cfg.canSaveAnr, p.emptyAnr, numCount, groups);
    PackGroupsAllInsertedRecords(cfg, insertToCard, name, groups, p, pend);
    PackGroupsAllInsertedLeftover(cfg, insertToCard, name, groups, p, pend);
    PackGroupsConsumesFromFront(cfg, insertToCard, name, groups, p, pend);
    var (p1, pend1) := PackGroups(cfg, insertToCard, name, groups, p, pend);
    assert p1.exported[|p.exported|..] == p1.offered[|p.offered|..];
    assert pend1.numbers == [];
    assert NumbersOf(p1.offered[|p.offered|..]) + [] == pend.numbers;
    if cfg.canSaveEmail {
      assert pend1.emails == [];
      assert EmailsOf(p1.offered[|p.offered|..]) + [] == pend.emails;
    }
  }

  /**
   * With the count as written, a contact with three numbers on a card with
   * two spare anrs gets one record, and a number stays behind although every
   * insert succeeds.
   */
  lemma AsWrittenCountLeavesANumberBehind(cfg: SimConfig, insertToCard: SimInserter, name: Option<string>, p: Progress, pend: Pending)
    requires AlwaysInserts(insertToCard)
    requires cfg.canSaveAnr && p.emptyAnr == 2 && |pend.numbers| == 3 && pend.emails == []
    requires !p.simFull && !p.airplaneMode && p.freeSimCount >= 1
    ensures var groups := GroupCount(|pend.emails|, NameCount(name), GroupNumCountAsWritten(cfg.canSaveAnr, p.emptyAnr, |pend.numbers|));
      groups == 1 && |PackGroups(cfg, insertToCard, name, groups, p, pend).1.numbers| == 1
  {
    GroupNumCountAsWrittenDropsANumber();
    PackGroupsAllInsertedLeftover(cfg, insertToCard, name, 1, p, pend);
  }

  // ---------------------------------------------------------------------
  // insert(): the name rule and the values handed to the card
  // ---------------------------------------------------------------------

  /** The longest name a record may hold: 6 when the name has multi-byte characters, 14 otherwise. */
  function MaxNameLength(name: Option<string>): nat {
    if HasChinese(name) then CONTACT_NAME_MAX_LENGTH_CHN else CONTACT_NAME_MAX_LENGTH_NOT_CHN
  }

  /**
   * insert() refuses a non-empty name longer than its limit, the length
   * counted in UTF-16 units. Names of at most 6 units always fit, names over
   * 14 never do, and in between a name is refused exactly when it holds a
   * character that is not ASCII.
   */
  function NameTooLong(name: Option<string>): (r: bool)
    ensures IsEmpty(name) ==> !r
    ensures name.Some? && Length(name.value) <= CONTACT_NAME_MAX_LENGTH_CHN ==> !r
    ensures name.Some? && Length(name.value) > CONTACT_NAME_MAX_LENGTH_NOT_CHN ==> r
    ensures name.Some? && CONTACT_NAME_MAX_LENGTH_CHN < Length(name.value) <= CONTACT_NAME_MAX_LENGTH_NOT_CHN ==>
              (r <==> exists i :: 0 <= i < |name.value| && name.value[i] as int >= 0x80)
  {
    !IsEmpty(name) && Length(name.value) > MaxNameLength(name)
  }

  /** mValues after clear() and the puts: tag, stripped number, and the emails when non-empty. */
  function SimValues(name: Option<string>, number: Option<string>, emails: Option<string>,
                     stripSeparators: Option<string> -> Option<string>): (r: map<string, Option<string>>)
    ensures GetAsString(r, STR_TAG) == name
    ensures GetAsString(r, STR_NUMBER) == stripSeparators(number)
    ensures GetAsString(r, STR_EMAILS) == if IsEmpty(emails) then None else emails
    ensures GetAsString(r, STR_ANRS).None?
  {
    map[STR_TAG := name, STR_NUMBER := stripSeparators(number)]
    + (if !IsEmpty(emails) then map[STR_EMAILS := emails] else map[])
  }

  /**
   * The values insert() builds never make the follow-up import throw: an
   * empty email list is not stored, so the import sees null instead.
   */
  lemma InsertedValuesImportWithoutError(name: Option<string>, number: Option<string>, emails: Option<string>,
                                         stripSeparators: Option<string> -> Option<string>, multiSimEnabled: bool, subscription: int)
    ensures ImportOperations(SimValues(name, number, emails, stripSeparators), multiSimEnabled, subscription).Operations?
  {
    ImportOperationsThrowsOnlyOnEmptyEmails(SimValues(name, number, emails, stripSeparators), multiSimEnabled, subscription);
  }

  /** The thread object: its target subscription and contacts, the free count, and mValues. */
  class ExportToSimThread {
    var subscription: int
    var contactList: Option<seq<seq<DataRow>>>
    var freeSimCount: int
    var values: map<string, Option<string>>

    /**
     * The constructor reads the list's size for the progress dialog, so a
     * null list throws there: callers must pass a list.
     */
    constructor(subscription: int, contactList: Option<seq<seq<DataRow>>>)
      requires contactList.Some?
      ensures this.subscription == subscription && this.contactList == contactList
      ensures freeSimCount == 0 && values == map[]
    {
      this.subscription := subscription;
      this.contactList := contactList;
      freeSimCount := 0;
      values := map[];
    }

    /** The cursor loop of one contact. */
    static method CollectContactData(rows: seq<DataRow>, canSaveEmail: bool, emptyNumber0: int, emptyEmail0: int)
      returns (name: Option<string>, numbers: seq<string>, emails: seq<string>, emptyNumber: int, emptyEmail: int)
      ensures Gathered(name, numbers, emails, emptyNumber, emptyEmail)
                == Collect(canSaveEmail, Gathered(Some(""), [], [], emptyNumber0, emptyEmail0), rows)
    {
      name, numbers, emails, emptyNumber, emptyEmail := Some(""), [], [], emptyNumber0, emptyEmail0;
      var i := 0;
      while i < |rows|
        invariant 0 <= i <= |rows|
        invariant Collect(canSaveEmail, Gathered(name, numbers, emails, emptyNumber, emptyEmail), rows[i..])
                  == Collect(canSaveEmail, Gathered(Some(""), [], [], emptyNumber0, emptyEmail0), rows)
      {
        var row := rows[i];
        if row.mimeType == PhoneMime {
          var number := row.data1;
          if !IsEmpty(number) {
            if emptyNumber > 0 {
              numbers := numbers + [number.value];
            }
            emptyNumber := emptyNumber - 1;
          }
        } else if row.mimeType == StructuredNameMime {
          name := row.data1;
        }
        if canSaveEmail {
          if row.mimeType == EmailMime {
            var email := row.data1;
            if !IsEmpty(email) {
              if emptyEmail > 0 {
                emails := emails + [email.value];
              }
              emptyEmail := emptyEmail - 1;
            }
          }
        }
        assert rows[i..][1..] == rows[i + 1..];
        i := i + 1;
      }
    }

    /** The group loop of one contact; freeSimCount is the thread's field. */
    method ExportGroups(cfg: SimConfig, insertToCard: SimInserter, name: Option<string>, groupCount: nat,
                        numbers0: seq<string>, emails0: seq<string>, emptyAnr0: int, insertCount0: int,
                        offered0: seq<SimRecord>, exported0: seq<SimRecord>, toasts0: seq<Toast>)
      returns (numbers: seq<string>, emails: seq<string>, emptyAnr: int, insertCount: int,
               isSimCardFull: bool, isAirplaneMode: bool,
               offered: seq<SimRecord>, exported: seq<SimRecord>, toasts: seq<Toast>)
      modifies this
      ensures (Progress(freeSimCount, emptyAnr, insertCount, isSimCardFull, isAirplaneMode, offered, exported, toasts),
               Pending(numbers, emails))
              == PackGroups(cfg, insertToCard, name, groupCount,
                            Progress(old(freeSimCount), emptyAnr0, insertCount0, false, false, offered0, exported0, toasts0),
                            Pending(numbers0, emails0))
      ensures subscription == old(subscription) && contactList == old(contactList) && values == old(values)
    {
      numbers, emails, emptyAnr, insertCount := numbers0, emails0, emptyAnr0, insertCount0;
      isSimCardFull, isAirplaneMode := false, false;
      offered, exported, toasts := offered0, exported0, toasts0;
      ghost var total := PackGroups(cfg, insertToCard, name, groupCount,
                                    Progress(freeSimCount, emptyAnr0, insertCount0, false, false, offered0, exported0, toasts0),
                                    Pending(numbers0, emails0));
      var i := 0;
      while i < groupCount
        invariant 0 <= i <= groupCount
        invariant !isSimCardFull && !isAirplaneMode
        invariant PackGroups(cfg, insertToCard, name, groupCount - i,
                             Progress(freeSimCount, emptyAnr, insertCount, false, false, offered, exported, toasts),
                             Pending(numbers, emails)) == total
        invariant subscription == old(subscription) && contactList == old(contactList) && values == old(values)
      {
        ghost var before := Progress(freeSimCount, emptyAnr, insertCount, false, false, offered, exported, toasts);
        ghost var pendBefore := Pending(numbers, emails);
        ghost var step := GroupStep(cfg, insertToCard, name, before, pendBefore);
        if freeSimCount > 0 {
          var num: Option<string> := None;
          if |numbers| > 0 {
            num := Some(numbers[0]);
            numbers := numbers[1..];
          }
          var anrNum: Option<string> := None;
          var email: Option<string> := None;
          if cfg.canSaveAnr {
            if emptyAnr > 0 {
              if |numbers| > 0 {
                anrNum := Some(numbers[0]);
                numbers := numbers[1..];
              }
            }
            emptyAnr := emptyAnr - 1;
          }
          if cfg.canSaveEmail {
            if |emails| > 0 {
              email := Some(emails[0]);
              emails := emails[1..];
            }
          }
          var rec := SimRecord(name, num, email, anrNum);
          assert (rec, Pending(numbers, emails)) == Handout(cfg, name, before.emptyAnr, pendBefore);
          var result := insertToCard(|offered|, rec);
          offered := offered + [rec];
          if result.NotInserted? {
            if result.cardFull {
              isSimCardFull := true;
              toasts := toasts + [SimCardFull];
              assert (Progress(freeSimCount, emptyAnr, insertCount, true, false, offered, exported, toasts), Pending(numbers, emails)) == step;
              break;
            } else {
              isAirplaneMode := result.airplaneMode;
              if isAirplaneMode {
                toasts := toasts + [ExportFailed];
                assert (Progress(freeSimCount, emptyAnr, insertCount, false, true, offered, exported, toasts), Pending(numbers, emails)) == step;
                break;
              }
            }
          } else {
            insertCount := insertCount + 1;
            freeSimCount := freeSimCount - 1;
            exported := exported + [rec];
          }
        } else {
          isSimCardFull := true;
          toasts := toasts + [SimCardFull];
          assert (Progress(freeSimCount, emptyAnr, insertCount, true, false, offered, exported, toasts), Pending(numbers, emails)) == step;
          break;
        }
        assert (Progress(freeSimCount, emptyAnr, insertCount, false, false, offered, exported, toasts), Pending(numbers, emails)) == step;
        i := i + 1;
      }
    }

    /**
     * run() for the selected contacts: the contact loop over the thread's
     * list with the collection and group loops inside, then the closing
     * toast. The field freeSimCount holds the free count as the run leaves it.
     * With AsWritten the record count is the one the thread computes; with
     * Corrected it is the least count that carries every number.
     */
    method Run(cfg: SimConfig, insertToCard: SimInserter, counting: GroupCounting, cancelAt: Option<nat>)
      returns (insertCount: int, offered: seq<SimRecord>, exported: seq<SimRecord>, toasts: seq<Toast>)
      modifies this
      ensures var r := Export(cfg, insertToCard, counting, cancelAt, contactList);
        freeSimCount == r.freeSimCount && insertCount == r.insertCount
        && offered == r.offered && exported == r.exported && toasts == r.toasts
      ensures subscription == old(subscription) && contactList == old(contactList) && values == old(values)
    {
      var isAirplaneMode := false;
      var isSimCardFull := false;
      insertCount := 0;
      freeSimCount := cfg.freeCount;
      var emptyAnr := cfg.spareAnr;
      var emptyEmail := cfg.spareEmail;
      var emptyNumber := freeSimCount + emptyAnr;
      offered, exported, toasts := [], [], [];
      var k := 0;
      if contactList.Some? {
        var contacts := contactList.value;
        ghost var total := ExportFrom(cfg, insertToCard, counting, cancelAt, contacts, 0, InitialBudgets(cfg), InitialProgress(cfg));
        while k < |contacts| && !Canceled(cancelAt, k) && !isAirplaneMode
          invariant 0 <= k <= |contacts|
          invariant !isSimCardFull
          invariant ExportFrom(cfg, insertToCard, counting, cancelAt, contacts, k, Budgets(emptyNumber, emptyEmail),
                               Progress(freeSimCount, emptyAnr, insertCount, false, isAirplaneMode, offered, exported, toasts)) == total
          invariant subscription == old(subscription) && contactList == old(contactList) && values == old(values)
        {
          ghost var before := Progress(freeSimCount, emptyAnr, insertCount, false, false, offered, exported, toasts);
          ghost var step := ExportContact(cfg, insertToCard, counting, Budgets(emptyNumber, emptyEmail), before, contacts[k]);
          var name, numbers, emails;
          name, numbers, emails, emptyNumber, emptyEmail := CollectContactData(contacts[k], cfg.canSaveEmail, emptyNumber, emptyEmail);
          k := k + 1;
          if |numbers| == 0 && |emails| == 0 {
            toasts := toasts + [NoPhoneOrEmail(name)];
            assert (Budgets(emptyNumber, emptyEmail), Progress(freeSimCount, emptyAnr, insertCount, false, false, offered, exported, toasts)) == step;
            continue;
          }
          var groupCount := GroupCount(|emails|, NameCount(name), GroupNumCountBy(counting, cfg.canSaveAnr, emptyAnr, |numbers|));
          numbers, emails, emptyAnr, insertCount, isSimCardFull, isAirplaneMode, offered, exported, toasts :=
            ExportGroups(cfg, insertToCard, name, groupCount, numbers, emails, emptyAnr, insertCount, offered, exported, toasts);
          assert (Budgets(emptyNumber, emptyEmail),
                  Progress(freeSimCount, emptyAnr, insertCount, isSimCardFull, isAirplaneMode, offered, exported, toasts)) == step;
          if isSimCardFull {
            break;
          }
        }
      }
      if !isAirplaneMode && !isSimCardFull {
        if Canceled(cancelAt, k) {
          toasts := toasts + [ExportCanceled(insertCount)];
        } else {
          toasts := toasts + [ExportFinished];
        }
      }
    }

    /**
     * insert(): refuses a name that is too long with a toast; otherwise fills
     * mValues, offers them to the card and, when the card took them, imports
     * the same contact into the phone's SIM account.
     */
    method Insert(name: Option<string>, number: Option<string>, emails: Option<string>, multiSimEnabled: bool,
                  stripSeparators: Option<string> -> Option<string>,
                  simInsert: (map<string, Option<string>>, int) -> bool)
      returns (inserted: bool, toasts: seq<Toast>, batch: Option<Batch>)
      modifies this
      ensures NameTooLong(name) ==>
                !inserted && toasts == [ContactNameTooLong] && batch.None? && values == old(values)
      ensures !NameTooLong(name) ==>
                values == SimValues(name, number, emails, stripSeparators)
                && inserted == simInsert(values, subscription) && toasts == []
                && (inserted ==> batch == Some(ImportOperations(values, multiSimEnabled, subscription)))
                && (!inserted ==> batch.None?)
      ensures subscription == old(subscription) && contactList == old(contactList) && freeSimCount == old(freeSimCount)
    {
      toasts := [];
      batch := None;
      if !IsEmpty(name) {
        var maxLen := if HasChinese(name) then CONTACT_NAME_MAX_LENGTH_CHN else CONTACT_NAME_MAX_LENGTH_NOT_CHN;
        if Length(name.value) > maxLen {
          toasts := [ContactNameTooLong];
          return false, toasts, None;
        }
      }
      values := map[];
      values := values[STR_TAG := name];
      values := values[STR_NUMBER := stripSeparators(number)];
      if !IsEmpty(emails) {
        values := values[STR_EMAILS := emails];
      }
      assert values == SimValues(name, number, emails, stripSeparators);
      inserted := simInsert(values, subscription);
      if inserted {
        var b := ActuallyImportOneSimContact(values, multiSimEnabled, subscription);
        batch := Some(b);
      }
    }
  }
}
