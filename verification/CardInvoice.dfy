/** The credit card invoice a client sees: the ledger of one card turned into a statement. */
module CardInvoice {
  import opened Results
  import opened Collections
  import opened CivilCalendar
  import opened PlainDates
  import opened InvoiceCalendar
  import opened InvoiceStatement
  import opened Accounts
  import opened Transactions
  import opened Ledger
  import opened LedgerRuns
  import opened LedgerTheorems
  import opened NetWorth
  import opened BalanceEvolution
  import opened EffectAgreement
  import opened LedgerUndo

  predicate Touches(t: Transaction, card: Id) {
    t.accountId == card || t.destinationAccountId == Some(card)
  }

  function EntryKindOf(t: Transaction, card: Id): EntryKind {
    if t.destinationAccountId == Some(card) then Payment
    else if t.kind == INCOME then Payment
    else Charge
  }

  function EntryOf(t: Transaction, card: Id): StatementEntry {
    StatementEntry(Render(t.date), t.amount, EntryKindOf(t, card))
  }

  /** The completed rows of a card's ledger, as statement entries. */
  function EntriesOf(rows: seq<Transaction>, card: Id): seq<StatementEntry> {
    if rows == [] then []
    else (if rows[0].status == COMPLETED then [EntryOf(rows[0], card)] else []) + EntriesOf(rows[1..], card)
  }

  function RowsOf(ts: map<Id, Transaction>, ids: seq<Id>): seq<Transaction>
    requires forall id :: id in ids ==> id in ts
  {
    seq(|ids|, i requires 0 <= i < |ids| => ts[ids[i]])
  }

  /** The rows the query answers, each once; the order among them does not matter below. */
  ghost predicate ListsLedger(ts: map<Id, Transaction>, ids: seq<Id>, card: Id) {
    && (forall id :: id in ids <==> id in ts && Touches(ts[id], card))
    && (forall i, j :: 0 <= i < j < |ids| ==> ids[i] != ids[j])
  }

  datatype InvoiceStatus = Paid | Current | Overdue | Closed

  function InvoiceStatusOf(statement: Statement, key: nat, currentKey: nat, dueDate: PlainDate, today: PlainDate): InvoiceStatus {
    if (statement.previousBalance > 0 || statement.charges > 0) && statement.remaining == 0 then Paid
    else if key == currentKey then Current
    else if StringLess(dueDate, today) then Overdue
    else Closed
  }

  function PendingChargesOf(rows: seq<Transaction>, card: Id): int {
    if rows == [] then 0
    else (if rows[0].status == PENDING && EntryKindOf(rows[0], card) == Charge then rows[0].amount else 0)
         + PendingChargesOf(rows[1..], card)
  }

  datatype CardInvoice = CardInvoice(
    totalAmount: int,
    statement: Statement,
    pendingAmount: int,
    availableLimit: Option<int>,
    status: InvoiceStatus
  )

  function InvoiceOf(row: AccountRow, calendar: Calendar, requested: Option<nat>, today: Date, rows: seq<Transaction>, card: Id): CardInvoice
    requires IsKey(InvoiceKeyFor(calendar, today)) && (requested.Some? ==> IsKey(requested.value))
  {
    var currentKey := InvoiceKeyFor(calendar, today);
    var key := if requested.Some? then requested.value else currentKey;
    var bounds := GetBounds(calendar, key);
    var start, end := Render(bounds.periodStart), Render(bounds.periodEnd);
    var statement := BuildInvoiceStatement(calendar, key, Render(today), EntriesOf(rows, card));
    var within := Filter(rows, (t: Transaction) => StringAtMost(start, Render(t.date)) && StringAtMost(Render(t.date), end));
    var pending := PendingChargesOf(within, card);
    CardInvoice(
      statement.remaining,
      statement,
      pending,
      if row.creditLimit.None? then None else Some(AtLeastZero(row.creditLimit.value - statement.remaining - pending)),
      InvoiceStatusOf(statement, key, currentKey, Render(bounds.dueDate), Render(today)))
  }

  /**
   An invoice shows as paid exactly when it had something due and all that was charged up to its
   closing has been paid since.
   */
  lemma PaidMeansCovered(
      row: AccountRow, calendar: Calendar, key: nat, today: Date, rows: seq<Transaction>, card: Id)
    requires IsKey(InvoiceKeyFor(calendar, today)) && HasFourDigitBounds(calendar, key) && AllDated(EntriesOf(rows, card))
    ensures var invoice, entries := InvoiceOf(row, calendar, Some(key), today, rows, card), EntriesOf(rows, card);
            var end := Render(GetBounds(calendar, key).periodEnd);
            invoice.status == Paid
            <==> (invoice.statement.previousBalance > 0 || invoice.statement.charges > 0)
                 && ChargedUpTo(entries, Render(today), end) <= PaidEver(entries, Render(today))
  {
    hide GetBounds, Render, StringLess, StringAtMost, InvoiceKeyFor, BuildInvoiceStatement, EntriesOf, AllDated,
         PendingChargesOf, Filter, ChargedUpTo, PaidEver;
    RemainingIsChargesNotPaid(calendar, key, Render(today), EntriesOf(rows, card));
  }

  /**
   An invoice that is not paid is the current one exactly when today lies in its period; of the
   others, it is overdue exactly when its due day is past, and closed while that day is still to come.
   */
  lemma UnpaidStatusByDays(row: AccountRow, calendar: Calendar, key: nat, today: Date, rows: seq<Transaction>, card: Id)
    requires FourDigitKey(key) && FourDigitYear(today) && IsKey(InvoiceKeyFor(calendar, today))
    ensures var status, b := InvoiceOf(row, calendar, Some(key), today, rows, card).status, GetBounds(calendar, key);
            status != Paid ==>
              && (status == Current <==> b.periodStart <= today <= b.periodEnd)
              && (status == Overdue <==> !(b.periodStart <= today <= b.periodEnd) && b.dueDate < today)
              && (status == Closed <==> !(b.periodStart <= today <= b.periodEnd) && today <= b.dueDate)
  {
    hide GetBounds, Render, StringLess, InvoiceKeyFor, BuildInvoiceStatement, EntriesOf, PendingChargesOf, Filter;
    KeyIsThePeriodOfTheDate(calendar, today, key);
    BoundsFollowTheCycle(calendar, key);
    FourDigitOrder(GetBounds(calendar, key).dueDate, today);
  }

  /** Asking for no invoice in particular is asking for the one today belongs to. */
  lemma NoRequestIsTheOpenInvoice(row: AccountRow, calendar: Calendar, today: Date, rows: seq<Transaction>, card: Id)
    requires IsKey(InvoiceKeyFor(calendar, today))
    ensures InvoiceOf(row, calendar, None, today, rows, card)
         == InvoiceOf(row, calendar, Some(InvoiceKeyFor(calendar, today)), today, rows, card)
  {
    hide GetBounds, Render, InvoiceKeyFor, BuildInvoiceStatement, EntriesOf, PendingChargesOf, Filter;
  }

  /** A limit is shown only on a card that has one: what the invoice and its pending charges leave of it, at least zero. */
  lemma AvailableLimitAddsUp(row: AccountRow, calendar: Calendar, requested: Option<nat>, today: Date, rows: seq<Transaction>, card: Id)
    requires IsKey(InvoiceKeyFor(calendar, today)) && (requested.Some? ==> IsKey(requested.value))
    ensures var invoice := InvoiceOf(row, calendar, requested, today, rows, card);
            && invoice.totalAmount == invoice.statement.remaining
            && (invoice.availableLimit.Some? <==> row.creditLimit.Some?)
            && (row.creditLimit.Some? ==>
                  && invoice.availableLimit.value >= 0
                  && (invoice.totalAmount + invoice.pendingAmount <= row.creditLimit.value ==>
                        invoice.totalAmount + invoice.pendingAmount + invoice.availableLimit.value == row.creditLimit.value)
                  && (invoice.totalAmount + invoice.pendingAmount > row.creditLimit.value ==> invoice.availableLimit.value == 0))
  {
    hide GetBounds, Render, InvoiceKeyFor, BuildInvoiceStatement, EntriesOf, PendingChargesOf, Filter;
  }

  /** A charge of the card still to come, dated in a period. */
  function PendingShare(t: Transaction, card: Id, start: Date, end: Date): int {
    if t.status == PENDING && t.accountId == card && t.destinationAccountId != Some(card) && t.kind != INCOME && start <= t.date <= end
    then t.amount else 0
  }

  ghost function PendingShares(ts: map<Id, Transaction>, card: Id, start: Date, end: Date): map<Id, int> {
    map k | k in ts :: PendingShare(ts[k], card, start, end)
  }

  function WithinStrings(rows: seq<Transaction>, start: PlainDate, end: PlainDate): seq<Transaction> {
    Filter(rows, (t: Transaction) => StringAtMost(start, Render(t.date)) && StringAtMost(Render(t.date), end))
  }

  lemma {:induction false} PendingSumTheirShares(rows: seq<Transaction>, card: Id, start: Date, end: Date)
    requires FourDigitYear(start) && FourDigitYear(end)
    requires forall t :: t in rows ==> Touches(t, card) && FourDigitYear(t.date)
    ensures PendingChargesOf(WithinStrings(rows, Render(start), Render(end)), card)
         == SeqSum(seq(|rows|, i requires 0 <= i < |rows| => PendingShare(rows[i], card, start, end)))
  {
    hide Render, StringAtMost, FourDigitYear;
    var shares := seq(|rows|, i requires 0 <= i < |rows| => PendingShare(rows[i], card, start, end));
    if rows != [] {
      PendingSumTheirShares(rows[1..], card, start, end);
      assert shares[1..] == seq(|rows[1..]|, i requires 0 <= i < |rows[1..]| => PendingShare(rows[1..][i], card, start, end));
      assert rows[0] in rows;
      FourDigitOrder(start, rows[0].date);
      FourDigitOrder(rows[0].date, end);
      var rest := WithinStrings(rows[1..], Render(start), Render(end));
      if start <= rows[0].date <= end {
        assert WithinStrings(rows, Render(start), Render(end)) == [rows[0]] + rest;
        assert ([rows[0]] + rest)[1..] == rest;
      } else {
        assert WithinStrings(rows, Render(start), Render(end)) == rest;
      }
    }
  }

  lemma PendingSumTheMap(ts: map<Id, Transaction>, ids: seq<Id>, card: Id, start: Date, end: Date)
    requires ListsLedger(ts, ids, card) && FourDigitYear(start) && FourDigitYear(end)
    requires forall k :: k in ts ==> FourDigitYear(ts[k].date)
    ensures PendingChargesOf(WithinStrings(RowsOf(ts, ids), Render(start), Render(end)), card) == Sum(PendingShares(ts, card, start, end))
  {
    hide PendingShare, Touches, PendingChargesOf, WithinStrings, SeqSum, Sum, Render, FourDigitYear;
    var rows := RowsOf(ts, ids);
    var support := set id | id in ids;
    RowsAreListed(ts, ids, card);
    PendingSumTheirShares(rows, card, start, end);
    var m := Restricted(PendingShares(ts, card, start, end), support);
    SumOverListing(m, ids);
    assert seq(|rows|, i requires 0 <= i < |rows| => PendingShare(rows[i], card, start, end))
        == seq(|ids|, i requires 0 <= i < |ids| => m[ids[i]]);
    forall k | k in ts && k !in support
      ensures PendingShares(ts, card, start, end)[k] == 0
    {
      assert !Touches(ts[k], card);
      UntouchedIsNotPending(ts[k], card, start, end);
    }
    SumOfSupport(PendingShares(ts, card, start, end), support);
  }

  lemma UntouchedIsNotPending(t: Transaction, card: Id, start: Date, end: Date)
    requires !Touches(t, card)
    ensures PendingShare(t, card, start, end) == 0
  {
  }

  /** The pending amount of an invoice is that of the card's pending charges dated, by day, in its period. */
  lemma PendingIsOfThePeriod(
      row: AccountRow, ts: map<Id, Transaction>, ids: seq<Id>, card: Id, calendar: Calendar, key: nat, today: Date)
    requires ListsLedger(ts, ids, card) && forall k :: k in ts ==> FourDigitYear(ts[k].date)
    requires IsKey(InvoiceKeyFor(calendar, today)) && HasFourDigitBounds(calendar, key)
    ensures InvoiceOf(row, calendar, Some(key), today, RowsOf(ts, ids), card).pendingAmount
         == Sum(PendingShares(ts, card, GetBounds(calendar, key).periodStart, GetBounds(calendar, key).periodEnd))
  {
    hide GetBounds, Render, StringAtMost, InvoiceKeyFor, BuildInvoiceStatement, EntriesOf, PendingChargesOf, Filter, ListsLedger,
         Sum, FourDigitYear;
    BoundsAreFourDigit(calendar, key);
    var b := GetBounds(calendar, key);
    ListedAreRows(ts, ids, card);
    PendingSumTheMap(ts, ids, card, b.periodStart, b.periodEnd);
  }

  lemma ListedAreRows(ts: map<Id, Transaction>, ids: seq<Id>, card: Id)
    requires ListsLedger(ts, ids, card)
    ensures forall id :: id in ids ==> id in ts
  {
  }

  // What the entries of one transaction say, against what the ledger did with it.

  function EntryShare(t: Transaction, card: Id): int {
    if t.status != COMPLETED || !Touches(t, card) then 0
    else if EntryKindOf(t, card) == Charge then t.amount
    else -t.amount
  }

  /** A completed row the statement counts as a payment though no balance was credited for it. */
  predicate IsStray(t: Transaction, card: Id) {
    && t.status == COMPLETED && t.kind != TRANSFER && t.destinationAccountId == Some(card)
    && !(t.kind == INCOME && t.accountId == card)
  }

  function Shortfall(t: Transaction, card: Id): int {
    Contribution(t, card, CreditCard) - EntryShare(t, card)
  }

  lemma ShortfallIsStray(t: Transaction, card: Id)
    requires IsWellShaped(t)
    ensures Shortfall(t, card) >= 0
    ensures Shortfall(t, card) == 0 <==> !IsStray(t, card)
  {
  }

  ghost function EntryShares(ts: map<Id, Transaction>, card: Id): map<Id, int> {
    map k | k in ts :: EntryShare(ts[k], card)
  }

  ghost function Shortfalls(ts: map<Id, Transaction>, card: Id): map<Id, int> {
    map k | k in ts :: Shortfall(ts[k], card)
  }

  lemma {:induction false} EntriesSumTheirShares(rows: seq<Transaction>, card: Id)
    requires forall t :: t in rows ==> Touches(t, card)
    ensures BalanceOf(EntriesOf(rows, card)) == SeqSum(seq(|rows|, i requires 0 <= i < |rows| => EntryShare(rows[i], card)))
  {
    var shares := seq(|rows|, i requires 0 <= i < |rows| => EntryShare(rows[i], card));
    if rows != [] {
      EntriesSumTheirShares(rows[1..], card);
      assert shares[1..] == seq(|rows[1..]|, i requires 0 <= i < |rows[1..]| => EntryShare(rows[1..][i], card));
      assert rows[0] in rows;
      if rows[0].status == COMPLETED {
        assert EntriesOf(rows, card)[1..] == EntriesOf(rows[1..], card);
      } else {
        assert EntriesOf(rows, card) == EntriesOf(rows[1..], card);
      }
    }
  }

  lemma EntriesSumTheMap(ts: map<Id, Transaction>, ids: seq<Id>, card: Id)
    requires ListsLedger(ts, ids, card)
    ensures BalanceOf(EntriesOf(RowsOf(ts, ids), card)) == Sum(EntryShares(ts, card))
  {
    hide EntryShare, Touches, BalanceOf, EntriesOf, SeqSum, Sum;
    var rows := RowsOf(ts, ids);
    var support := set id | id in ids;
    forall t | t in rows
      ensures Touches(t, card)
    {
      var i :| 0 <= i < |rows| && rows[i] == t;
      assert ids[i] in ids;
    }
    EntriesSumTheirShares(rows, card);
    var m := Restricted(EntryShares(ts, card), support);
    SumOverListing(m, ids);
    assert seq(|rows|, i requires 0 <= i < |rows| => EntryShare(rows[i], card))
        == seq(|ids|, i requires 0 <= i < |ids| => m[ids[i]]);
    forall k | k in ts && k !in support
      ensures EntryShares(ts, card)[k] == 0
    {
      UntouchedShareIsZero(ts[k], card);
    }
    SumOfSupport(EntryShares(ts, card), support);
  }

  lemma UntouchedShareIsZero(t: Transaction, card: Id)
    requires !Touches(t, card)
    ensures EntryShare(t, card) == 0
  {
  }

  /**
   The charges minus the payments of a card's completed ledger are what the ledger's signed
   effects recompute for the card, exactly when no income or expense names the card as destination.
   */
  lemma EntriesAgreeWithTheLedger(ts: map<Id, Transaction>, ids: seq<Id>, card: Id)
    requires ListsLedger(ts, ids, card)
    requires forall k :: k in ts ==> IsWellShaped(ts[k])
    ensures BalanceOf(EntriesOf(RowsOf(ts, ids), card)) <= Recomputed(ts, card, CreditCard)
    ensures BalanceOf(EntriesOf(RowsOf(ts, ids), card)) == Recomputed(ts, card, CreditCard)
            <==> forall k :: k in ts ==> !IsStray(ts[k], card)
  {
    hide EntryShare, Touches, BalanceOf, EntriesOf, Contribution, Sum, ListsLedger, IsStray, IsWellShaped;
    EntriesSumTheMap(ts, ids, card);
    var shares, missing := EntryShares(ts, card), Shortfalls(ts, card);
    SumPlus(shares, missing);
    assert Contributions(ts, card, CreditCard) == map k | k in shares :: shares[k] + missing[k];
    StraysAddUp(ts, card);
  }

  // Against the open invoice.

  predicate HasFourDigitDates(ts: map<Id, Transaction>) {
    forall k :: k in ts && ts[k].status == COMPLETED ==> FourDigitYear(ts[k].date)
  }

  function PostedShare(t: Transaction, card: Id, today: Date): int {
    if t.date <= today then EntryShare(t, card) else 0
  }

  function LaterShare(t: Transaction, card: Id, today: Date): int {
    if t.date > today then EntryShare(t, card) else 0
  }

  ghost function PostedShares(ts: map<Id, Transaction>, card: Id, today: Date): map<Id, int> {
    map k | k in ts :: PostedShare(ts[k], card, today)
  }

  ghost function LaterShares(ts: map<Id, Transaction>, card: Id, today: Date): map<Id, int> {
    map k | k in ts :: LaterShare(ts[k], card, today)
  }

  /** Charges minus payments of the completed rows dated after today, which are on the balance already. */
  ghost function LaterBalance(ts: map<Id, Transaction>, card: Id, today: Date): int {
    Sum(LaterShares(ts, card, today))
  }

  /** What stray rows take off a statement though they moved no balance. */
  ghost function StrayAmount(ts: map<Id, Transaction>, card: Id): int {
    Sum(Shortfalls(ts, card))
  }

  lemma {:induction false} EntriesAreDated(rows: seq<Transaction>, card: Id)
    requires forall t :: t in rows && t.status == COMPLETED ==> FourDigitYear(t.date)
    ensures AllDated(EntriesOf(rows, card))
  {
    hide Render, FourDigitYear;
    if rows != [] {
      EntriesAreDated(rows[1..], card);
      if rows[0].status == COMPLETED {
        assert rows[0] in rows;
      }
    }
  }

  lemma PostedTakesOne(e: StatementEntry, rest: seq<StatementEntry>, today: PlainDate)
    ensures BalanceOf(Posted([e] + rest, today))
         == BalanceOf(Posted(rest, today))
            + (if !StringAtMost(e.date, today) then 0 else if e.kind == Charge then e.amount else -e.amount)
  {
    hide StringAtMost;
    var entries := [e] + rest;
    assert entries[1..] == rest;
    SumOfFilterStep(entries, Charge, (x: StatementEntry) => StringAtMost(x.date, today));
    SumOfFilterStep(entries, Payment, (x: StatementEntry) => StringAtMost(x.date, today));
  }

  lemma {:induction false} PostedSumTheirShares(rows: seq<Transaction>, card: Id, today: Date)
    requires FourDigitYear(today)
    requires forall t :: t in rows ==> Touches(t, card) && (t.status == COMPLETED ==> FourDigitYear(t.date))
    ensures BalanceOf(Posted(EntriesOf(rows, card), Render(today)))
         == SeqSum(seq(|rows|, i requires 0 <= i < |rows| => PostedShare(rows[i], card, today)))
  {
    hide Render, StringAtMost, FourDigitYear, BalanceOf;
    var shares := seq(|rows|, i requires 0 <= i < |rows| => PostedShare(rows[i], card, today));
    if rows == [] {
      NothingPosted(Render(today));
    } else {
      PostedSumTheirShares(rows[1..], card, today);
      assert shares[1..] == seq(|rows[1..]|, i requires 0 <= i < |rows[1..]| => PostedShare(rows[1..][i], card, today));
      assert rows[0] in rows;
      if rows[0].status == COMPLETED {
        FourDigitOrder(rows[0].date, today);
        PostedTakesOne(EntryOf(rows[0], card), EntriesOf(rows[1..], card), Render(today));
      } else {
        assert EntriesOf(rows, card) == EntriesOf(rows[1..], card);
      }
    }
  }

  lemma NothingPosted(today: PlainDate)
    ensures BalanceOf(Posted([], today)) == 0
  {
  }

  lemma PostedSumTheMap(ts: map<Id, Transaction>, ids: seq<Id>, card: Id, today: Date)
    requires ListsLedger(ts, ids, card) && FourDigitYear(today) && HasFourDigitDates(ts)
    ensures BalanceOf(Posted(EntriesOf(RowsOf(ts, ids), card), Render(today))) == Sum(PostedShares(ts, card, today))
  {
    hide PostedShare, Touches, BalanceOf, EntriesOf, SeqSum, Sum, Posted, Render, FourDigitYear;
    var rows := RowsOf(ts, ids);
    var support := set id | id in ids;
    RowsAreListed(ts, ids, card);
    PostedSumTheirShares(rows, card, today);
    var m := Restricted(PostedShares(ts, card, today), support);
    SumOverListing(m, ids);
    assert seq(|rows|, i requires 0 <= i < |rows| => PostedShare(rows[i], card, today))
        == seq(|ids|, i requires 0 <= i < |ids| => m[ids[i]]);
    forall k | k in ts && k !in support
      ensures PostedShares(ts, card, today)[k] == 0
    {
      UntouchedShareIsZero(ts[k], card);
      assert PostedShare(ts[k], card, today) == 0 by { ZeroShareIsNotPosted(ts[k], card, today); }
    }
    SumOfSupport(PostedShares(ts, card, today), support);
  }

  lemma ZeroShareIsNotPosted(t: Transaction, card: Id, today: Date)
    requires EntryShare(t, card) == 0
    ensures PostedShare(t, card, today) == 0
  {
  }

  lemma RowsAreListed(ts: map<Id, Transaction>, ids: seq<Id>, card: Id)
    requires ListsLedger(ts, ids, card)
    ensures forall t :: t in RowsOf(ts, ids) ==> Touches(t, card) && exists k :: k in ts && ts[k] == t
  {
    var rows := RowsOf(ts, ids);
    forall t | t in rows
      ensures Touches(t, card) && exists k :: k in ts && ts[k] == t
    {
      var i :| 0 <= i < |rows| && rows[i] == t;
      assert ids[i] in ids;
    }
  }

  /** What is recomputed for a card is what is posted, what is dated later, and what stray rows hide. */
  lemma RecomputedSplits(ts: map<Id, Transaction>, card: Id, today: Date)
    ensures Recomputed(ts, card, CreditCard)
         == Sum(PostedShares(ts, card, today)) + LaterBalance(ts, card, today) + StrayAmount(ts, card)
  {
    hide EntryShare, Contribution, Sum;
    var posted, later := PostedShares(ts, card, today), LaterShares(ts, card, today);
    SumPlus(posted, later);
    assert EntryShares(ts, card) == map k | k in posted :: posted[k] + later[k];
    var shares, missing := EntryShares(ts, card), Shortfalls(ts, card);
    SumPlus(shares, missing);
    assert Contributions(ts, card, CreditCard) == map k | k in shares :: shares[k] + missing[k];
  }

  /**
   In a sound ledger, the open invoice of a card totals the balance stored on the card, less the
   completed rows dated after today, less what stray rows hide; and it asks for that total unless
   it is a credit.
   */
  lemma OpenInvoiceAgainstTheBalance(l: LedgerState, ids: seq<Id>, card: Id, calendar: Calendar, today: Date)
    requires Sound(l) && card in l.accounts && l.accounts[card].kind == CreditCard
    requires OpeningSum(l.movements, card) == 0
    requires ListsLedger(l.transactions, ids, card)
    requires FourDigitYear(today) && HasFourDigitDates(l.transactions)
    requires HasFourDigitBounds(calendar, InvoiceKeyFor(calendar, today))
    ensures var invoice := InvoiceOf(l.accounts[card], calendar, None, today, RowsOf(l.transactions, ids), card);
            && invoice.statement.total
               == l.accounts[card].balance - LaterBalance(l.transactions, card, today) - StrayAmount(l.transactions, card)
            && invoice.totalAmount == AtLeastZero(invoice.statement.total)
  {
    hide GetBounds, Render, StringAtMost, StringLess, Recomputed, DeltaSum, RecordsPrefixSums, OpeningCount, BuildInvoiceStatement,
         InvoiceKeyFor, BalanceOf, EntriesOf, Touches, FourDigitYear, SumOf, Filter, PendingChargesOf, InvoiceStatusOf, LaterBalance, StrayAmount;
    var rows := RowsOf(l.transactions, ids);
    RowsAreListed(l.transactions, ids, card);
    EntriesAreDated(rows, card);
    OpenInvoiceTotalsPosted(calendar, today, EntriesOf(rows, card));
    OpenInvoiceAsksForItsTotal(calendar, today, EntriesOf(rows, card));
    PostedSumTheMap(l.transactions, ids, card, today);
    RecomputedSplits(l.transactions, card, today);
  }

  ghost predicate HasNoStray(ts: map<Id, Transaction>, card: Id) {
    forall k :: k in ts ==> !IsStray(ts[k], card)
  }

  lemma StraysAddUp(ts: map<Id, Transaction>, card: Id)
    requires forall k :: k in ts ==> IsWellShaped(ts[k])
    ensures StrayAmount(ts, card) >= 0
    ensures StrayAmount(ts, card) == 0 <==> HasNoStray(ts, card)
  {
    hide IsStray, IsWellShaped, Shortfall, Sum;
    var missing := Shortfalls(ts, card);
    forall k | k in ts
      ensures missing[k] >= 0 && (missing[k] == 0 <==> !IsStray(ts[k], card))
    {
      ShortfallIsStray(ts[k], card);
    }
    SumOfNonNegative(missing);
  }

  /**
   So, when no income or expense names the card as destination, the open invoice totals the stored
   balance exactly when the completed rows dated after today cancel out, as they do when there are
   none; and with no later rows, exactly when there is no stray one.
   */
  lemma OpenInvoiceIsTheStoredBalance(l: LedgerState, ids: seq<Id>, card: Id, calendar: Calendar, today: Date)
    requires Sound(l) && card in l.accounts && l.accounts[card].kind == CreditCard
    requires OpeningSum(l.movements, card) == 0
    requires ListsLedger(l.transactions, ids, card)
    requires FourDigitYear(today) && HasFourDigitDates(l.transactions)
    requires HasFourDigitBounds(calendar, InvoiceKeyFor(calendar, today))
    ensures var total := InvoiceOf(l.accounts[card], calendar, None, today, RowsOf(l.transactions, ids), card).statement.total;
            var later := LaterBalance(l.transactions, card, today);
            && (HasNoStray(l.transactions, card) ==> (total == l.accounts[card].balance <==> later == 0))
            && (later == 0 ==> (total == l.accounts[card].balance <==> HasNoStray(l.transactions, card)))
    ensures NothingCompletedAfter(l.transactions, today) ==> LaterBalance(l.transactions, card, today) == 0
  {
    hide Indexed, ListsLedger, HasFourDigitBounds, InvoiceOf, HasFourDigitDates, FourDigitYear, LaterBalance, StrayAmount, HasNoStray,
         IsWellShaped, IdsOf, OpeningSum, IsSolvent;
    OpenInvoiceAgainstTheBalance(l, ids, card, calendar, today);
    StraysAddUp(l.transactions, card);
    if NothingCompletedAfter(l.transactions, today) {
      NothingLater(l.transactions, card, today);
    }
  }

  lemma NothingLater(ts: map<Id, Transaction>, card: Id, today: Date)
    requires NothingCompletedAfter(ts, today)
    ensures LaterBalance(ts, card, today) == 0
  {
    SumOfZeroes(LaterShares(ts, card, today));
  }

  /** A card opens owing nothing, in every ledger reached from an empty one. */
  lemma {:induction false} CardsOpenAtZero(l: LedgerState, ops: seq<Operation>, card: Id)
    requires Sound(l)
    requires card in l.accounts && l.accounts[card].kind == CreditCard ==> OpeningSum(l.movements, card) == 0
    requires card in Run(l, ops).accounts && Run(l, ops).accounts[card].kind == CreditCard
    ensures OpeningSum(Run(l, ops).movements, card) == 0
    decreases |ops|
  {
    hide Perform, Sound, OpeningSum;
    if ops != [] {
      PerformKeepsSound(l, ops[0]);
      StepOpensAtZero(l, ops[0], card);
      CardsOpenAtZero(Perform(l, ops[0]), ops[1..], card);
    }
  }

  lemma StepOpensAtZero(l: LedgerState, op: Operation, card: Id)
    requires Sound(l)
    requires card in l.accounts && l.accounts[card].kind == CreditCard ==> OpeningSum(l.movements, card) == 0
    ensures var next := Perform(l, op);
            card in next.accounts && next.accounts[card].kind == CreditCard ==> OpeningSum(next.movements, card) == 0
  {
    hide Perform, Indexed, OpeningSum;
    if card in l.accounts {
      PerformFollows(l, op, card);
    } else if card in Perform(l, op).accounts && Perform(l, op).accounts[card].kind == CreditCard {
      PerformKeepsReferences(l, op);
      OpenedCardOwesNothing(l, op, card);
    }
  }

  lemma OpenedCardOwesNothing(l: LedgerState, op: Operation, card: Id)
    requires References(l) && op.Open? && op.id == card && card !in l.accounts && card in Perform(l, op).accounts
    requires Perform(l, op).accounts[card].kind == CreditCard
    ensures OpeningSum(Perform(l, op).movements, card) == 0
  {
    hide CreateChecked, PayInvoice, InsertPending, UpdateTransaction, DeleteTransaction, SetStatus, AdjustLimit, IsWellShaped, IdsOf;
    var next := Perform(l, op);
    assert next.movements[..|next.movements| - 1] == l.movements;
    UnmentionedIsEmpty(l.movements, card);
  }

  // Both ways of differing are reached.

  /** The one row of a card's ledger, against the open invoice of a ledger reached by a run. */
  lemma OneRowAgainstTheBalance(ops: seq<Operation>, card: Id, t: Transaction, calendar: Calendar, today: Date)
    requires var l := Run(EMPTY, ops);
             card in l.accounts && l.accounts[card].kind == CreditCard && l.transactions == map[0 := t]
    requires Touches(t, card) && t.status == COMPLETED && FourDigitYear(t.date) && FourDigitYear(today)
    requires HasFourDigitBounds(calendar, InvoiceKeyFor(calendar, today))
    ensures var l := Run(EMPTY, ops);
            && ListsLedger(l.transactions, [0], card)
            && l.accounts[card].balance == Contribution(t, card, CreditCard)
            && InvoiceOf(l.accounts[card], calendar, None, today, RowsOf(l.transactions, [0]), card).statement.total
               == PostedShare(t, card, today)
  {
    hide Run, InvoiceOf, Contribution, EntryShare, PostedShare, LaterShare, HasFourDigitBounds, FourDigitYear, Indexed, References;
    var l := Run(EMPTY, ops);
    ReachableLedgersAreSound(ops);
    EmptyIsSound();
    CardsOpenAtZero(EMPTY, ops, card);
    OpenInvoiceAgainstTheBalance(l, [0], card, calendar, today);
    RecomputedSplits(l.transactions, card, today);
    OneShare(PostedShares(l.transactions, card, today), PostedShare(t, card, today));
    OneShare(Contributions(l.transactions, card, CreditCard), Contribution(t, card, CreditCard));
    BalanceIsRecomputed(l, card);
  }

  lemma EmptyIsSound()
    ensures Sound(EMPTY)
  {
  }

  lemma BalanceIsRecomputed(l: LedgerState, card: Id)
    requires Sound(l) && card in l.accounts && l.accounts[card].kind == CreditCard && OpeningSum(l.movements, card) == 0
    ensures l.accounts[card].balance == Recomputed(l.transactions, card, CreditCard)
  {
    hide Recomputed, DeltaSum, RecordsPrefixSums, OpeningCount, OpeningSum;
    assert Indexed(l, card);
  }

  lemma OneShare(m: map<Id, int>, v: int)
    requires m == map[0 := v]
    ensures Sum(m) == v
  {
    SumTakes(m, 0);
    assert m - {0} == map[];
  }

  /**
   An expense of 50 on a checking account that names the card as destination: the card's balance
   stays zero, and its open invoice shows a credit of 50.
   */
  lemma AStrayExpenseIsShownAsPayment(t: Transaction, calendar: Calendar, today: Date)
    requires FourDigitYear(today) && HasFourDigitBounds(calendar, InvoiceKeyFor(calendar, today))
    requires t == Transaction(0, 0, Some(1), 50, today, EXPENSE, COMPLETED, None)
    ensures var l := Run(EMPTY, [Open(0, Checking, 0, None), Open(1, CreditCard, 0, None), Create(0, t)]);
            && 1 in l.accounts && ListsLedger(l.transactions, [0], 1) && l.accounts[1].balance == 0
            && InvoiceOf(l.accounts[1], calendar, None, today, RowsOf(l.transactions, [0]), 1).statement.total == -50
  {
    hide CreateChecked, FourDigitYear, HasFourDigitBounds, InvoiceOf, Run;
    var ops := [Open(0, Checking, 0, None), Open(1, CreditCard, 0, None), Create(0, t)];
    var before := Perform(Perform(EMPTY, ops[0]), ops[1]);
    RunOfThree(EMPTY, ops[0], ops[1], ops[2]);
    StrayIsAccepted(before, t);
    CreateStoresTheRow(before, 0, t, ByCreateService, TRANSACTION_CREATED);
    KindsAreKept(before, ops[2], 1);
    OneRowAgainstTheBalance(ops, 1, t, calendar, today);
  }

  lemma StrayIsAccepted(l: LedgerState, t: Transaction)
    requires l.accounts == map[0 := AccountRow(Checking, 0, None), 1 := AccountRow(CreditCard, 0, None)] && l.transactions == map[]
    requires IsWellShaped(t) && t.kind == EXPENSE && t.accountId == 0 && t.destinationAccountId == Some(1)
    ensures CreateChecked(l, 0, t, ByCreateService, TRANSACTION_CREATED).Ok?
  {
    CreationSucceeds(l, 0, t, ByCreateService, TRANSACTION_CREATED);
  }

  lemma KindsAreKept(l: LedgerState, op: Operation, id: Id)
    requires id in l.accounts
    ensures id in Perform(l, op).accounts && Perform(l, op).accounts[id].kind == l.accounts[id].kind
  {
    hide Perform, Recomputed, DeltaSum, OpeningSum, OpeningCount, RecordsPrefixSums;
    PerformFollows(l, op, id);
  }

  /**
   A charge of 50 dated tomorrow, stored as pending and then confirmed by hand: the card owes it,
   and the open invoice of today does not show it.
   */
  lemma AnEarlyConfirmationIsNotShown(t: Transaction, calendar: Calendar, today: Date)
    requires FourDigitYear(today) && FourDigitYear(today + 1) && HasFourDigitBounds(calendar, InvoiceKeyFor(calendar, today))
    requires t == Transaction(0, 1, None, 50, today + 1, EXPENSE, PENDING, None)
    ensures var l := Run(EMPTY, [Open(1, CreditCard, 0, None), Create(0, t), Status(0, 0, COMPLETED, false)]);
            && 1 in l.accounts && ListsLedger(l.transactions, [0], 1) && l.accounts[1].balance == 50
            && InvoiceOf(l.accounts[1], calendar, None, today, RowsOf(l.transactions, [0]), 1).statement.total == 0
  {
    hide CreateChecked, SetStatus, FourDigitYear, HasFourDigitBounds, InvoiceOf, Run;
    var ops := [Open(1, CreditCard, 0, None), Create(0, t), Status(0, 0, COMPLETED, false)];
    var start := Perform(EMPTY, ops[0]);
    var pending := Perform(start, ops[1]);
    RunOfThree(EMPTY, ops[0], ops[1], ops[2]);
    PendingIsAccepted(start, t);
    ConfirmationIsAccepted(pending, t);
    KindsAreKept(pending, ops[2], 1);
    OneRowAgainstTheBalance(ops, 1, t.(status := COMPLETED), calendar, today);
  }

  lemma PendingIsAccepted(l: LedgerState, t: Transaction)
    requires l.accounts == map[1 := AccountRow(CreditCard, 0, None)] && l.transactions == map[]
    requires IsWellShaped(t) && t.status == PENDING && t.accountId == 1 && t.destinationAccountId == None
    ensures CreateChecked(l, 0, t, ByCreateService, TRANSACTION_CREATED).Ok?
    ensures var next := CreateChecked(l, 0, t, ByCreateService, TRANSACTION_CREATED).value;
            next.transactions == map[0 := t] && next.accounts == l.accounts
  {
    CreationSucceeds(l, 0, t, ByCreateService, TRANSACTION_CREATED);
  }

  lemma ConfirmationIsAccepted(l: LedgerState, t: Transaction)
    requires l.accounts == map[1 := AccountRow(CreditCard, 0, None)] && l.transactions == map[0 := t]
    requires t.workspaceId == 0 && t.amount > 0 && t.kind == EXPENSE && t.status == PENDING && t.accountId == 1 && t.destinationAccountId == None
    ensures SetStatus(l, 0, 0, COMPLETED, false).Ok?
    ensures SetStatus(l, 0, 0, COMPLETED, false).value.transactions == map[0 := t.(status := COMPLETED)]
  {
    hide WriteBalanceDeltas;
    var updated := t.(status := COMPLETED);
    assert updated.(status := PENDING) == t;
    var effect := BuildEffect(updated, 1, Expense, false);
    assert BalanceEffectsFrom(updated, PENDING) == [effect];
    RunOne(Locked(l.accounts, IdsOf(updated)), effect, false);
    var stored := l.(transactions := l.transactions[0 := updated]);
    var deltas := EffectDeltas(Locked(l.accounts, IdsOf(updated)), [effect], false).value;
    WriteSucceeds(stored, deltas, Some(0), STATUS_CHANGED);
    WriteKeepsTables(stored, deltas, Some(0), STATUS_CHANGED);
  }
}
