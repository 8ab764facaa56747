/** The transaction list behind the page: every save replaces today's
    records with new ones built from the two fields, the start-up code
    looks today's records up again, and the month cards add the amounts up. */
module Records {
  import opened Optional
  import Calculator

  /** One stored record. The source calls the `kind` field `type`; `raw` is
      the text the user typed, `amount` what it adds up to. */
  datatype Transaction = Transaction(date: string, kind: string, amount: int, raw: string)

  const Cash: string := "cash"
  const Tips: string := "tips"

  // ---------------------------------------------------------------------------
  // Replace-on-save
  // ---------------------------------------------------------------------------

  /** `ts.filter(t => t.date !== day)`: the records of every other day, in
      their order. */
  function OtherDays(ts: seq<Transaction>, day: string): (r: seq<Transaction>)
    ensures |r| <= |ts|
    ensures forall i :: 0 <= i < |r| ==> r[i].date != day
  {
    if ts == [] then []
    else if ts[0].date != day then [ts[0]] + OtherDays(ts[1..], day)
    else OtherDays(ts[1..], day)
  }

  /** The records dated `day`, in their order. */
  function OnDay(ts: seq<Transaction>, day: string): (r: seq<Transaction>)
    ensures |r| <= |ts|
    ensures forall i :: 0 <= i < |r| ==> r[i].date == day
  {
    if ts == [] then []
    else if ts[0].date == day then [ts[0]] + OnDay(ts[1..], day)
    else OnDay(ts[1..], day)
  }

  /** The record `autoSave` pushes for one field: its day, its kind, the
      calculator's sum of the text, and the text itself. */
  function Entry(day: string, kind: string, raw: string): Transaction {
    Transaction(day, kind, Calculator.CalculateString(raw), raw)
  }

  /** The records a save appends: a cash record when the cash field is not
      empty, then a tips record when the tips field is not empty. */
  function NewRecords(day: string, rawCash: string, rawTips: string): (r: seq<Transaction>)
    ensures forall i :: 0 <= i < |r| ==> r[i].date == day
  {
    (if rawCash != "" then [Entry(day, Cash, rawCash)] else [])
    + (if rawTips != "" then [Entry(day, Tips, rawTips)] else [])
  }

  /** The list `autoSave` leaves behind. */
  function AfterSave(ts: seq<Transaction>, day: string, rawCash: string, rawTips: string): seq<Transaction> {
    OtherDays(ts, day) + NewRecords(day, rawCash, rawTips)
  }

  // ---------------------------------------------------------------------------
  // Look-up at start-up
  // ---------------------------------------------------------------------------

  /** `ts.find(t => t.date === day && t.type === kind)`: the first matching
      record, or `None` when no record matches. */
  function Find(ts: seq<Transaction>, day: string, kind: string): (r: Option<Transaction>)
    ensures r.None? <==> forall i :: 0 <= i < |ts| ==> !(ts[i].date == day && ts[i].kind == kind)
    ensures r.Some? ==> r.value in ts && r.value.date == day && r.value.kind == kind
  {
    if ts == [] then None
    else if ts[0].date == day && ts[0].kind == kind then Some(ts[0])
    else Find(ts[1..], day, kind)
  }

  /** What `init` puts in a field: the raw text of today's record of that
      kind when there is one, otherwise what the field already held. */
  function Restored(ts: seq<Transaction>, day: string, kind: string, current: string): string {
    match Find(ts, day, kind)
    case Some(t) => t.raw
    case None => current
  }

  // ---------------------------------------------------------------------------
  // Month statistics
  // ---------------------------------------------------------------------------

  /** The numbers one month card shows. */
  datatype Stats = Stats(cash: int, tips: int, total: int)

  /** What one record adds to the cash figure of `month`. */
  function CashShare(t: Transaction, monthOf: string -> string, month: string): int {
    if monthOf(t.date) == month && t.kind == Cash then t.amount else 0
  }

  /** What one record adds to the tips figure of `month`: every kind other
      than cash counts as tips. */
  function TipsShare(t: Transaction, monthOf: string -> string, month: string): int {
    if monthOf(t.date) == month && t.kind != Cash then t.amount else 0
  }

  /** The cash figure of `month`, accumulated from the front of the list. */
  function CashTotal(ts: seq<Transaction>, monthOf: string -> string, month: string): int {
    if ts == [] then 0
    else CashTotal(ts[..|ts| - 1], monthOf, month) + CashShare(ts[|ts| - 1], monthOf, month)
  }

  /** The tips figure of `month`, accumulated from the front of the list. */
  function TipsTotal(ts: seq<Transaction>, monthOf: string -> string, month: string): int {
    if ts == [] then 0
    else TipsTotal(ts[..|ts| - 1], monthOf, month) + TipsShare(ts[|ts| - 1], monthOf, month)
  }

  /** Reference: the sum of the amounts of all records in `month`, whatever
      their kind. */
  function MonthAmount(ts: seq<Transaction>, monthOf: string -> string, month: string): int {
    if ts == [] then 0
    else (if monthOf(ts[0].date) == month then ts[0].amount else 0) + MonthAmount(ts[1..], monthOf, month)
  }

  // ---------------------------------------------------------------------------
  // The stored list
  // ---------------------------------------------------------------------------

  /** The global `transactions` array. */
  class Ledger {
    var transactions: seq<Transaction>

    /** The list as `loadData` finds it in storage. */
    constructor (stored: seq<Transaction>)
      ensures transactions == stored
    {
      transactions := stored;
    }

    /** The body of `autoSave`: drop every record dated `today`, then push a
        cash record and a tips record for the fields that are not empty. */
    method Save(today: string, rawCash: string, rawTips: string)
      modifies this
      ensures transactions == AfterSave(old(transactions), today, rawCash, rawTips)
      ensures OtherDays(transactions, today) == OtherDays(old(transactions), today)
      ensures OnDay(transactions, today) == NewRecords(today, rawCash, rawTips)
    {
      transactions := OtherDays(transactions, today);
      if rawCash != "" {
        Push(Entry(today, Cash, rawCash));
      }
      if rawTips != "" {
        Push(Entry(today, Tips, rawTips));
      }
      SaveKeepsOtherDays(old(transactions), today, rawCash, rawTips);
      SaveReplacesToday(old(transactions), today, rawCash, rawTips);
    }

    /** `transactions.push`. */
    method Push(t: Transaction)
      modifies this
      ensures transactions == old(transactions) + [t]
    {
      transactions := transactions + [t];
    }

    /** `getMonthStats`: one pass over the list adding each record of the
        month to cash or to tips. */
    method MonthStats(monthOf: string -> string, month: string) returns (s: Stats)
      ensures s.cash == CashTotal(transactions, monthOf, month)
      ensures s.tips == TipsTotal(transactions, monthOf, month)
      ensures s.total == s.cash + s.tips
    {
      var cash, tips := 0, 0;
      for i := 0 to |transactions|
        invariant cash == CashTotal(transactions[..i], monthOf, month)
        invariant tips == TipsTotal(transactions[..i], monthOf, month)
      {
        var tx := transactions[i];
        if monthOf(tx.date) == month {
          if tx.kind == Cash {
            cash := cash + tx.amount;
          } else {
            tips := tips + tx.amount;
          }
        }
        assert transactions[..i + 1][..i] == transactions[..i];
      }
      assert transactions[..|transactions|] == transactions;
      s := Stats(cash, tips, cash + tips);
    }
  }

  // ---------------------------------------------------------------------------
  // Properties of the filters and the look-up
  // ---------------------------------------------------------------------------

  /** The filter keeps exactly the records of other days. */
  lemma {:induction false} OtherDaysMembers(ts: seq<Transaction>, day: string, t: Transaction)
    ensures t in OtherDays(ts, day) <==> t in ts && t.date != day
  {
    if ts != [] {
      OtherDaysMembers(ts[1..], day, t);
      assert ts == [ts[0]] + ts[1..];
    }
  }

  /** The look-up by day keeps exactly the records of that day. */
  lemma {:induction false} OnDayMembers(ts: seq<Transaction>, day: string, t: Transaction)
    ensures t in OnDay(ts, day) <==> t in ts && t.date == day
  {
    if ts != [] {
      OnDayMembers(ts[1..], day, t);
      assert ts == [ts[0]] + ts[1..];
    }
  }

  lemma {:induction false} OtherDaysAppend(a: seq<Transaction>, b: seq<Transaction>, day: string)
    ensures OtherDays(a + b, day) == OtherDays(a, day) + OtherDays(b, day)
  {
    if a == [] {
      assert a + b == b;
    } else {
      var c := a + b;
      assert c[0] == a[0];
      assert c[1..] == a[1..] + b;
      OtherDaysAppend(a[1..], b, day);
      if a[0].date != day {
        assert OtherDays(c, day) == [a[0]] + OtherDays(a[1..] + b, day);
      } else {
        assert OtherDays(c, day) == OtherDays(a[1..] + b, day);
      }
    }
  }

  lemma {:induction false} OnDayAppend(a: seq<Transaction>, b: seq<Transaction>, day: string)
    ensures OnDay(a + b, day) == OnDay(a, day) + OnDay(b, day)
  {
    if a == [] {
      assert a + b == b;
    } else {
      var c := a + b;
      assert c[0] == a[0];
      assert c[1..] == a[1..] + b;
      OnDayAppend(a[1..], b, day);
      if a[0].date == day {
        assert OnDay(c, day) == [a[0]] + OnDay(a[1..] + b, day);
      } else {
        assert OnDay(c, day) == OnDay(a[1..] + b, day);
      }
    }
  }

  lemma {:induction false} OtherDaysKeepsAll(ts: seq<Transaction>, day: string)
    requires forall i :: 0 <= i < |ts| ==> ts[i].date != day
    ensures OtherDays(ts, day) == ts
  {
    if ts != [] {
      OtherDaysKeepsAll(ts[1..], day);
    }
  }

  lemma {:induction false} OnDayKeepsAll(ts: seq<Transaction>, day: string)
    requires forall i :: 0 <= i < |ts| ==> ts[i].date == day
    ensures OnDay(ts, day) == ts
  {
    if ts != [] {
      OnDayKeepsAll(ts[1..], day);
    }
  }

  lemma {:induction false} OnDayDropsAll(ts: seq<Transaction>, day: string)
    requires forall i :: 0 <= i < |ts| ==> ts[i].date != day
    ensures OnDay(ts, day) == []
  {
    if ts != [] {
      OnDayDropsAll(ts[1..], day);
    }
  }

  lemma {:induction false} OtherDaysDropsAll(ts: seq<Transaction>, day: string)
    requires forall i :: 0 <= i < |ts| ==> ts[i].date == day
    ensures OtherDays(ts, day) == []
  {
    if ts != [] {
      OtherDaysDropsAll(ts[1..], day);
    }
  }

  /** `find` returns the first match: when `ts[i]` matches and no record
      before it does, the look-up gives `ts[i]`. */
  lemma {:induction false} FindFirst(ts: seq<Transaction>, day: string, kind: string, i: int)
    requires 0 <= i < |ts| && ts[i].date == day && ts[i].kind == kind
    requires forall j :: 0 <= j < i ==> !(ts[j].date == day && ts[j].kind == kind)
    ensures Find(ts, day, kind) == Some(ts[i])
  {
    if i > 0 {
      FindFirst(ts[1..], day, kind, i - 1);
    }
  }

  /** `find` returns the first match: a match in the front part wins, and
      otherwise the search goes on in the back part. */
  lemma {:induction false} FindAppend(a: seq<Transaction>, b: seq<Transaction>, day: string, kind: string)
    ensures Find(a + b, day, kind) == if Find(a, day, kind).Some? then Find(a, day, kind) else Find(b, day, kind)
  {
    if a == [] {
      assert a + b == b;
    } else {
      FindAppend(a[1..], b, day, kind);
      assert (a + b)[1..] == a[1..] + b;
    }
  }

  // ---------------------------------------------------------------------------
  // Properties of a save
  // ---------------------------------------------------------------------------

  /** Frame: the records of every other day are exactly those before the
      save, in the same order. */
  lemma SaveKeepsOtherDays(ts: seq<Transaction>, today: string, rawCash: string, rawTips: string)
    ensures OtherDays(AfterSave(ts, today, rawCash, rawTips), today) == OtherDays(ts, today)
  {
    var kept := OtherDays(ts, today);
    var added := NewRecords(today, rawCash, rawTips);
    OtherDaysAppend(kept, added, today);
    OtherDaysKeepsAll(kept, today);
    OtherDaysDropsAll(added, today);
  }

  /** After a save, today's records are the new ones and nothing else, and
      they sit at the end of the list after the kept records. */
  lemma SaveReplacesToday(ts: seq<Transaction>, today: string, rawCash: string, rawTips: string)
    ensures OnDay(AfterSave(ts, today, rawCash, rawTips), today) == NewRecords(today, rawCash, rawTips)
    ensures AfterSave(ts, today, rawCash, rawTips)[..|OtherDays(ts, today)|] == OtherDays(ts, today)
  {
    var kept := OtherDays(ts, today);
    var added := NewRecords(today, rawCash, rawTips);
    OnDayAppend(kept, added, today);
    OnDayDropsAll(kept, today);
    OnDayKeepsAll(added, today);
    assert (kept + added)[..|kept|] == kept;
  }

  /** The records a save writes for today: one per non-empty field, cash
      before tips, and no other kind. */
  lemma NewRecordsShape(today: string, rawCash: string, rawTips: string)
    ensures var r := NewRecords(today, rawCash, rawTips);
      && |r| == (if rawCash != "" then 1 else 0) + (if rawTips != "" then 1 else 0)
      && (forall i :: 0 <= i < |r| ==> r[i].kind == Cash || r[i].kind == Tips)
      && (rawCash != "" && rawTips != "" ==> r[0].kind == Cash && r[1].kind == Tips)
  {
  }

  /** Among the records a save writes, the cash record is there exactly when
      the cash text is not empty, and carries that text and its sum; likewise
      the tips record. */
  lemma NewRecordsFind(today: string, rawCash: string, rawTips: string)
    ensures Find(NewRecords(today, rawCash, rawTips), today, Cash) ==
      if rawCash != "" then Some(Transaction(today, Cash, Calculator.CalculateString(rawCash), rawCash)) else None
    ensures Find(NewRecords(today, rawCash, rawTips), today, Tips) ==
      if rawTips != "" then Some(Transaction(today, Tips, Calculator.CalculateString(rawTips), rawTips)) else None
  {
    var r := NewRecords(today, rawCash, rawTips);
    if rawCash != "" && rawTips != "" {
      assert r[1..] == [r[1]];
    }
  }

  /** After a save, looking today's cash or tips record up finds exactly the
      record the save wrote, or nothing when that field was empty. */
  lemma SaveFindsToday(ts: seq<Transaction>, today: string, rawCash: string, rawTips: string)
    ensures Find(AfterSave(ts, today, rawCash, rawTips), today, Cash) ==
      if rawCash != "" then Some(Transaction(today, Cash, Calculator.CalculateString(rawCash), rawCash)) else None
    ensures Find(AfterSave(ts, today, rawCash, rawTips), today, Tips) ==
      if rawTips != "" then Some(Transaction(today, Tips, Calculator.CalculateString(rawTips), rawTips)) else None
  {
    var kept := OtherDays(ts, today);
    var added := NewRecords(today, rawCash, rawTips);
    FindAppend(kept, added, today, Cash);
    FindAppend(kept, added, today, Tips);
    NewRecordsFind(today, rawCash, rawTips);
  }

  /** Saving twice with the same inputs leaves the same list as saving once. */
  lemma SaveIdempotent(ts: seq<Transaction>, today: string, rawCash: string, rawTips: string)
    ensures AfterSave(AfterSave(ts, today, rawCash, rawTips), today, rawCash, rawTips)
         == AfterSave(ts, today, rawCash, rawTips)
  {
    SaveKeepsOtherDays(ts, today, rawCash, rawTips);
  }

  /** Round trip: what `init` restores into the two fields after a save is
      what the fields held when it saved, for non-empty text; an empty field
      stays as it is. */
  lemma SaveThenRestore(ts: seq<Transaction>, today: string, rawCash: string, rawTips: string,
                        cashField: string, tipsField: string)
    ensures var after := AfterSave(ts, today, rawCash, rawTips);
      && Restored(after, today, Cash, cashField) == (if rawCash != "" then rawCash else cashField)
      && Restored(after, today, Tips, tipsField) == (if rawTips != "" then rawTips else tipsField)
  {
    SaveFindsToday(ts, today, rawCash, rawTips);
  }

  /** At most one record per day and kind, the invariant the save keeps. */
  ghost predicate OnePerDayAndKind(ts: seq<Transaction>) {
    forall i, j :: 0 <= i < j < |ts| ==> !(ts[i].date == ts[j].date && ts[i].kind == ts[j].kind)
  }

  lemma {:induction false} OtherDaysKeepsOnePerDayAndKind(ts: seq<Transaction>, day: string)
    requires OnePerDayAndKind(ts)
    ensures OnePerDayAndKind(OtherDays(ts, day))
  {
    if ts != [] && ts[0].date != day {
      var rest := OtherDays(ts[1..], day);
      OtherDaysKeepsOnePerDayAndKind(ts[1..], day);
      forall j | 0 <= j < |rest| ensures !(ts[0].date == rest[j].date && ts[0].kind == rest[j].kind) {
        OtherDaysMembers(ts[1..], day, rest[j]);
        var k :| 0 <= k < |ts[1..]| && ts[1..][k] == rest[j];
        assert ts[k + 1] == rest[j];
      }
    } else if ts != [] {
      OtherDaysKeepsOnePerDayAndKind(ts[1..], day);
    }
  }

  lemma OnePerDayAndKindConcat(a: seq<Transaction>, b: seq<Transaction>, day: string)
    requires OnePerDayAndKind(a) && OnePerDayAndKind(b)
    requires forall i :: 0 <= i < |a| ==> a[i].date != day
    requires forall i :: 0 <= i < |b| ==> b[i].date == day
    ensures OnePerDayAndKind(a + b)
  {
    var c := a + b;
    forall i, j | 0 <= i < j < |c| ensures !(c[i].date == c[j].date && c[i].kind == c[j].kind) {
      if j < |a| {
        assert c[i] == a[i] && c[j] == a[j];
      } else if i >= |a| {
        assert c[i] == b[i - |a|] && c[j] == b[j - |a|];
      } else {
        assert c[i] == a[i] && c[j] == b[j - |a|];
      }
    }
  }

  lemma NewRecordsOnePerDayAndKind(today: string, rawCash: string, rawTips: string)
    ensures OnePerDayAndKind(NewRecords(today, rawCash, rawTips))
  {
    var r := NewRecords(today, rawCash, rawTips);
    assert |r| == 2 ==> r[0].kind == Cash && r[1].kind == Tips;
  }

  /** A save keeps "at most one record per day and kind"; today in particular
      ends with at most one cash and one tips record. */
  lemma SaveKeepsOnePerDayAndKind(ts: seq<Transaction>, today: string, rawCash: string, rawTips: string)
    requires OnePerDayAndKind(ts)
    ensures OnePerDayAndKind(AfterSave(ts, today, rawCash, rawTips))
  {
    OtherDaysKeepsOnePerDayAndKind(ts, today);
    NewRecordsOnePerDayAndKind(today, rawCash, rawTips);
    OnePerDayAndKindConcat(OtherDays(ts, today), NewRecords(today, rawCash, rawTips), today);
  }

  // ---------------------------------------------------------------------------
  // Properties of the month statistics
  // ---------------------------------------------------------------------------

  /** The figures of a concatenation are the sums of the figures of its
      parts. */
  lemma {:induction false} MonthTotalsAppend(a: seq<Transaction>, b: seq<Transaction>, monthOf: string -> string, month: string)
    ensures CashTotal(a + b, monthOf, month) == CashTotal(a, monthOf, month) + CashTotal(b, monthOf, month)
    ensures TipsTotal(a + b, monthOf, month) == TipsTotal(a, monthOf, month) + TipsTotal(b, monthOf, month)
  {
    if b == [] {
      assert a + b == a;
    } else {
      var c := a + b;
      MonthTotalsAppend(a, b[..|b| - 1], monthOf, month);
      assert c[..|c| - 1] == a + b[..|b| - 1];
    }
  }

  /** Records outside the month contribute nothing; in particular an empty
      list gives zero cash and zero tips. */
  lemma {:induction false} MonthTotalsOutsideMonth(ts: seq<Transaction>, monthOf: string -> string, month: string)
    requires forall i :: 0 <= i < |ts| ==> monthOf(ts[i].date) != month
    ensures CashTotal(ts, monthOf, month) == 0 && TipsTotal(ts, monthOf, month) == 0
  {
    if ts != [] {
      MonthTotalsOutsideMonth(ts[..|ts| - 1], monthOf, month);
    }
  }

  /** Every record of the month lands in exactly one of the two figures:
      cash when its kind is "cash", tips for any other kind. So the card's
      total is the sum of all the month's amounts. */
  lemma {:induction false} KindsSplitMonth(ts: seq<Transaction>, monthOf: string -> string, month: string)
    ensures CashTotal(ts, monthOf, month) + TipsTotal(ts, monthOf, month) == MonthAmount(ts, monthOf, month)
  {
    if ts != [] {
      KindsSplitMonth(ts[1..], monthOf, month);
      MonthTotalsAppend([ts[0]], ts[1..], monthOf, month);
      assert [ts[0]] + ts[1..] == ts;
      assert [ts[0]][..0] == [];
    }
  }

  /** After a save, the month's figures are those of the other days plus
      today's sums, when today falls in that month. */
  lemma SaveMonthTotals(ts: seq<Transaction>, today: string, rawCash: string, rawTips: string,
                        monthOf: string -> string, month: string)
    ensures var after := AfterSave(ts, today, rawCash, rawTips);
      var inMonth := monthOf(today) == month;
      && CashTotal(after, monthOf, month) == CashTotal(OtherDays(ts, today), monthOf, month)
           + (if inMonth && rawCash != "" then Calculator.CalculateString(rawCash) else 0)
      && TipsTotal(after, monthOf, month) == TipsTotal(OtherDays(ts, today), monthOf, month)
           + (if inMonth && rawTips != "" then Calculator.CalculateString(rawTips) else 0)
  {
    var kept := OtherDays(ts, today);
    var added := NewRecords(today, rawCash, rawTips);
    MonthTotalsAppend(kept, added, monthOf, month);
    if rawCash != "" && rawTips != "" {
      MonthTotalsAppend([added[0]], [added[1]], monthOf, month);
      assert added == [added[0]] + [added[1]];
      assert [added[0]][..0] == [] && [added[1]][..0] == [];
    }
  }
}
