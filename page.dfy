/** The page around the ledger: the two calculator fields (cash and tips),
    the start-up code that fills them from today's records, the keydown
    handler that rewrites '.' and saves, and the input event that saves
    after every edit the browser makes. */
module Page {
  import opened Optional
  import Keyboard
  import Records

  /** The two text areas, `inputCash` and `inputTips`. */
  datatype Field = CashField | TipsField

  class Page {
    /** `currentDateStr`: today's date key, fixed for the life of the page. */
    const today: string
    /** The global `transactions` list. */
    const ledger: Records.Ledger
    var cashInput: string
    var tipsInput: string

    /** The text a field currently holds. */
    function Value(field: Field): string
      reads this
    {
      match field
      case CashField => cashInput
      case TipsField => tipsInput
    }

    /** The stored list agrees with the two fields: today's cash record is
        there exactly when the cash field is not empty, and it carries the
        field's text and its sum; likewise for tips. This is what every save
        establishes. */
    ghost predicate InSync()
      reads this, ledger
    {
      && Records.Find(ledger.transactions, today, Records.Cash)
           == (if cashInput != "" then Some(Records.Entry(today, Records.Cash, cashInput)) else None)
      && Records.Find(ledger.transactions, today, Records.Tips)
           == (if tipsInput != "" then Some(Records.Entry(today, Records.Tips, tipsInput)) else None)
    }

    /** `init`: the list comes from storage, and each field takes the raw
        text of today's record of its kind when there is one; otherwise it
        keeps the text the markup gave it. */
    constructor (stored: seq<Records.Transaction>, today: string, initialCash: string, initialTips: string)
      ensures this.today == today
      ensures fresh(ledger) && ledger.transactions == stored
      ensures cashInput == Records.Restored(stored, today, Records.Cash, initialCash)
      ensures tipsInput == Records.Restored(stored, today, Records.Tips, initialTips)
    {
      this.today := today;
      ledger := new Records.Ledger(stored);
      var todayCash := Records.Find(stored, today, Records.Cash);
      var todayTips := Records.Find(stored, today, Records.Tips);
      cashInput := initialCash;
      tipsInput := initialTips;
      if todayCash.Some? {
        cashInput := todayCash.value.raw;
      }
      if todayTips.Some? {
        tipsInput := todayTips.value.raw;
      }
    }

    /** `autoSave`: replace today's records with those of the two fields. */
    method AutoSave()
      modifies ledger
      ensures ledger.transactions == Records.AfterSave(old(ledger.transactions), today, cashInput, tipsInput)
      ensures InSync()
    {
      ledger.Save(today, cashInput, tipsInput);
      Records.SaveFindsToday(old(ledger.transactions), today, cashInput, tipsInput);
    }

    /** The `input` event: the browser has changed a field's text (typing,
        deletion, paste), and the page saves. */
    method OnInput(field: Field, text: string)
      modifies this, ledger
      ensures Value(field) == text
      ensures field == CashField ==> tipsInput == old(tipsInput)
      ensures field == TipsField ==> cashInput == old(cashInput)
      ensures ledger.transactions == Records.AfterSave(old(ledger.transactions), today, cashInput, tipsInput)
      ensures InSync()
    {
      if field == CashField {
        cashInput := text;
      } else {
        tipsInput := text;
      }
      AutoSave();
    }

    /** `handleCalcInput` for a keydown in `field`: the '.' rewrite may append
        a '+' to the field and then saves; the result says whether the
        browser's own handling of the key is prevented. */
    method HandleCalcInput(field: Field, key: string) returns (prevented: bool)
      modifies this, ledger
      ensures var outcome := Keyboard.Keystroke(key, old(Value(field)));
        && prevented == outcome.prevented
        && Value(field) == outcome.value
        && (outcome.saved ==>
              ledger.transactions == Records.AfterSave(old(ledger.transactions), today, cashInput, tipsInput))
        && (!outcome.saved ==> ledger.transactions == old(ledger.transactions))
      ensures field == CashField ==> tipsInput == old(tipsInput)
      ensures field == TipsField ==> cashInput == old(cashInput)
      ensures old(InSync()) ==> InSync()
      ensures Keyboard.Keystroke(key, old(Value(field))).saved ==> InSync()
    {
      var outcome := Keyboard.Keystroke(key, Value(field));
      if outcome.saved {
        if field == CashField {
          cashInput := outcome.value;
        } else {
          tipsInput := outcome.value;
        }
        AutoSave();
      }
      prevented := outcome.prevented;
    }
  }
}
