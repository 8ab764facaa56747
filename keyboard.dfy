/** The keydown handler of the two calculator fields: the '.' key becomes a
    single '+' appended to the field, and every key outside a short list is
    stopped before it reaches the field. */
module Keyboard {
  import Calculator

  /** The named keys the handler lets through besides the single digits. */
  const ListedKeys: seq<string> :=
    ["Backspace", "ArrowLeft", "ArrowRight", "ArrowUp", "ArrowDown", "Enter", "Tab", "+"]

  /** `/^[0-9]$/.test(key)`: exactly one decimal digit. */
  predicate IsDigitKey(key: string) {
    |key| == 1 && Calculator.IsDecimalDigit(key[0])
  }

  /** A key that the validation step does not prevent. */
  predicate IsAllowedKey(key: string) {
    IsDigitKey(key) || key in ListedKeys
  }

  /** What one keydown does to the field: its new value, whether the
      browser's default action is prevented, and whether the handler saved. */
  datatype KeyOutcome = KeyOutcome(value: string, prevented: bool, saved: bool)

  /** The '.' rewrite: append a '+' unless the value is empty or already
      ends in '+'. */
  predicate AppendsPlus(key: string, value: string) {
    key == "." && |value| > 0 && value[|value| - 1] != '+'
  }

  /** `handleCalcInput` for a key pressed in a field holding `value`. */
  function Keystroke(key: string, value: string): KeyOutcome {
    var append := AppendsPlus(key, value);
    KeyOutcome(if append then value + "+" else value, key == "." || !IsAllowedKey(key), append)
  }

  predicate EndsInDoublePlus(s: string) {
    |s| >= 2 && s[|s| - 2] == '+' && s[|s| - 1] == '+'
  }

  /** The filter lets through exactly the ten digit keys and the eight
      listed keys. */
  lemma AllowedKeysExactly(key: string)
    ensures IsAllowedKey(key) <==>
      key in {"0", "1", "2", "3", "4", "5", "6", "7", "8", "9",
              "Backspace", "ArrowLeft", "ArrowRight", "ArrowUp", "ArrowDown", "Enter", "Tab", "+"}
  {
    if IsDigitKey(key) {
      assert key == [key[0]];
    }
  }

  /** The '.' key is always prevented, whatever the field holds: it never
      reaches the field as a character. */
  lemma DotAlwaysPrevented(value: string)
    ensures Keystroke(".", value).prevented
    ensures !IsAllowedKey(".")
  {
    AllowedKeysExactly(".");
  }

  /** On '.', a non-empty value not ending in '+' gets exactly one '+'
      appended and is saved; any other value is left as it is and not saved. */
  lemma DotKey(value: string)
    ensures var r := Keystroke(".", value);
      && (|value| > 0 && value[|value| - 1] != '+' ==> r.value == value + "+" && r.saved)
      && (|value| == 0 || value[|value| - 1] == '+' ==> r.value == value && !r.saved)
  {
  }

  /** The '.' rewrite never creates a trailing "++": the new value ends in
      "++" exactly when the old one did. */
  lemma DotNoDoublePlus(value: string)
    ensures EndsInDoublePlus(Keystroke(".", value).value) <==> EndsInDoublePlus(value)
  {
    var v := Keystroke(".", value).value;
    if AppendsPlus(".", value) {
      assert v[|v| - 2] == value[|value| - 1];
    }
  }

  /** The '.' rewrite is idempotent: a second '.' changes nothing more. */
  lemma DotIdempotent(value: string)
    ensures var once := Keystroke(".", value).value;
      Keystroke(".", once).value == once && !Keystroke(".", once).saved
  {
    var once := Keystroke(".", value).value;
    assert |once| == 0 || once[|once| - 1] == '+';
  }

  /** The '.' rewrite never changes what the field adds up to. */
  lemma DotKeepsSum(value: string)
    ensures Calculator.CalculateString(Keystroke(".", value).value) == Calculator.CalculateString(value)
  {
    if AppendsPlus(".", value) {
      Calculator.TrailingPlusNeutral(value);
    }
  }

  /** Keys other than '.' never touch the field's value and never save; the
      handler only decides whether the browser may go on. */
  lemma OtherKeysOnlyFilter(key: string, value: string)
    requires key != "."
    ensures Keystroke(key, value) == KeyOutcome(value, !IsAllowedKey(key), false)
  {
  }
}
