/** The two on-screen digit buffers of the kiosk: the offer amount (in cents,
    at most eight digits, "0" as the empty placeholder) and the six-digit
    administrator passcode. */
module Keypad {
  import opened Numerals

  /** Longest amount the keypad builds, in digits. */
  const AmountLimit: nat := 8

  /** Length of the administrator passcode. */
  const PasscodeLength: nat := 6

  /** The fixed shared passcode of the administration area. */
  const AdminPasscode: string := "123456"

  /** The empty amount buffer. */
  const ZeroAmount: string := "0"

  /** A digit key on the amount screen: a full buffer ignores it, the "0"
      placeholder is replaced, and otherwise the digit is appended. */
  function PressAmount(a: string, d: Digit): (r: string)
    ensures |a| >= AmountLimit ==> r == a
    ensures |a| <= AmountLimit ==> |r| <= AmountLimit
    ensures Canonical(a) ==> Canonical(r)
    ensures |a| < AmountLimit && AllDigits(a) ==> AllDigits(r) && Value(r) == 10 * Value(a) + DigitValue(d)
  {
    if |a| >= AmountLimit then a
    else if a == ZeroAmount then [d]
    else
      var r := a + [d];
      assert r[..|r| - 1] == a;
      r
  }

  /** The backspace key on the amount screen: drops the last digit and falls
      back to the "0" placeholder instead of ever leaving the buffer empty. */
  function BackspaceAmount(a: string): (r: string)
    ensures r != []
    ensures |a| <= 1 ==> r == ZeroAmount
    ensures |a| > 1 ==> |r| == |a| - 1 && a == r + [a[|a| - 1]]
    ensures AllDigits(a) ==> AllDigits(r) && Value(r) == Value(a) / 10
    ensures Canonical(a) ==> Canonical(r)
  {
    if |a| <= 1 then ZeroAmount else a[..|a| - 1]
  }

  /** Backspace undoes a digit press on any non-empty buffer that still had
      room for the digit. */
  lemma BackspaceUndoesPress(a: string, d: Digit)
    requires 1 <= |a| < AmountLimit
    ensures BackspaceAmount(PressAmount(a, d)) == a
  {
    if a != ZeroAmount {
      assert (a + [d])[..|a|] == a;
    }
  }

  /** A digit key on the passcode screen: appended while fewer than six digits
      are entered, ignored afterwards. */
  function PressPasscode(p: string, d: Digit): (r: string)
    ensures |p| <= PasscodeLength ==> |r| <= PasscodeLength
    ensures |p| < PasscodeLength ==> |r| == |p| + 1 && r[..|p|] == p && r[|p|] == d
    ensures |p| >= PasscodeLength ==> r == p
  {
    if |p| >= PasscodeLength then p else p + [d]
  }

  /** The backspace key on the passcode screen: `slice(0, -1)`, which leaves
      an empty buffer empty. */
  function BackspacePasscode(p: string): (r: string)
    ensures p == [] ==> r == []
    ensures p != [] ==> |r| == |p| - 1 && p == r + [p[|p| - 1]]
  {
    if p == [] then [] else p[..|p| - 1]
  }

  /** The submit button is enabled exactly when six digits are entered. */
  predicate CanSubmit(p: string) {
    |p| == PasscodeLength
  }

  /** The passcode buffer after typing `ds` key by key. */
  function TypePasscode(p: string, ds: seq<Digit>): string
    decreases |ds|
  {
    if ds == [] then p else TypePasscode(PressPasscode(p, ds[0]), ds[1..])
  }

  /** Typing into an empty passcode buffer keeps exactly the first six digits
      typed: the buffer never grows past six and extra keys are dropped. */
  lemma {:induction false} TypePasscodeKeepsFirstSix(p: string, ds: seq<Digit>)
    requires |p| <= PasscodeLength
    ensures TypePasscode(p, ds) == (p + ds)[..if |p| + |ds| < PasscodeLength then |p| + |ds| else PasscodeLength]
    decreases |ds|
  {
    if ds != [] {
      var q := PressPasscode(p, ds[0]);
      TypePasscodeKeepsFirstSix(q, ds[1..]);
      if |p| < PasscodeLength {
        assert q + ds[1..] == p + ds;
      } else {
        assert (p + ds)[..PasscodeLength] == p;
        assert (p + ds[1..])[..PasscodeLength] == p;
      }
    } else {
      assert p + ds == p;
    }
  }
}
