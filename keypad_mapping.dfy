/**
 * The keypad table (`KeypadMapping.LettersByKey`): each digit key and the
 * ordered cycle of characters its presses walk through.
 */
module KeypadMapping {
  import opened Wrappers
  import Keypad

  /** Keys 2-9: upper-case letters then the digit; key 1: punctuation then 1;
      key 0: a space then 0. */
  const LettersByKey: map<char, string> := map[
    '1' := ".,?!:'\"()-1",
    '2' := "ABC2",
    '3' := "DEF3",
    '4' := "GHI4",
    '5' := "JKL5",
    '6' := "MNO6",
    '7' := "PQRS7",
    '8' := "TUV8",
    '9' := "WXYZ9",
    '0' := " 0"
  ]

  /**
   * The cycle of `key`, absent for anything but a digit. Every cycle is
   * non-empty and ends with the key's own digit.
   */
  function LettersFor(key: char): (r: Option<string>)
    ensures r.Some? <==> '0' <= key <= '9'
    ensures r.Some? ==> |r.value| > 0 && r.value[|r.value| - 1] == key
  {
    if key in LettersByKey then Some(LettersByKey[key]) else None
  }

  /** The table's key set is exactly the ten digits. */
  lemma KeysAreDigits()
    ensures forall c :: c in LettersByKey <==> '0' <= c <= '9'
  {
  }

  /** Every cycle is non-empty, so the decoder's modular lookup is defined on every key,
      and no key of the table is one of the decoder's control characters. */
  lemma LettersByKeyWellFormed()
    ensures Keypad.WellFormed(LettersByKey)
    ensures forall c | c in LettersByKey :: Keypad.IsKey(LettersByKey, c)
  {
  }

  predicate IsUpper(c: char)
  {
    'A' <= c <= 'Z'
  }

  /** Keys 2-9 have three or four upper-case letters followed by the digit itself
      (cycle length 4 for 2, 3, 4, 5, 6, 8 and 5 for 7 and 9). */
  lemma LetterKeysCycle(k: char)
    requires '2' <= k <= '9'
    ensures var letters := LettersByKey[k];
      && |letters| == (if k == '7' || k == '9' then 5 else 4)
      && letters[|letters| - 1] == k
      && forall i | 0 <= i < |letters| - 1 :: IsUpper(letters[i])
  {
  }

  /** Key 1 cycles through eleven entries, ten punctuation marks then 1; its third press is '?'. */
  lemma PunctuationKeyCycle()
    ensures LettersByKey['1'] == ['.', ',', '?', '!', ':', '\'', '"', '(', ')', '-', '1']
    ensures |LettersByKey['1']| == 11
    ensures Keypad.LetterFor(LettersByKey, '1', 3) == '?'
  {
  }

  /** Key 0 cycles between a visible space and 0: one press emits a space. */
  lemma SpaceKeyCycle()
    ensures LettersByKey['0'] == [' ', '0']
    ensures Keypad.LetterFor(LettersByKey, '0', 1) == ' '
    ensures Keypad.LetterFor(LettersByKey, '0', 2) == '0'
  {
  }

  /** Four presses of 2 reach the digit 2; the fifth wraps back to A. */
  lemma KeyTwoWraps()
    ensures Keypad.LetterFor(LettersByKey, '2', 4) == '2'
    ensures Keypad.LetterFor(LettersByKey, '2', 5) == 'A'
  {
  }

  /**
   * Pressing a letter key `n >= 1` times and terminating decodes to the single
   * entry at position `(n - 1) mod L` of its cycle of length `L`.
   */
  lemma LetterKeyPresses(k: char, n: nat)
    requires '2' <= k <= '9' && n >= 1
    ensures var letters := LettersByKey[k];
      Keypad.Decode(LettersByKey, Keypad.Presses(k, n) + [Keypad.Terminator]) == [letters[(n - 1) % |letters|]]
  {
    Keypad.SingleKeyDecodes(LettersByKey, k, n);
  }
}
