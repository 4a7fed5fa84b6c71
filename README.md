# OldPhone multi-tap keypad decoder in Dafny

This project models the OldPhone keypad decoder. The decoder turns the keystrokes of an old mobile phone keypad into text:

- repeated presses of one digit key cycle through that key's letters;
- `' '` confirms the pending letter;
- `'0'` cycles to a visible space;
- `'*'` is a backspace;
- `'#'` ends the input.

The model has four modules:

- `Keypad` (`keypad.dfy`) holds the decoder, parameterised by a key table (`KeyMap`, key character to its ordered cycle of letters):
  - `Decode` is the specification. It is a recursive scan (`Run`) over an explicit state followed by a final `Flush`. The state is the pending key as an `Option<char>`, the press count and the text emitted so far. Each keystroke is one `Step`, and `LetterFor` is the modular lookup.
  - `OldPhonePad` is the routine's own loop. It updates `lastChar`, `count` and `result` in place, breaks at `'#'` and flushes after the loop. It is proved equal to `Decode` for every table and every input.
  - Lemmas state what one keystroke does and what whole scans do.
- `KeypadMapping` (`keypad_mapping.dfy`) holds the repository's table `LettersByKey` and the lemmas about its cycles.
- `KeypadExamples` (`keypad_examples.dfy`) instantiates the decoder with `LettersByKey` and proves each expected output of the repository's unit tests. That includes the HELLO WORLD keystrokes repeated any number of times, not only the hundred copies the test uses.
- `Wrappers` (`wrappers.dfy`) holds the `Option` type.

The visible `OldPhonePad` (`OldPhoneApp/OldPhoneKeyPad.cs:25-56`) and the unit tests (`OldPhoneKeyPad.Tests/KeypadTests.cs`) disagree. This model follows the tests, and the routine's loop shape:

- The routine looks letters up in the older `KeypadDictionary.Map`. The tests' outputs (`"2222#"` gives `"2"`, `"111#"` gives `"?"`) need `KeypadMapping.LettersByKey`, so the model uses that table.
- The routine treats `'*'` as an ordinary key. The tests expect `'*'` to cancel a pending run, or else delete the last emitted character, and to do nothing on empty output. The model does that.
- The routine echoes any character outside its table through the fallback of `GetLetterFromDictionnary`. The tests expect such characters to be skipped (`"2211c122222c#"` gives `"B?A"`). The model skips them.

Everything else follows the routine:

- the terminator break;
- the separator flush (except with nothing pending; see "## Findings");
- the same-key increment;
- the different-key flush and restart;
- the final flush;
- the lookup `letters[(count - 1) % letters.Length]`.

`count` is always at least 1 when this lookup runs, so C#'s truncating remainder and Dafny's Euclidean `%` agree.

## Model

| member | source | states |
|---|---|---|
| Keypad.OldPhonePad | OldPhoneApp/OldPhoneKeyPad.cs:25-56 | The in-place loop, with its break at the terminator and its flush after the loop, returns exactly `Decode(m, input)` for every table and input |
| Keypad.LetterFor | OldPhoneApp/OldPhoneKeyPad.cs:58-65 | The lookup for a key pressed `count >= 1` times is always in bounds and yields a letter of that key; within the first cycle it is the `count`-th letter |
| Keypad.LetterForPeriodic | OldPhoneApp/OldPhoneKeyPad.cs:63-64 | Pressing a key once more per letter of its cycle yields the same letter again (the lookup wraps around) |
| Keypad.Flush | OldPhoneApp/OldPhoneKeyPad.cs:53-54 | Resolving the pending run appends exactly one character, the run's letter, and clears the pending key and count; with nothing pending the text is unchanged |
| Keypad.Step | OldPhoneApp/OldPhoneKeyPad.cs:32-50 | One keystroke keeps the state invariant: a key is pending exactly when the count is positive, and a pending key is a key of the table |
| Keypad.Decode | OldPhoneApp/OldPhoneKeyPad.cs:25-56 | The whole routine: the scan up to the first terminator followed by the flush of the run still pending; the decoded text is never longer than the keystrokes |
| Keypad.Run | OldPhoneApp/OldPhoneKeyPad.cs:30-34 | Scanning up to the first terminator keeps the same state invariant |
| Keypad.SeparatorFlushes | OldPhoneApp/OldPhoneKeyPad.cs:35-41 | A separator flushes the pending run (one character, or none when nothing is pending) and clears the state, emitting no character of its own |
| Keypad.SameKeyIncrements | OldPhoneApp/OldPhoneKeyPad.cs:42-43 | Another press of the pending key only increments the count |
| Keypad.DifferentKeyFlushesAndRestarts | OldPhoneApp/OldPhoneKeyPad.cs:44-50 | A press of a different key appends exactly the previous run's letter (nothing if none was pending), then restarts with that key and count 1 |
| Keypad.BackspaceCancelsOrDeletes | OldPhoneKeyPad.Tests/KeypadTests.cs:40-47 | `'*'` cancels a pending run leaving the text alone; otherwise it deletes the last emitted character; with nothing pending and nothing emitted it changes nothing |
| Keypad.UnknownCharIgnored | OldPhoneKeyPad.Tests/KeypadTests.cs:49-56 | A character that is neither a control nor a key of the table leaves the whole state unchanged, including the pending run |
| Keypad.RunAppend | OldPhoneApp/OldPhoneKeyPad.cs:30-51 | Scanning `s + t` equals scanning `s` and then `t` from where `s` left off, when `s` has no terminator |
| Keypad.RunStopsAtTerminator | OldPhoneApp/OldPhoneKeyPad.cs:33-34 | The scan of `s + "#" + t` ends in the same state as the scan of `s`: nothing after the terminator is examined |
| Keypad.DecodeStopsAtTerminator | OldPhoneApp/OldPhoneKeyPad.cs:33-34 | The decoded text of `s + "#" + t` is that of `s`, whatever `t` is |
| Keypad.PendingRunNotLost | OldPhoneApp/OldPhoneKeyPad.cs:53-54 | A run still pending when the scan ends becomes the last character of the result, right after the text emitted before, which is kept unchanged |
| Keypad.PressesAccumulate | OldPhoneApp/OldPhoneKeyPad.cs:42-43 | `n` further presses of the pending key add `n` to the count and emit nothing |
| Keypad.SingleKeyDecodes | OldPhoneApp/OldPhoneKeyPad.cs:42-64 | Pressing one key `n >= 1` times and terminating decodes to the single letter at position `(n - 1) mod L` of its cycle of length `L` |
| Keypad.RunSkipsUnknown | OldPhoneKeyPad.Tests/KeypadTests.cs:49-56 | Deleting from the keystrokes every character that is neither a control nor a key does not change the state the scan ends in |
| Keypad.DecodeSkipsUnknown | OldPhoneKeyPad.Tests/KeypadTests.cs:49-56 | Deleting those characters does not change the decoded text |
| Keypad.RunWeightBound | OldPhoneApp/OldPhoneKeyPad.cs:30-54 | Each keystroke adds at most one to the emitted length plus the pending flag, so the final weight is bounded by the start weight plus the keystroke count |
| Keypad.StepKeepsEmitted | OldPhoneApp/OldPhoneKeyPad.cs:35-50 | Without backspace, one keystroke never reads or changes the text already emitted: putting text in front of the output puts it in front of the result |
| Keypad.RunKeepsEmitted | OldPhoneApp/OldPhoneKeyPad.cs:30-51 | The same for a whole scan without backspaces |
| Keypad.PendingFlushedByNextKey | OldPhoneApp/OldPhoneKeyPad.cs:44-50 | Keystrokes starting with a different key, scanned while a run is pending, decode as from scratch behind that run's letter |
| Keypad.StepEmittable | OldPhoneApp/OldPhoneKeyPad.cs:32-50 | One keystroke never puts a character into the text that is not a letter of the table |
| Keypad.RunEmittable | OldPhoneApp/OldPhoneKeyPad.cs:30-51 | The same for a whole scan |
| Keypad.DecodeEmittable | OldPhoneApp/OldPhoneKeyPad.cs:25-56 | Every character of the decoded text is a letter of the table |
| Keypad.LookupAsWritten | OldPhoneApp/OldPhoneKeyPad.cs:58-65 | The lookup as written echoes a key the table lacks or maps to no letters, and otherwise yields a letter of the key |
| Keypad.SeparatorAsWritten | OldPhoneApp/OldPhoneKeyPad.cs:35-41 | The separator branch as written always appends exactly one character and clears the state |
| Keypad.SeparatorAsWrittenDiffers | OldPhoneApp/OldPhoneKeyPad.cs:35-41 | The separator as written agrees with `Step` whenever a run is pending, and with nothing pending it appends the sentinel where `Step` appends nothing |
| KeypadMapping.LettersFor | OldPhoneApp/KeypadMapping.cs:19-32 | The table's lookup contract (the decoder itself indexes the table directly): a key has a cycle exactly when it is a digit; every cycle is non-empty and ends with the key's own digit |
| KeypadMapping.KeysAreDigits | OldPhoneApp/KeypadMapping.cs:22-31 | The table's keys are exactly `'0'` to `'9'` |
| KeypadMapping.LettersByKeyWellFormed | OldPhoneApp/KeypadMapping.cs:22-31 | Every cycle is non-empty, so the modular lookup is defined on every key, and no key is a control character |
| KeypadMapping.LetterKeysCycle | OldPhoneApp/KeypadMapping.cs:23-30 | Keys 2-9 map to upper-case letters followed by the digit itself: cycle length 5 for keys 7 and 9, 4 for the others |
| KeypadMapping.PunctuationKeyCycle | OldPhoneApp/KeypadMapping.cs:22 | Key 1 cycles through `. , ? ! : ' " ( ) -` then `1`, eleven entries; its third press is `'?'` |
| KeypadMapping.SpaceKeyCycle | OldPhoneApp/KeypadMapping.cs:31 | Key 0 cycles through a visible space then `0` |
| KeypadMapping.KeyTwoWraps | OldPhoneApp/KeypadMapping.cs:23 | Four presses of 2 give `'2'`, five wrap back to `'A'` |
| KeypadMapping.LetterKeyPresses | OldPhoneKeyPad.Tests/KeypadTests.cs:66-76 | `n >= 1` presses of a letter key, then `#`, decode to the entry at `(n - 1) mod L` of its cycle |
| KeypadExamples.EmptyInput | OldPhoneApp/OldPhoneKeyPad.cs:27-30 | Empty input decodes to empty text |
| KeypadExamples.DecodesTuring | OldPhoneKeyPad.Tests/KeypadTests.cs:9-14 | `"8 8877744466*664#"` decodes to `"TURING"` |
| KeypadExamples.SeparatorEmitsNoSpace | OldPhoneKeyPad.Tests/KeypadTests.cs:16-22 | `"22 22#"` decodes to `"BB"` |
| KeypadExamples.ZeroEmitsSpace | OldPhoneKeyPad.Tests/KeypadTests.cs:24-30 | `"44 4440 33#"` decodes to `"HI E"` |
| KeypadExamples.DecodesHello | OldPhoneKeyPad.Tests/KeypadTests.cs:32-38 | `"4433555 555666#"` decodes to `"HELLO"` |
| KeypadExamples.BackspaceCancelsPending | OldPhoneKeyPad.Tests/KeypadTests.cs:40-47 | `"66*664#"` decodes to `"NG"` |
| KeypadExamples.UnknownCharsSkipped | OldPhoneKeyPad.Tests/KeypadTests.cs:49-56 | `"2211c122222c#"` decodes to `"B?A"` |
| KeypadExamples.KeyOneThirdPress | OldPhoneKeyPad.Tests/KeypadTests.cs:58-64 | `"111#"` decodes to `"?"` |
| KeypadExamples.FourthPressIsDigit | OldPhoneKeyPad.Tests/KeypadTests.cs:69-71 | `"2222#"` decodes to `"2"` |
| KeypadExamples.FifthPressWraps | OldPhoneKeyPad.Tests/KeypadTests.cs:73-75 | `"22222#"` decodes to `"A"` |
| KeypadExamples.BackspaceOnEmpty | OldPhoneKeyPad.Tests/KeypadTests.cs:90-96 | `"*#"` decodes to `""` |
| KeypadExamples.TerminatorStops | OldPhoneKeyPad.Tests/KeypadTests.cs:98-104 | `"33#2222"` decodes to `"E"` |
| KeypadExamples.UnitFromStart | OldPhoneKeyPad.Tests/KeypadTests.cs:81 | One copy of the HELLO WORLD keystrokes emits `"HELLO WORL"` and leaves one press of key 3 (the D) pending |
| KeypadExamples.UnitShape | OldPhoneKeyPad.Tests/KeypadTests.cs:81 | The HELLO WORLD keystrokes start with key 4 and contain no terminator and no backspace |
| KeypadExamples.WordAfterPending | OldPhoneKeyPad.Tests/KeypadTests.cs:79-88 | A word of keystrokes scanned after text `before` with one press of `k` pending emits `before`, that press's letter, then the word's own text |
| KeypadExamples.RunsRepeated | OldPhoneKeyPad.Tests/KeypadTests.cs:79-88 | `n >= 1` copies of such a word emit `n - 1` copies of its text plus the pending letter, then its text, with the last press still pending |
| KeypadExamples.HelloWorldRepeated | OldPhoneKeyPad.Tests/KeypadTests.cs:79-88 | The HELLO WORLD keystrokes repeated `n` times, then `#`, decode to `"HELLO WORLD"` repeated `n` times, for every `n` |
| KeypadExamples.LeadingSeparatorAsWritten | OldPhoneApp/OldPhoneKeyPad.cs:35-41 | A separator with nothing pending: as written it emits the `'\0'` sentinel; the decoder decodes `" #"` to `""` |

## Findings

| source | as written | input that shows it | evidently intended | confidence | as-written member | corrected member |
|---|---|---|---|---|---|---|
| OldPhoneApp/OldPhoneKeyPad.cs:35-41 | The separator branch resolves `lastChar` even when nothing is pending. The lookup does not find the `'\0'` sentinel in the table and echoes it, so a NUL character is appended | `" #"` (or `"22  22#"`, two separators in a row) | A separator with nothing pending emits nothing: `" #"` gives `""` | not executed; high | Keypad.SeparatorAsWritten, KeypadExamples.LeadingSeparatorAsWritten | Keypad.Step, Keypad.SeparatorFlushes |

## Left out

- The command-line program (`OldPhoneApp/Program.cs`) is not part of this model. That covers argument checking, the usage message, console output, exit codes and I/O error handling.
- Null input is not modelled: a Dafny string is never null. The repository's test expects a null reference fault for it.
- The older table `KeypadDictionary.Map` (`OldPhoneApp/OldPhoneKeyPad.cs:9-21`) is not used by the decoder. Neither is the lookup's echo of an unmapped key (`OldPhoneApp/OldPhoneKeyPad.cs:60-61`). The tests' expected outputs contradict both. They appear only in `LookupAsWritten` and `SeparatorAsWritten`, to state the finding above.
- The `'\0'` sentinel for "no key pending" is modelled as `Option<char>`. The routine as written would take an input NUL character for "nothing pending"; the model has no such collision.
- Keypad.OldPhonePad: `count` is an unbounded natural, not a 32-bit `int`. The routine's count would overflow after 2^31 presses of one key, and the model does not capture that.
- The cost of string concatenation in the routine is not modelled. Neither is a linear-time growable buffer. The output is a sequence, and no complexity is proved.
