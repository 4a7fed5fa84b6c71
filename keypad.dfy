/**
 * The multi-tap keypad decoder (`Keypad.OldPhonePad`), parameterised by the
 * table that maps each key to its ordered cycle of letters.
 *
 * The decoder scans the keystrokes left to right with one run of presses
 * pending: `'#'` ends the scan, `'*'` cancels the pending run or else deletes
 * the last emitted character, `' '` confirms the pending run, a mapped key
 * either continues the run or flushes it and starts a new one, and any other
 * character is skipped. A run still pending when the scan ends is flushed.
 *
 * `Decode` is the specification (a recursive function over an explicit
 * state); `OldPhonePad` is the loop that the source runs, proved equal to it.
 */
module Keypad {
  import opened Wrappers

  /** Key character to its ordered cycle of output characters. */
  type KeyMap = map<char, string>

  const Terminator: char := '#'
  const Backspace: char := '*'
  const Separator: char := ' '

  /** Every mapped key has at least one letter, so the modular lookup is defined. */
  predicate WellFormed(m: KeyMap)
  {
    forall k | k in m :: |m[k]| > 0
  }

  /** True when `c` is a key of `m` that is not one of the three control characters. */
  predicate IsKey(m: KeyMap, c: char)
  {
    c in m && c != Terminator && c != Backspace && c != Separator
  }

  /** `ch` is one of the letters of some key of `m`. */
  predicate IsLetter(m: KeyMap, ch: char)
  {
    exists k | k in m :: ch in m[k]
  }

  /** Every character of `s` is a letter of `m`. */
  predicate Emittable(m: KeyMap, s: string)
  {
    forall i | 0 <= i < |s| :: IsLetter(m, s[i])
  }

  lemma EmittablePrefix(m: KeyMap, s: string, n: nat)
    requires Emittable(m, s) && n <= |s|
    ensures Emittable(m, s[..n])
  {
    forall i | 0 <= i < n ensures IsLetter(m, s[..n][i]) {
      assert s[..n][i] == s[i];
    }
  }

  /**
   * The decoder's state: the key being multi-tapped (the source's `lastChar`,
   * with `None` for its `'\0'` sentinel), the number of consecutive presses of
   * it (`count`) and the text decided so far (`result`).
   */
  datatype State = State(pending: Option<char>, count: nat, output: string)

  /** Nothing pending, nothing emitted. */
  const Init: State := State(None, 0, [])

  /** A key is pending exactly when the press count is positive, and it is a mapped key. */
  predicate Valid(m: KeyMap, st: State)
  {
    && (st.pending.None? <==> st.count == 0)
    && (st.pending.Some? ==> st.pending.value in m)
  }

  /**
   * The letter chosen by pressing `key` `count` times: the presses walk the
   * key's cycle in order and wrap around after its last entry.
   */
  function LetterFor(m: KeyMap, key: char, count: nat): (r: char)
    requires WellFormed(m) && key in m && count >= 1
    ensures r in m[key]
    ensures count <= |m[key]| ==> r == m[key][count - 1]
  {
    var letters := m[key];
    ModBelow(count - 1, |letters|);
    letters[(count - 1) % |letters|]
  }

  /** Pressing a key `|letters|` more times chooses the same letter again. */
  lemma LetterForPeriodic(m: KeyMap, key: char, count: nat)
    requires WellFormed(m) && key in m && count >= 1
    ensures LetterFor(m, key, count + |m[key]|) == LetterFor(m, key, count)
  {
    var n := |m[key]|;
    assert (count + n - 1) % n == (count - 1) % n by {
      ModAddPeriod(count - 1, n);
    }
  }

  lemma ModAddPeriod(a: nat, n: nat)
    requires n > 0
    ensures (a + n) % n == a % n
  {
    var q := a / n;
    assert a == q * n + a % n;
    assert (q + 1) * n == q * n + n;
    ModUnique(a + n, q + 1, a % n, n);
  }

  /** Below the modulus, the remainder is the number itself. */
  lemma ModBelow(a: nat, n: nat)
    requires n > 0
    ensures a < n ==> a % n == a
  {
    if a < n {
      ModUnique(a, 0, a, n);
    }
  }

  /** Euclidean division has one quotient and one remainder. */
  lemma ModUnique(x: int, q: int, r: int, n: int)
    requires n > 0 && 0 <= r < n && x == q * n + r
    ensures x % n == r
  {
    var q', r' := x / n, x % n;
    assert x == q' * n + r';
    QuotientGap(q', q, n);
    QuotientGap(q, q', n);
  }

  lemma QuotientGap(a: int, b: int, n: int)
    requires n > 0
    ensures a > b ==> a * n - b * n >= n
  {
    if a > b {
      MulAtLeast(a - b, n);
      assert (a - b) * n == a * n - b * n;
    }
  }

  lemma MulAtLeast(d: int, n: int)
    requires d >= 1 && n > 0
    ensures d * n >= n
  {
  }

  /**
   * Resolves the pending run, if any, into exactly one character appended to the
   * output, and clears the pending state. With nothing pending it changes nothing.
   */
  function Flush(m: KeyMap, st: State): (r: State)
    requires WellFormed(m) && Valid(m, st)
    ensures Valid(m, r) && r.pending.None? && r.count == 0
    ensures st.pending.None? ==> r.output == st.output
    ensures st.pending.Some? ==>
      |r.output| == |st.output| + 1 && r.output[..|st.output|] == st.output
      && r.output[|st.output|] == LetterFor(m, st.pending.value, st.count)
  {
    match st.pending
    case None => st
    case Some(k) =>
      State(None, 0, st.output + [LetterFor(m, k, st.count)])
  }

  /** One keystroke other than the terminator. */
  function Step(m: KeyMap, st: State, c: char): (r: State)
    requires WellFormed(m) && Valid(m, st) && c != Terminator
    ensures Valid(m, r)
  {
    if c == Backspace then
      if st.pending.Some? then State(None, 0, st.output)
      else if |st.output| > 0 then State(None, 0, st.output[..|st.output| - 1])
      else st
    else if c == Separator then
      Flush(m, st)
    else if c in m then
      if st.pending == Some(c) then State(st.pending, st.count + 1, st.output)
      else State(Some(c), 1, Flush(m, st).output)
    else
      st
  }

  /** Scans `input` from state `st`, stopping at the first terminator. */
  function Run(m: KeyMap, input: string, st: State): (r: State)
    requires WellFormed(m) && Valid(m, st)
    ensures Valid(m, r)
    decreases |input|
  {
    if |input| == 0 || input[0] == Terminator then st
    else Run(m, input[1..], Step(m, st, input[0]))
  }

  /**
   * The decoded text: scan from the empty state, then flush the run still
   * pending. It is never longer than the keystrokes.
   */
  function Decode(m: KeyMap, input: string): (r: string)
    requires WellFormed(m)
    ensures |r| <= |input|
  {
    RunWeightBound(m, input, Init);
    Flush(m, Run(m, input, Init)).output
  }

  /**
   * The source's loop: one pass over `input` that updates `lastChar`, `count`
   * and `result` in place, breaks at the terminator and flushes after the loop.
   */
  method OldPhonePad(m: KeyMap, input: string) returns (result: string)
    requires WellFormed(m)
    ensures result == Decode(m, input)
  {
    result := "";
    var lastChar: Option<char> := None;
    var count: nat := 0;
    var i := 0;
    while i < |input|
      invariant 0 <= i <= |input|
      invariant Valid(m, State(lastChar, count, result))
      invariant Run(m, input[i..], State(lastChar, count, result)) == Run(m, input, Init)
    {
      var c := input[i];
      if c == Terminator {
        break;
      }
      if c == Backspace {
        if count > 0 {
          lastChar, count := None, 0;
        } else if |result| > 0 {
          result := result[..|result| - 1];
        }
      } else if c == Separator {
        if lastChar.Some? {
          result := result + [LetterFor(m, lastChar.value, count)];
        }
        lastChar, count := None, 0;
      } else if c in m {
        if lastChar == Some(c) {
          count := count + 1;
        } else {
          if lastChar.Some? {
            result := result + [LetterFor(m, lastChar.value, count)];
          }
          lastChar, count := Some(c), 1;
        }
      }
      assert input[i..][1..] == input[i + 1..];
      i := i + 1;
    }
    if lastChar.Some? {
      result := result + [LetterFor(m, lastChar.value, count)];
    }
  }

  // ---------------------------------------------------------------------------
  // The separator branch as the routine writes it
  // ---------------------------------------------------------------------------

  /** The routine's "nothing pending" marker for `lastChar`. */
  const Sentinel: char := '\0'

  /**
   * The routine's lookup as written: a key the table lacks, or maps to no
   * letters, is echoed back unchanged; otherwise the modular lookup.
   */
  function LookupAsWritten(m: KeyMap, key: char, count: nat): (r: char)
    requires key in m && |m[key]| > 0 ==> count >= 1
    ensures key !in m || |m[key]| == 0 ==> r == key
    ensures key in m && |m[key]| > 0 ==> r in m[key]
  {
    if key !in m || |m[key]| == 0 then key
    else m[key][(count - 1) % |m[key]|]
  }

  /**
   * The separator branch as written: it resolves `lastChar` unconditionally, so
   * with nothing pending it looks up the sentinel itself.
   */
  function SeparatorAsWritten(m: KeyMap, st: State): (r: State)
    requires WellFormed(m) && Valid(m, st) && Sentinel !in m
    ensures r.pending.None? && r.count == 0
    ensures |r.output| == |st.output| + 1 && r.output[..|st.output|] == st.output
  {
    var key := if st.pending.Some? then st.pending.value else Sentinel;
    State(None, 0, st.output + [LookupAsWritten(m, key, st.count)])
  }

  /**
   * The separator as written agrees with `Step` whenever a run is pending, and
   * differs exactly when nothing is: it then emits the sentinel, `Step` nothing.
   */
  lemma SeparatorAsWrittenDiffers(m: KeyMap, st: State)
    requires WellFormed(m) && Valid(m, st) && Sentinel !in m
    ensures st.pending.Some? ==> SeparatorAsWritten(m, st) == Step(m, st, Separator)
    ensures st.pending.None? ==>
      SeparatorAsWritten(m, st).output == st.output + [Sentinel]
      && Step(m, st, Separator).output == st.output
  {
  }

  // ---------------------------------------------------------------------------
  // Properties of one keystroke
  // ---------------------------------------------------------------------------

  /** A separator flushes the pending run and clears the state, emitting no character of its own. */
  lemma SeparatorFlushes(m: KeyMap, st: State)
    requires WellFormed(m) && Valid(m, st)
    ensures Step(m, st, Separator).pending.None? && Step(m, st, Separator).count == 0
    ensures st.pending.None? ==> Step(m, st, Separator).output == st.output
    ensures st.pending.Some? ==>
      Step(m, st, Separator).output == st.output + [LetterFor(m, st.pending.value, st.count)]
  {
  }

  /** A further press of the pending key only counts it. */
  lemma SameKeyIncrements(m: KeyMap, st: State, c: char)
    requires WellFormed(m) && Valid(m, st) && IsKey(m, c) && st.pending == Some(c)
    ensures Step(m, st, c) == State(Some(c), st.count + 1, st.output)
  {
  }

  /** A press of another key flushes the previous run (one character) and restarts with count 1. */
  lemma DifferentKeyFlushesAndRestarts(m: KeyMap, st: State, c: char)
    requires WellFormed(m) && Valid(m, st) && IsKey(m, c) && st.pending != Some(c)
    ensures Step(m, st, c).pending == Some(c) && Step(m, st, c).count == 1
    ensures st.pending.None? ==> Step(m, st, c).output == st.output
    ensures st.pending.Some? ==>
      Step(m, st, c).output == st.output + [LetterFor(m, st.pending.value, st.count)]
  {
  }

  /** Backspace cancels a pending run without touching the output; otherwise it deletes
      the last emitted character; with nothing pending and nothing emitted it does nothing. */
  lemma BackspaceCancelsOrDeletes(m: KeyMap, st: State)
    requires WellFormed(m) && Valid(m, st)
    ensures st.pending.Some? ==> Step(m, st, Backspace) == State(None, 0, st.output)
    ensures st.pending.None? && |st.output| > 0 ==>
      Step(m, st, Backspace) == State(None, 0, st.output[..|st.output| - 1])
    ensures st.pending.None? && st.output == [] ==> Step(m, st, Backspace) == st
  {
  }

  /** A character that is neither a control nor a mapped key leaves the state as it is. */
  lemma UnknownCharIgnored(m: KeyMap, st: State, c: char)
    requires WellFormed(m) && Valid(m, st)
    requires c != Terminator && c != Backspace && c != Separator && c !in m
    ensures Step(m, st, c) == st
  {
  }

  // ---------------------------------------------------------------------------
  // Properties of whole scans
  // ---------------------------------------------------------------------------

  /** Scanning `s + t` is scanning `s` and then `t`, when `s` holds no terminator. */
  lemma {:induction false} RunAppend(m: KeyMap, s: string, t: string, st: State)
    requires WellFormed(m) && Valid(m, st) && Terminator !in s
    ensures Run(m, s + t, st) == Run(m, t, Run(m, s, st))
    decreases |s|
  {
    if |s| == 0 {
      assert s + t == t;
    } else {
      assert s[0] in s && Terminator !in s[1..];
      assert (s + t)[0] == s[0] && (s + t)[1..] == s[1..] + t;
      RunAppend(m, s[1..], t, Step(m, st, s[0]));
    }
  }

  /** Nothing after the first terminator is examined. */
  lemma {:induction false} RunStopsAtTerminator(m: KeyMap, s: string, t: string, st: State)
    requires WellFormed(m) && Valid(m, st) && Terminator !in s
    ensures Run(m, s + [Terminator] + t, st) == Run(m, s, st)
    decreases |s|
  {
    if |s| > 0 {
      assert s[0] in s && Terminator !in s[1..];
      assert (s + [Terminator] + t)[1..] == s[1..] + [Terminator] + t;
      RunStopsAtTerminator(m, s[1..], t, Step(m, st, s[0]));
    }
  }

  /** Decoding stops at the first terminator: the result is that of the prefix before it. */
  lemma DecodeStopsAtTerminator(m: KeyMap, s: string, t: string)
    requires WellFormed(m) && Terminator !in s
    ensures Decode(m, s + [Terminator] + t) == Decode(m, s)
  {
    RunStopsAtTerminator(m, s, t, Init);
  }

  /** A run still pending at the end of the scan is flushed, as the last character of the result. */
  lemma PendingRunNotLost(m: KeyMap, input: string)
    requires WellFormed(m)
    requires Run(m, input, Init).pending.Some?
    ensures var st := Run(m, input, Init);
      |Decode(m, input)| == |st.output| + 1
      && Decode(m, input)[..|st.output|] == st.output
      && Decode(m, input)[|st.output|] == LetterFor(m, st.pending.value, st.count)
  {
  }

  /** `n` presses of key `k` continuing a run of `k` only add to its count. */
  lemma {:induction false} PressesAccumulate(m: KeyMap, k: char, n: nat, st: State)
    requires WellFormed(m) && Valid(m, st) && IsKey(m, k) && st.pending == Some(k)
    ensures Run(m, Presses(k, n), st) == State(Some(k), st.count + n, st.output)
  {
    if n > 0 {
      assert Presses(k, n)[1..] == Presses(k, n - 1);
      PressesAccumulate(m, k, n - 1, Step(m, st, k));
    }
  }

  /** `n` presses of `k` in a row. */
  function Presses(k: char, n: nat): (r: string)
    ensures |r| == n && forall i | 0 <= i < n :: r[i] == k
  {
    if n == 0 then [] else [k] + Presses(k, n - 1)
  }

  /** Pressing one key `n >= 1` times and terminating yields the letter at
      position `(n - 1) mod |letters|` of its cycle. */
  lemma SingleKeyDecodes(m: KeyMap, k: char, n: nat)
    requires WellFormed(m) && IsKey(m, k) && n >= 1
    ensures Decode(m, Presses(k, n) + [Terminator]) == [m[k][(n - 1) % |m[k]|]]
  {
    assert Presses(k, n) + [Terminator] + [] == Presses(k, n) + [Terminator];
    RunStopsAtTerminator(m, Presses(k, n), [], Init);
    assert Presses(k, n)[1..] == Presses(k, n - 1);
    PressesAccumulate(m, k, n - 1, State(Some(k), 1, []));
  }

  /** The characters of `s` that the decoder reacts to: controls and mapped keys. */
  function Relevant(m: KeyMap, s: string): (r: string)
    ensures |r| <= |s|
    ensures forall i | 0 <= i < |r| :: r[i] in m || r[i] == Terminator || r[i] == Backspace || r[i] == Separator
  {
    if |s| == 0 then []
    else if s[0] in m || s[0] == Terminator || s[0] == Backspace || s[0] == Separator
    then [s[0]] + Relevant(m, s[1..])
    else Relevant(m, s[1..])
  }

  /** Removing the unknown characters from the input does not change the scan. */
  lemma {:induction false} RunSkipsUnknown(m: KeyMap, s: string, st: State)
    requires WellFormed(m) && Valid(m, st)
    ensures Run(m, Relevant(m, s), st) == Run(m, s, st)
    decreases |s|
  {
    if |s| > 0 {
      if s[0] in m || s[0] == Terminator || s[0] == Backspace || s[0] == Separator {
        assert Relevant(m, s)[1..] == Relevant(m, s[1..]);
        if s[0] != Terminator {
          RunSkipsUnknown(m, s[1..], Step(m, st, s[0]));
        }
      } else {
        RunSkipsUnknown(m, s[1..], st);
      }
    }
  }

  /** Unknown characters are skipped: decoding the input equals decoding it without them. */
  lemma DecodeSkipsUnknown(m: KeyMap, s: string)
    requires WellFormed(m)
    ensures Decode(m, Relevant(m, s)) == Decode(m, s)
  {
    RunSkipsUnknown(m, s, Init);
  }

  /** One character of output or pending run per keystroke at most. */
  function Weight(st: State): (r: nat)
  {
    |st.output| + (if st.pending.Some? then 1 else 0)
  }

  lemma {:induction false} RunWeightBound(m: KeyMap, s: string, st: State)
    requires WellFormed(m) && Valid(m, st)
    ensures Weight(Run(m, s, st)) <= Weight(st) + |s|
    decreases |s|
  {
    if |s| > 0 && s[0] != Terminator {
      RunWeightBound(m, s[1..], Step(m, st, s[0]));
    }
  }

  /** `st` with `o` put in front of the text it has emitted. */
  function Prefixed(o: string, st: State): (r: State)
  {
    State(st.pending, st.count, o + st.output)
  }

  /** Without a backspace, one keystroke only appends to the text already emitted. */
  lemma StepKeepsEmitted(m: KeyMap, st: State, o: string, ch: char)
    requires WellFormed(m) && Valid(m, st) && ch != Backspace && ch != Terminator
    ensures Step(m, Prefixed(o, st), ch) == Prefixed(o, Step(m, st, ch))
  {
    if st.pending.Some? && (ch == Separator || (ch in m && st.pending != Some(ch))) {
      assert o + st.output + [LetterFor(m, st.pending.value, st.count)]
          == o + (st.output + [LetterFor(m, st.pending.value, st.count)]);
    }
  }

  /**
   * Without backspaces, text already emitted is never revisited: scanning from a
   * state whose output has `o` in front ends in the state the plain scan ends in,
   * with `o` in front of its output.
   */
  lemma {:induction false} RunKeepsEmitted(m: KeyMap, s: string, st: State, o: string)
    requires WellFormed(m) && Valid(m, st) && Backspace !in s
    ensures Run(m, s, Prefixed(o, st)) == Prefixed(o, Run(m, s, st))
    decreases |s|
  {
    if |s| > 0 && s[0] != Terminator {
      assert s[0] in s && Backspace !in s[1..];
      StepKeepsEmitted(m, st, o, s[0]);
      RunKeepsEmitted(m, s[1..], Step(m, st, s[0]), o);
    }
  }

  /**
   * A run left pending when a new word of keystrokes starts with another key is
   * emitted first: the word then decodes as it would from scratch, behind that letter.
   */
  lemma PendingFlushedByNextKey(m: KeyMap, u: string, k: char, c: nat)
    requires WellFormed(m) && k in m && c >= 1
    requires Backspace !in u && |u| > 0 && IsKey(m, u[0]) && u[0] != k
    ensures Run(m, u, State(Some(k), c, [])) == Prefixed([LetterFor(m, k, c)], Run(m, u, Init))
  {
    assert Backspace !in u[1..] by {
      assert forall x | x in u[1..] :: x in u;
    }
    assert Step(m, State(Some(k), c, []), u[0]) == Prefixed([LetterFor(m, k, c)], Step(m, Init, u[0]));
    RunKeepsEmitted(m, u[1..], Step(m, Init, u[0]), [LetterFor(m, k, c)]);
  }

  /** One keystroke emits only letters of the map. */
  lemma StepEmittable(m: KeyMap, st: State, c: char)
    requires WellFormed(m) && Valid(m, st) && c != Terminator && Emittable(m, st.output)
    ensures Emittable(m, Step(m, st, c).output)
  {
    var r := Step(m, st, c);
    if c == Backspace && st.pending.None? && |st.output| > 0 {
      EmittablePrefix(m, st.output, |st.output| - 1);
    } else if st.pending.Some? && (c == Separator || (c in m && st.pending != Some(c))) {
      var k := st.pending.value;
      forall i | 0 <= i < |r.output| ensures IsLetter(m, r.output[i]) {
        if i == |st.output| {
          assert r.output[i] in m[k];
        } else {
          assert r.output[i] == st.output[i];
        }
      }
    }
  }

  lemma {:induction false} RunEmittable(m: KeyMap, s: string, st: State)
    requires WellFormed(m) && Valid(m, st) && Emittable(m, st.output)
    ensures Emittable(m, Run(m, s, st).output)
    decreases |s|
  {
    if |s| > 0 && s[0] != Terminator {
      StepEmittable(m, st, s[0]);
      RunEmittable(m, s[1..], Step(m, st, s[0]));
    }
  }

  /** Every character of the decoded text is one of the letters of the map. */
  lemma DecodeEmittable(m: KeyMap, input: string)
    requires WellFormed(m)
    ensures Emittable(m, Decode(m, input))
  {
    RunEmittable(m, input, Init);
    var st := Run(m, input, Init);
    if st.pending.Some? {
      var r := Flush(m, st);
      forall i | 0 <= i < |r.output| ensures IsLetter(m, r.output[i]) {
        if i == |st.output| {
          assert r.output[i] in m[st.pending.value];
        } else {
          assert r.output[i] == st.output[i];
        }
      }
    }
  }
}
