/**
 * End-to-end behaviour of the decoder over `KeypadMapping.LettersByKey`, as the
 * repository's unit tests state it. A concrete proof walks the keystrokes a few
 * at a time: each `...PartN` lemma evaluates one group of keystrokes from a
 * named decoder state, each `...UpToN` lemma joins the first N groups with
 * `RunThrough` (carrying along that they hold no terminator), and `...Flush`
 * resolves the run left pending at the end.
 */
module KeypadExamples {
  import opened Wrappers
  import opened Keypad
  import opened KeypadMapping

  /** Scanning `a` from `st` reaches `mid` and scanning `b` from `mid` reaches `fin`,
      so scanning `a + b` from `st` reaches `fin`; a terminator in `a + b` is one of `b`'s. */
  lemma RunThrough(m: KeyMap, a: string, b: string, st: State, mid: State, fin: State)
    requires WellFormed(m) && Valid(m, st) && Terminator !in a
    requires Run(m, a, st) == mid && Run(m, b, mid) == fin
    ensures Run(m, a + b, st) == fin
    ensures Terminator !in b ==> Terminator !in a + b
  {
    RunAppend(m, a, b, st);
  }

  /** Empty input decodes to empty text. */
  lemma EmptyInput()
    ensures Decode(LettersByKey, "") == ""
  {
  }

  /** Multi-tap runs, separators and a cancelled run spell TURING. */
  lemma DecodesTuring()
    ensures Decode(LettersByKey, "8 " + "88" + "777" + "444" + "66*" + "664#") == "TURING"
  {
    LettersByKeyWellFormed();
    DecodesTuringFlush();
    DecodesTuringUpTo6();
  }

  lemma DecodesTuringPart1()
    ensures Run(LettersByKey, "8 ", Init) == State(None, 0, "T")
  {
    LettersByKeyWellFormed();
  }

  lemma DecodesTuringPart2()
    ensures Run(LettersByKey, "88", State(None, 0, "T")) == State(Some('8'), 2, "T")
  {
    LettersByKeyWellFormed();
  }

  lemma DecodesTuringPart3()
    ensures Run(LettersByKey, "777", State(Some('8'), 2, "T")) == State(Some('7'), 3, "TU")
  {
    LettersByKeyWellFormed();
  }

  lemma DecodesTuringPart4()
    ensures Run(LettersByKey, "444", State(Some('7'), 3, "TU")) == State(Some('4'), 3, "TUR")
  {
    LettersByKeyWellFormed();
  }

  lemma DecodesTuringPart5()
    ensures Run(LettersByKey, "66*", State(Some('4'), 3, "TUR")) == State(None, 0, "TURI")
  {
    LettersByKeyWellFormed();
  }

  lemma DecodesTuringPart6()
    ensures Run(LettersByKey, "664#", State(None, 0, "TURI")) == State(Some('4'), 1, "TURIN")
  {
    LettersByKeyWellFormed();
  }

  lemma DecodesTuringUpTo2()
    ensures Run(LettersByKey, "8 " + "88", Init) == State(Some('8'), 2, "T")
    ensures Terminator !in "8 " + "88"
  {
    LettersByKeyWellFormed();
    DecodesTuringPart1();
    DecodesTuringPart2();
    RunThrough(LettersByKey, "8 ", "88", Init, State(None, 0, "T"), State(Some('8'), 2, "T"));
  }

  lemma DecodesTuringUpTo3()
    ensures Run(LettersByKey, "8 " + "88" + "777", Init) == State(Some('7'), 3, "TU")
    ensures Terminator !in "8 " + "88" + "777"
  {
    LettersByKeyWellFormed();
    DecodesTuringUpTo2();
    DecodesTuringPart3();
    RunThrough(LettersByKey, "8 " + "88", "777", Init, State(Some('8'), 2, "T"), State(Some('7'), 3, "TU"));
  }

  lemma DecodesTuringUpTo4()
    ensures Run(LettersByKey, "8 " + "88" + "777" + "444", Init) == State(Some('4'), 3, "TUR")
    ensures Terminator !in "8 " + "88" + "777" + "444"
  {
    LettersByKeyWellFormed();
    DecodesTuringUpTo3();
    DecodesTuringPart4();
    RunThrough(LettersByKey, "8 " + "88" + "777", "444", Init, State(Some('7'), 3, "TU"), State(Some('4'), 3, "TUR"));
  }

  lemma DecodesTuringUpTo5()
    ensures Run(LettersByKey, "8 " + "88" + "777" + "444" + "66*", Init) == State(None, 0, "TURI")
    ensures Terminator !in "8 " + "88" + "777" + "444" + "66*"
  {
    LettersByKeyWellFormed();
    DecodesTuringUpTo4();
    DecodesTuringPart5();
    RunThrough(LettersByKey, "8 " + "88" + "777" + "444", "66*", Init, State(Some('4'), 3, "TUR"), State(None, 0, "TURI"));
  }

  lemma DecodesTuringUpTo6()
    ensures Run(LettersByKey, "8 " + "88" + "777" + "444" + "66*" + "664#", Init) == State(Some('4'), 1, "TURIN")
  {
    LettersByKeyWellFormed();
    DecodesTuringUpTo5();
    DecodesTuringPart6();
    RunThrough(LettersByKey, "8 " + "88" + "777" + "444" + "66*", "664#", Init, State(None, 0, "TURI"), State(Some('4'), 1, "TURIN"));
  }

  lemma DecodesTuringFlush()
    ensures Flush(LettersByKey, State(Some('4'), 1, "TURIN")).output == "TURING"
  {
    LettersByKeyWellFormed();
  }

  /** A separator confirms a run without emitting a space. */
  lemma SeparatorEmitsNoSpace()
    ensures Decode(LettersByKey, "22 " + "22#") == "BB"
  {
    LettersByKeyWellFormed();
    SeparatorEmitsNoSpaceFlush();
    SeparatorEmitsNoSpaceUpTo2();
  }

  lemma SeparatorEmitsNoSpacePart1()
    ensures Run(LettersByKey, "22 ", Init) == State(None, 0, "B")
  {
    LettersByKeyWellFormed();
  }

  lemma SeparatorEmitsNoSpacePart2()
    ensures Run(LettersByKey, "22#", State(None, 0, "B")) == State(Some('2'), 2, "B")
  {
    LettersByKeyWellFormed();
  }

  lemma SeparatorEmitsNoSpaceUpTo2()
    ensures Run(LettersByKey, "22 " + "22#", Init) == State(Some('2'), 2, "B")
  {
    LettersByKeyWellFormed();
    SeparatorEmitsNoSpacePart1();
    SeparatorEmitsNoSpacePart2();
    RunThrough(LettersByKey, "22 ", "22#", Init, State(None, 0, "B"), State(Some('2'), 2, "B"));
  }

  lemma SeparatorEmitsNoSpaceFlush()
    ensures Flush(LettersByKey, State(Some('2'), 2, "B")).output == "BB"
  {
    LettersByKeyWellFormed();
  }

  /** A single press of 0 emits a visible space. */
  lemma ZeroEmitsSpace()
    ensures Decode(LettersByKey, "44 " + "444" + "0 " + "33#") == "HI E"
  {
    LettersByKeyWellFormed();
    ZeroEmitsSpaceFlush();
    ZeroEmitsSpaceUpTo4();
  }

  lemma ZeroEmitsSpacePart1()
    ensures Run(LettersByKey, "44 ", Init) == State(None, 0, "H")
  {
    LettersByKeyWellFormed();
  }

  lemma ZeroEmitsSpacePart2()
    ensures Run(LettersByKey, "444", State(None, 0, "H")) == State(Some('4'), 3, "H")
  {
    LettersByKeyWellFormed();
  }

  lemma ZeroEmitsSpacePart3()
    ensures Run(LettersByKey, "0 ", State(Some('4'), 3, "H")) == State(None, 0, "HI ")
  {
    LettersByKeyWellFormed();
  }

  lemma ZeroEmitsSpacePart4()
    ensures Run(LettersByKey, "33#", State(None, 0, "HI ")) == State(Some('3'), 2, "HI ")
  {
    LettersByKeyWellFormed();
  }

  lemma ZeroEmitsSpaceUpTo2()
    ensures Run(LettersByKey, "44 " + "444", Init) == State(Some('4'), 3, "H")
    ensures Terminator !in "44 " + "444"
  {
    LettersByKeyWellFormed();
    ZeroEmitsSpacePart1();
    ZeroEmitsSpacePart2();
    RunThrough(LettersByKey, "44 ", "444", Init, State(None, 0, "H"), State(Some('4'), 3, "H"));
  }

  lemma ZeroEmitsSpaceUpTo3()
    ensures Run(LettersByKey, "44 " + "444" + "0 ", Init) == State(None, 0, "HI ")
    ensures Terminator !in "44 " + "444" + "0 "
  {
    LettersByKeyWellFormed();
    ZeroEmitsSpaceUpTo2();
    ZeroEmitsSpacePart3();
    RunThrough(LettersByKey, "44 " + "444", "0 ", Init, State(Some('4'), 3, "H"), State(None, 0, "HI "));
  }

  lemma ZeroEmitsSpaceUpTo4()
    ensures Run(LettersByKey, "44 " + "444" + "0 " + "33#", Init) == State(Some('3'), 2, "HI ")
  {
    LettersByKeyWellFormed();
    ZeroEmitsSpaceUpTo3();
    ZeroEmitsSpacePart4();
    RunThrough(LettersByKey, "44 " + "444" + "0 ", "33#", Init, State(None, 0, "HI "), State(Some('3'), 2, "HI "));
  }

  lemma ZeroEmitsSpaceFlush()
    ensures Flush(LettersByKey, State(Some('3'), 2, "HI ")).output == "HI E"
  {
    LettersByKeyWellFormed();
  }

  /** A separator splits two runs of the same key. */
  lemma DecodesHello()
    ensures Decode(LettersByKey, "44" + "33" + "555" + " " + "555" + "666#") == "HELLO"
  {
    LettersByKeyWellFormed();
    DecodesHelloFlush();
    DecodesHelloUpTo6();
  }

  lemma DecodesHelloPart1()
    ensures Run(LettersByKey, "44", Init) == State(Some('4'), 2, "")
  {
    LettersByKeyWellFormed();
  }

  lemma DecodesHelloPart2()
    ensures Run(LettersByKey, "33", State(Some('4'), 2, "")) == State(Some('3'), 2, "H")
  {
    LettersByKeyWellFormed();
  }

  lemma DecodesHelloPart3()
    ensures Run(LettersByKey, "555", State(Some('3'), 2, "H")) == State(Some('5'), 3, "HE")
  {
    LettersByKeyWellFormed();
  }

  lemma DecodesHelloPart4()
    ensures Run(LettersByKey, " ", State(Some('5'), 3, "HE")) == State(None, 0, "HEL")
  {
    LettersByKeyWellFormed();
  }

  lemma DecodesHelloPart5()
    ensures Run(LettersByKey, "555", State(None, 0, "HEL")) == State(Some('5'), 3, "HEL")
  {
    LettersByKeyWellFormed();
  }

  lemma DecodesHelloPart6()
    ensures Run(LettersByKey, "666#", State(Some('5'), 3, "HEL")) == State(Some('6'), 3, "HELL")
  {
    LettersByKeyWellFormed();
  }

  lemma DecodesHelloUpTo2()
    ensures Run(LettersByKey, "44" + "33", Init) == State(Some('3'), 2, "H")
    ensures Terminator !in "44" + "33"
  {
    LettersByKeyWellFormed();
    DecodesHelloPart1();
    DecodesHelloPart2();
    RunThrough(LettersByKey, "44", "33", Init, State(Some('4'), 2, ""), State(Some('3'), 2, "H"));
  }

  lemma DecodesHelloUpTo3()
    ensures Run(LettersByKey, "44" + "33" + "555", Init) == State(Some('5'), 3, "HE")
    ensures Terminator !in "44" + "33" + "555"
  {
    LettersByKeyWellFormed();
    DecodesHelloUpTo2();
    DecodesHelloPart3();
    RunThrough(LettersByKey, "44" + "33", "555", Init, State(Some('3'), 2, "H"), State(Some('5'), 3, "HE"));
  }

  lemma DecodesHelloUpTo4()
    ensures Run(LettersByKey, "44" + "33" + "555" + " ", Init) == State(None, 0, "HEL")
    ensures Terminator !in "44" + "33" + "555" + " "
  {
    LettersByKeyWellFormed();
    DecodesHelloUpTo3();
    DecodesHelloPart4();
    RunThrough(LettersByKey, "44" + "33" + "555", " ", Init, State(Some('5'), 3, "HE"), State(None, 0, "HEL"));
  }

  lemma DecodesHelloUpTo5()
    ensures Run(LettersByKey, "44" + "33" + "555" + " " + "555", Init) == State(Some('5'), 3, "HEL")
    ensures Terminator !in "44" + "33" + "555" + " " + "555"
  {
    LettersByKeyWellFormed();
    DecodesHelloUpTo4();
    DecodesHelloPart5();
    RunThrough(LettersByKey, "44" + "33" + "555" + " ", "555", Init, State(None, 0, "HEL"), State(Some('5'), 3, "HEL"));
  }

  lemma DecodesHelloUpTo6()
    ensures Run(LettersByKey, "44" + "33" + "555" + " " + "555" + "666#", Init) == State(Some('6'), 3, "HELL")
  {
    LettersByKeyWellFormed();
    DecodesHelloUpTo5();
    DecodesHelloPart6();
    RunThrough(LettersByKey, "44" + "33" + "555" + " " + "555", "666#", Init, State(Some('5'), 3, "HEL"), State(Some('6'), 3, "HELL"));
  }

  lemma DecodesHelloFlush()
    ensures Flush(LettersByKey, State(Some('6'), 3, "HELL")).output == "HELLO"
  {
    LettersByKeyWellFormed();
  }

  /** A backspace cancels the pending run and leaves the emitted text alone. */
  lemma BackspaceCancelsPending()
    ensures Decode(LettersByKey, "66*" + "664#") == "NG"
  {
    LettersByKeyWellFormed();
    BackspaceCancelsPendingFlush();
    BackspaceCancelsPendingUpTo2();
  }

  lemma BackspaceCancelsPendingPart1()
    ensures Run(LettersByKey, "66*", Init) == State(None, 0, "")
  {
    LettersByKeyWellFormed();
  }

  lemma BackspaceCancelsPendingPart2()
    ensures Run(LettersByKey, "664#", State(None, 0, "")) == State(Some('4'), 1, "N")
  {
    LettersByKeyWellFormed();
  }

  lemma BackspaceCancelsPendingUpTo2()
    ensures Run(LettersByKey, "66*" + "664#", Init) == State(Some('4'), 1, "N")
  {
    LettersByKeyWellFormed();
    BackspaceCancelsPendingPart1();
    BackspaceCancelsPendingPart2();
    RunThrough(LettersByKey, "66*", "664#", Init, State(None, 0, ""), State(Some('4'), 1, "N"));
  }

  lemma BackspaceCancelsPendingFlush()
    ensures Flush(LettersByKey, State(Some('4'), 1, "N")).output == "NG"
  {
    LettersByKeyWellFormed();
  }

  /** Characters that are not keys are skipped without disturbing the pending run. */
  lemma UnknownCharsSkipped()
    ensures Decode(LettersByKey, "22" + "11" + "c" + "1" + "222" + "22" + "c#") == "B?A"
  {
    LettersByKeyWellFormed();
    UnknownCharsSkippedFlush();
    UnknownCharsSkippedUpTo7();
  }

  lemma UnknownCharsSkippedPart1()
    ensures Run(LettersByKey, "22", Init) == State(Some('2'), 2, "")
  {
    LettersByKeyWellFormed();
  }

  lemma UnknownCharsSkippedPart2()
    ensures Run(LettersByKey, "11", State(Some('2'), 2, "")) == State(Some('1'), 2, "B")
  {
    LettersByKeyWellFormed();
  }

  lemma UnknownCharsSkippedPart3()
    ensures Run(LettersByKey, "c", State(Some('1'), 2, "B")) == State(Some('1'), 2, "B")
  {
    LettersByKeyWellFormed();
  }

  lemma UnknownCharsSkippedPart4()
    ensures Run(LettersByKey, "1", State(Some('1'), 2, "B")) == State(Some('1'), 3, "B")
  {
    LettersByKeyWellFormed();
  }

  lemma UnknownCharsSkippedPart5()
    ensures Run(LettersByKey, "222", State(Some('1'), 3, "B")) == State(Some('2'), 3, "B?")
  {
    LettersByKeyWellFormed();
  }

  lemma UnknownCharsSkippedPart6()
    ensures Run(LettersByKey, "22", State(Some('2'), 3, "B?")) == State(Some('2'), 5, "B?")
  {
    LettersByKeyWellFormed();
  }

  lemma UnknownCharsSkippedPart7()
    ensures Run(LettersByKey, "c#", State(Some('2'), 5, "B?")) == State(Some('2'), 5, "B?")
  {
    LettersByKeyWellFormed();
  }

  lemma UnknownCharsSkippedUpTo2()
    ensures Run(LettersByKey, "22" + "11", Init) == State(Some('1'), 2, "B")
    ensures Terminator !in "22" + "11"
  {
    LettersByKeyWellFormed();
    UnknownCharsSkippedPart1();
    UnknownCharsSkippedPart2();
    RunThrough(LettersByKey, "22", "11", Init, State(Some('2'), 2, ""), State(Some('1'), 2, "B"));
  }

  lemma UnknownCharsSkippedUpTo3()
    ensures Run(LettersByKey, "22" + "11" + "c", Init) == State(Some('1'), 2, "B")
    ensures Terminator !in "22" + "11" + "c"
  {
    LettersByKeyWellFormed();
    UnknownCharsSkippedUpTo2();
    UnknownCharsSkippedPart3();
    RunThrough(LettersByKey, "22" + "11", "c", Init, State(Some('1'), 2, "B"), State(Some('1'), 2, "B"));
  }

  lemma UnknownCharsSkippedUpTo4()
    ensures Run(LettersByKey, "22" + "11" + "c" + "1", Init) == State(Some('1'), 3, "B")
    ensures Terminator !in "22" + "11" + "c" + "1"
  {
    LettersByKeyWellFormed();
    UnknownCharsSkippedUpTo3();
    UnknownCharsSkippedPart4();
    RunThrough(LettersByKey, "22" + "11" + "c", "1", Init, State(Some('1'), 2, "B"), State(Some('1'), 3, "B"));
  }

  lemma UnknownCharsSkippedUpTo5()
    ensures Run(LettersByKey, "22" + "11" + "c" + "1" + "222", Init) == State(Some('2'), 3, "B?")
    ensures Terminator !in "22" + "11" + "c" + "1" + "222"
  {
    LettersByKeyWellFormed();
    UnknownCharsSkippedUpTo4();
    UnknownCharsSkippedPart5();
    RunThrough(LettersByKey, "22" + "11" + "c" + "1", "222", Init, State(Some('1'), 3, "B"), State(Some('2'), 3, "B?"));
  }

  lemma UnknownCharsSkippedUpTo6()
    ensures Run(LettersByKey, "22" + "11" + "c" + "1" + "222" + "22", Init) == State(Some('2'), 5, "B?")
    ensures Terminator !in "22" + "11" + "c" + "1" + "222" + "22"
  {
    LettersByKeyWellFormed();
    UnknownCharsSkippedUpTo5();
    UnknownCharsSkippedPart6();
    RunThrough(LettersByKey, "22" + "11" + "c" + "1" + "222", "22", Init, State(Some('2'), 3, "B?"), State(Some('2'), 5, "B?"));
  }

  lemma UnknownCharsSkippedUpTo7()
    ensures Run(LettersByKey, "22" + "11" + "c" + "1" + "222" + "22" + "c#", Init) == State(Some('2'), 5, "B?")
  {
    LettersByKeyWellFormed();
    UnknownCharsSkippedUpTo6();
    UnknownCharsSkippedPart7();
    RunThrough(LettersByKey, "22" + "11" + "c" + "1" + "222" + "22", "c#", Init, State(Some('2'), 5, "B?"), State(Some('2'), 5, "B?"));
  }

  lemma UnknownCharsSkippedFlush()
    ensures Flush(LettersByKey, State(Some('2'), 5, "B?")).output == "B?A"
  {
    LettersByKeyWellFormed();
  }

  /** The third press of 1 chooses a question mark. */
  lemma KeyOneThirdPress()
    ensures Decode(LettersByKey, "111#") == "?"
  {
    LettersByKeyWellFormed();
    assert Run(LettersByKey, "111#", Init) == State(Some('1'), 3, "");
  }

  /** The fourth press of 2 chooses the digit itself. */
  lemma FourthPressIsDigit()
    ensures Decode(LettersByKey, "222" + "2#") == "2"
  {
    LettersByKeyWellFormed();
    FourthPressIsDigitFlush();
    FourthPressIsDigitUpTo2();
  }

  lemma FourthPressIsDigitPart1()
    ensures Run(LettersByKey, "222", Init) == State(Some('2'), 3, "")
  {
    LettersByKeyWellFormed();
  }

  lemma FourthPressIsDigitPart2()
    ensures Run(LettersByKey, "2#", State(Some('2'), 3, "")) == State(Some('2'), 4, "")
  {
    LettersByKeyWellFormed();
  }

  lemma FourthPressIsDigitUpTo2()
    ensures Run(LettersByKey, "222" + "2#", Init) == State(Some('2'), 4, "")
  {
    LettersByKeyWellFormed();
    FourthPressIsDigitPart1();
    FourthPressIsDigitPart2();
    RunThrough(LettersByKey, "222", "2#", Init, State(Some('2'), 3, ""), State(Some('2'), 4, ""));
  }

  lemma FourthPressIsDigitFlush()
    ensures Flush(LettersByKey, State(Some('2'), 4, "")).output == "2"
  {
    LettersByKeyWellFormed();
  }

  /** The fifth press of 2 wraps around to A. */
  lemma FifthPressWraps()
    ensures Decode(LettersByKey, "222" + "22#") == "A"
  {
    LettersByKeyWellFormed();
    FifthPressWrapsFlush();
    FifthPressWrapsUpTo2();
  }

  lemma FifthPressWrapsPart1()
    ensures Run(LettersByKey, "222", Init) == State(Some('2'), 3, "")
  {
    LettersByKeyWellFormed();
  }

  lemma FifthPressWrapsPart2()
    ensures Run(LettersByKey, "22#", State(Some('2'), 3, "")) == State(Some('2'), 5, "")
  {
    LettersByKeyWellFormed();
  }

  lemma FifthPressWrapsUpTo2()
    ensures Run(LettersByKey, "222" + "22#", Init) == State(Some('2'), 5, "")
  {
    LettersByKeyWellFormed();
    FifthPressWrapsPart1();
    FifthPressWrapsPart2();
    RunThrough(LettersByKey, "222", "22#", Init, State(Some('2'), 3, ""), State(Some('2'), 5, ""));
  }

  lemma FifthPressWrapsFlush()
    ensures Flush(LettersByKey, State(Some('2'), 5, "")).output == "A"
  {
    LettersByKeyWellFormed();
  }

  /** A backspace with nothing pending and nothing emitted does nothing. */
  lemma BackspaceOnEmpty()
    ensures Decode(LettersByKey, "*#") == ""
  {
    LettersByKeyWellFormed();
    assert Run(LettersByKey, "*#", Init) == State(None, 0, "");
  }

  /** Keystrokes after the terminator are never decoded. */
  lemma TerminatorStops()
    ensures Decode(LettersByKey, "33" + [Terminator] + "2222") == "E"
  {
    LettersByKeyWellFormed();
    assert Run(LettersByKey, "33", Init) == State(Some('3'), 2, "");
    DecodeStopsAtTerminator(LettersByKey, "33", "2222");
  }

  /** The keystrokes of HELLO WORLD: a separator between the two runs of 5, and 0 for the space. */
  const Unit: string := "44" + "33" + "555" + " " + "555" + "666" + "09" + "666" + "777" + "555" + "3"

  /** One copy of the HELLO WORLD keystrokes leaves the D pending. */
  lemma UnitFromStart()
    ensures Run(LettersByKey, Unit, Init) == State(Some('3'), 1, "HELLO WORL")
  {
    LettersByKeyWellFormed();
    UnitUpTo10();
    UnitPart11();
    RunThrough(LettersByKey, "44" + "33" + "555" + " " + "555" + "666" + "09" + "666" + "777" + "555", "3", Init, State(Some('5'), 3, "HELLO WOR"), State(Some('3'), 1, "HELLO WORL"));
  }

  lemma UnitPart1()
    ensures Run(LettersByKey, "44", Init) == State(Some('4'), 2, "")
  {
    LettersByKeyWellFormed();
  }

  lemma UnitPart2()
    ensures Run(LettersByKey, "33", State(Some('4'), 2, "")) == State(Some('3'), 2, "H")
  {
    LettersByKeyWellFormed();
  }

  lemma UnitPart3()
    ensures Run(LettersByKey, "555", State(Some('3'), 2, "H")) == State(Some('5'), 3, "HE")
  {
    LettersByKeyWellFormed();
  }

  lemma UnitPart4()
    ensures Run(LettersByKey, " ", State(Some('5'), 3, "HE")) == State(None, 0, "HEL")
  {
    LettersByKeyWellFormed();
  }

  lemma UnitPart5()
    ensures Run(LettersByKey, "555", State(None, 0, "HEL")) == State(Some('5'), 3, "HEL")
  {
    LettersByKeyWellFormed();
  }

  lemma UnitPart6()
    ensures Run(LettersByKey, "666", State(Some('5'), 3, "HEL")) == State(Some('6'), 3, "HELL")
  {
    LettersByKeyWellFormed();
  }

  lemma UnitPart7()
    ensures Run(LettersByKey, "09", State(Some('6'), 3, "HELL")) == State(Some('9'), 1, "HELLO ")
  {
    LettersByKeyWellFormed();
  }

  lemma UnitPart8()
    ensures Run(LettersByKey, "666", State(Some('9'), 1, "HELLO ")) == State(Some('6'), 3, "HELLO W")
  {
    LettersByKeyWellFormed();
  }

  lemma UnitPart9()
    ensures Run(LettersByKey, "777", State(Some('6'), 3, "HELLO W")) == State(Some('7'), 3, "HELLO WO")
  {
    LettersByKeyWellFormed();
  }

  lemma UnitPart10()
    ensures Run(LettersByKey, "555", State(Some('7'), 3, "HELLO WO")) == State(Some('5'), 3, "HELLO WOR")
  {
    LettersByKeyWellFormed();
  }

  lemma UnitPart11()
    ensures Run(LettersByKey, "3", State(Some('5'), 3, "HELLO WOR")) == State(Some('3'), 1, "HELLO WORL")
  {
    LettersByKeyWellFormed();
  }

  lemma UnitUpTo2()
    ensures Run(LettersByKey, "44" + "33", Init) == State(Some('3'), 2, "H")
    ensures Terminator !in "44" + "33"
  {
    LettersByKeyWellFormed();
    UnitPart1();
    UnitPart2();
    RunThrough(LettersByKey, "44", "33", Init, State(Some('4'), 2, ""), State(Some('3'), 2, "H"));
  }

  lemma UnitUpTo3()
    ensures Run(LettersByKey, "44" + "33" + "555", Init) == State(Some('5'), 3, "HE")
    ensures Terminator !in "44" + "33" + "555"
  {
    LettersByKeyWellFormed();
    UnitUpTo2();
    UnitPart3();
    RunThrough(LettersByKey, "44" + "33", "555", Init, State(Some('3'), 2, "H"), State(Some('5'), 3, "HE"));
  }

  lemma UnitUpTo4()
    ensures Run(LettersByKey, "44" + "33" + "555" + " ", Init) == State(None, 0, "HEL")
    ensures Terminator !in "44" + "33" + "555" + " "
  {
    LettersByKeyWellFormed();
    UnitUpTo3();
    UnitPart4();
    RunThrough(LettersByKey, "44" + "33" + "555", " ", Init, State(Some('5'), 3, "HE"), State(None, 0, "HEL"));
  }

  lemma UnitUpTo5()
    ensures Run(LettersByKey, "44" + "33" + "555" + " " + "555", Init) == State(Some('5'), 3, "HEL")
    ensures Terminator !in "44" + "33" + "555" + " " + "555"
  {
    LettersByKeyWellFormed();
    UnitUpTo4();
    UnitPart5();
    RunThrough(LettersByKey, "44" + "33" + "555" + " ", "555", Init, State(None, 0, "HEL"), State(Some('5'), 3, "HEL"));
  }

  lemma UnitUpTo6()
    ensures Run(LettersByKey, "44" + "33" + "555" + " " + "555" + "666", Init) == State(Some('6'), 3, "HELL")
    ensures Terminator !in "44" + "33" + "555" + " " + "555" + "666"
  {
    LettersByKeyWellFormed();
    UnitUpTo5();
    UnitPart6();
    RunThrough(LettersByKey, "44" + "33" + "555" + " " + "555", "666", Init, State(Some('5'), 3, "HEL"), State(Some('6'), 3, "HELL"));
  }

  lemma UnitUpTo7()
    ensures Run(LettersByKey, "44" + "33" + "555" + " " + "555" + "666" + "09", Init) == State(Some('9'), 1, "HELLO ")
    ensures Terminator !in "44" + "33" + "555" + " " + "555" + "666" + "09"
  {
    LettersByKeyWellFormed();
    UnitUpTo6();
    UnitPart7();
    RunThrough(LettersByKey, "44" + "33" + "555" + " " + "555" + "666", "09", Init, State(Some('6'), 3, "HELL"), State(Some('9'), 1, "HELLO "));
  }

  lemma UnitUpTo8()
    ensures Run(LettersByKey, "44" + "33" + "555" + " " + "555" + "666" + "09" + "666", Init) == State(Some('6'), 3, "HELLO W")
    ensures Terminator !in "44" + "33" + "555" + " " + "555" + "666" + "09" + "666"
  {
    LettersByKeyWellFormed();
    UnitUpTo7();
    UnitPart8();
    RunThrough(LettersByKey, "44" + "33" + "555" + " " + "555" + "666" + "09", "666", Init, State(Some('9'), 1, "HELLO "), State(Some('6'), 3, "HELLO W"));
  }

  lemma UnitUpTo9()
    ensures Run(LettersByKey, "44" + "33" + "555" + " " + "555" + "666" + "09" + "666" + "777", Init) == State(Some('7'), 3, "HELLO WO")
    ensures Terminator !in "44" + "33" + "555" + " " + "555" + "666" + "09" + "666" + "777"
  {
    LettersByKeyWellFormed();
    UnitUpTo8();
    UnitPart9();
    RunThrough(LettersByKey, "44" + "33" + "555" + " " + "555" + "666" + "09" + "666", "777", Init, State(Some('6'), 3, "HELLO W"), State(Some('7'), 3, "HELLO WO"));
  }

  lemma UnitUpTo10()
    ensures Run(LettersByKey, "44" + "33" + "555" + " " + "555" + "666" + "09" + "666" + "777" + "555", Init) == State(Some('5'), 3, "HELLO WOR")
    ensures Terminator !in "44" + "33" + "555" + " " + "555" + "666" + "09" + "666" + "777" + "555"
  {
    LettersByKeyWellFormed();
    UnitUpTo9();
    UnitPart10();
    RunThrough(LettersByKey, "44" + "33" + "555" + " " + "555" + "666" + "09" + "666" + "777", "555", Init, State(Some('7'), 3, "HELLO WO"), State(Some('5'), 3, "HELLO WOR"));
  }

  /** A separator typed with nothing pending: as written it emits the sentinel; the decoder emits nothing. */
  lemma LeadingSeparatorAsWritten()
    ensures SeparatorAsWritten(LettersByKey, Init).output == [Sentinel]
    ensures Decode(LettersByKey, " #") == ""
  {
    LettersByKeyWellFormed();
    SeparatorAsWrittenDiffers(LettersByKey, Init);
    assert Run(LettersByKey, " #", Init) == Init;
  }

  /** The HELLO WORLD keystrokes start with key 4 and hold no control character but separators. */
  lemma UnitShape()
    ensures Terminator !in Unit && Backspace !in Unit && |Unit| > 0 && Unit[0] == '4'
  {
  }

  /** `n` copies of `s`, one after another. */
  function Repeat(s: string, n: nat): (r: string)
    ensures forall c | c in r :: c in s
  {
    if n == 0 then [] else Repeat(s, n - 1) + s
  }

  /**
   * A word `u` that decodes to `w` plus a pending single press of `k`, and starts
   * with another key, scanned while `k` is pending once after `before`: the word's
   * first key flushes that press, then the word decodes as from scratch.
   */
  lemma WordAfterPending(m: KeyMap, u: string, w: string, k: char, before: string)
    requires WellFormed(m) && Backspace !in u && |u| > 0
    requires k in m && IsKey(m, u[0]) && u[0] != k
    requires Run(m, u, Init) == State(Some(k), 1, w)
    ensures Run(m, u, State(Some(k), 1, before)) == State(Some(k), 1, before + [LetterFor(m, k, 1)] + w)
  {
    var pending := State(Some(k), 1, []);
    assert State(Some(k), 1, before) == Prefixed(before, pending);
    RunKeepsEmitted(m, u, pending, before);
    PendingFlushedByNextKey(m, u, k, 1);
  }

  /**
   * Scanning `n >= 1` copies of such a word: every copy but the last contributes
   * `w` and the pending letter, which the next copy's first key flushes.
   */
  lemma {:induction false} RunsRepeated(m: KeyMap, u: string, w: string, k: char, n: nat)
    requires WellFormed(m) && Terminator !in u && Backspace !in u && |u| > 0
    requires k in m && IsKey(m, u[0]) && u[0] != k
    requires Run(m, u, Init) == State(Some(k), 1, w)
    requires n >= 1
    ensures Run(m, Repeat(u, n), Init) == State(Some(k), 1, Repeat(w + [LetterFor(m, k, 1)], n - 1) + w)
    decreases n
  {
    var word := w + [LetterFor(m, k, 1)];
    if n == 1 {
      assert Repeat(u, 1) == u;
      assert Repeat(word, 0) + w == w;
    } else {
      RunsRepeated(m, u, w, k, n - 1);
      RunAppend(m, Repeat(u, n - 1), u, Init);
      WordAfterPending(m, u, w, k, Repeat(word, n - 2) + w);
      assert Repeat(word, n - 2) + w + [LetterFor(m, k, 1)] + w == Repeat(word, n - 1) + w;
    }
  }

  /** The keystrokes of HELLO WORLD repeated `n` times, then a terminator, decode to HELLO WORLD
      repeated `n` times: the last run of one copy (the D) is flushed by the first key of the next. */
  lemma {:induction false} HelloWorldRepeated(n: nat)
    ensures Decode(LettersByKey, Repeat(Unit, n) + [Terminator]) == Repeat("HELLO WORLD", n)
  {
    LettersByKeyWellFormed();
    UnitShape();
    assert Repeat(Unit, n) + [Terminator] + [] == Repeat(Unit, n) + [Terminator];
    RunStopsAtTerminator(LettersByKey, Repeat(Unit, n), [], Init);
    if n > 0 {
      UnitFromStart();
      RunsRepeated(LettersByKey, Unit, "HELLO WORL", '3', n);
      assert "HELLO WORL" + [LetterFor(LettersByKey, '3', 1)] == "HELLO WORLD";
      assert Repeat("HELLO WORLD", n - 1) + "HELLO WORL" + "D" == Repeat("HELLO WORLD", n);
    }
  }
}
