/** Properties of the generating pipeline's scanner, on whole texts and on single steps. */
module LexicalAnalyzerProps {
  import opened Common
  import opened LexicalAnalyzer

  // ---------------------------------------------------------------- unfolding the loop

  /** At a character that is not white space, the loop takes one step there. */
  lemma LoopAt(s: string, st: Scanner)
    requires st.pos < |s| && !IsJsSpace(s[st.pos])
    ensures Loop(s, st) == Loop(s, Step(s, st))
  {
    assert SpaceEnd(s, st.pos) == st.pos;
    assert AdvanceTo(s, st, st.pos) == st;
  }

  /** At a digit, the step is `scanNumber`. */
  lemma StepNumber(s: string, st: Scanner)
    requires st.pos < |s| && IsDigit(s[st.pos])
    ensures Step(s, st) == Push((ScanNumber(s, st).0, Some(ScanNumber(s, st).1)))
  {
  }

  /** At a letter or `_`, the step is `scanIdentifier`. */
  lemma StepIdentifier(s: string, st: Scanner)
    requires st.pos < |s| && IsWordStart(s[st.pos])
    ensures Step(s, st) == Push((ScanIdentifier(s, st).0, Some(ScanIdentifier(s, st).1)))
  {
  }

  // ---------------------------------------------------------------- whole texts

  /** A lone digit before a word character is an integer of that one digit. */
  lemma ScanLoneDigit(s: string, st: Scanner)
    requires st.pos + 1 < |s| && IsDigit(s[st.pos]) && IsWordStart(s[st.pos + 1])
    ensures ScanNumber(s, st) == (AdvanceTo(s, st, st.pos + 1), Token(Integer, s[st.pos..st.pos + 1], st.line, st.column))
  {
    assert DigitsEnd(s, st.pos + 1) == st.pos + 1;
    assert NumberEnd(s, st.pos) == (st.pos + 1, false);
  }

  /** `scanIdentifier` once the end of the word is known. */
  lemma ScanIdentifierTo(s: string, st: Scanner, j: nat)
    requires st.pos < |s| && IsWordStart(s[st.pos]) && WordEnd(s, st.pos) == j
    ensures ScanIdentifier(s, st) == (AdvanceTo(s, st, j), Token(WordKind(s[st.pos..j]), s[st.pos..j], st.line, st.column))
  {
  }

  /** No reserved word is shorter than two characters. */
  lemma ShortIsName(w: string)
    requires |w| < 2
    ensures WordKind(w) == Identifier
  {
    assert forall k :: k in Keywords ==> |k| >= 2;
  }

  /**
   * A digit then a letter, as in `5f`: the `f` suffix is taken only after a decimal point,
   * so the text is an integer followed by an identifier.
   */
  lemma IntegerThenIdentifier(s: string)
    requires |s| == 2 && IsDigit(s[0]) && IsWordStart(s[1])
    ensures Analyze(s) == ([Token(Integer, s[..1], 1, 1), Token(Identifier, s[1..], 1, 2)], [])
  {
    var t1 := Token(Integer, s[..1], 1, 1);
    var t2 := Token(Identifier, s[1..], 1, 2);
    var st1 := Scanner(1, 1, 2, [t1], []);
    var st2 := Scanner(2, 1, 3, [t1, t2], []);
    LoopAt(s, Start);
    DigitStep(s);
    assert Loop(s, Start) == Loop(s, st1);
    LoopAt(s, st1);
    LetterStep(s, [t1]);
    assert [t1] + [t2] == [t1, t2];
    assert Loop(s, st1) == Loop(s, st2);
    LoopEnd(s, st2);
  }

  /** The first step on a digit then a letter: the digit alone. */
  lemma DigitStep(s: string)
    requires |s| == 2 && IsDigit(s[0]) && IsWordStart(s[1])
    ensures Step(s, Start) == Scanner(1, 1, 2, [Token(Integer, s[..1], 1, 1)], [])
  {
    StepNumber(s, Start);
    ScanLoneDigit(s, Start);
    assert s[0..1] == s[..1];
  }

  /** The second step on a digit then a letter: the letter, a name. */
  lemma LetterStep(s: string, ts: seq<Token>)
    requires |s| == 2 && IsWordStart(s[1])
    ensures Step(s, Scanner(1, 1, 2, ts, [])) == Scanner(2, 1, 3, ts + [Token(Identifier, s[1..], 1, 2)], [])
  {
    var st := Scanner(1, 1, 2, ts, []);
    StepIdentifier(s, st);
    assert WordEnd(s, 1) == 2 by {
      assert WordEnd(s, 2) == 2;
    }
    ScanIdentifierTo(s, st, 2);
    assert s[1..2] == s[1..];
    ShortIsName(s[1..]);
  }

  /** At the end of the text the loop stops. */
  lemma LoopEnd(s: string, st: Scanner)
    requires st.pos == |s|
    ensures Loop(s, st) == st
  {
  }

  /** At `//` or `/` `*`, the step is `scanComment`. */
  lemma StepCommentIs(s: string, st: Scanner)
    requires st.pos + 1 < |s| && s[st.pos] == '/' && (s[st.pos + 1] == '/' || s[st.pos + 1] == '*')
    ensures Step(s, st) == Push(ScanComment(s, st))
  {
  }

  /** At `"`, the step is `scanString`. */
  lemma StepStringIs(s: string, st: Scanner)
    requires st.pos < |s| && s[st.pos] == '"'
    ensures Step(s, st) == Push(ScanString(s, st))
  {
  }

  /** With no `*` `/` from `i` on, the block comment runs to the end. */
  lemma BlockEndUnclosed(s: string, i: nat)
    requires i <= |s| && forall k :: i <= k < |s| ==> !ClosesAt(s, k)
    ensures BlockEnd(s, i) == |s|
  {
  }

  /** An unclosed block comment is scanned to the end of the text. */
  lemma ScanUnclosed(s: string, st: Scanner)
    requires st.pos + 1 < |s| && s[st.pos] == '/' && s[st.pos + 1] == '*'
    requires forall k :: st.pos + 2 <= k < |s| ==> !ClosesAt(s, k)
    ensures ScanComment(s, st) == (AdvanceTo(s, st, |s|), Some(Token(Comment, s[st.pos..], st.line, st.column)))
  {
    BlockEndUnclosed(s, st.pos + 2);
    assert s[st.pos..|s|] == s[st.pos..];
  }

  /**
   * A text that opens a block comment and never closes it is one comment token, the whole
   * text, and no error.
   */
  lemma UnclosedBlockComment(s: string)
    requires |s| >= 2 && s[0] == '/' && s[1] == '*'
    requires forall k :: 2 <= k < |s| ==> !ClosesAt(s, k)
    ensures Analyze(s) == ([Token(Comment, s, 1, 1)], [])
  {
    var st := Start;
    LoopAt(s, st);
    StepCommentIs(s, st);
    ScanUnclosed(s, st);
    var a := AdvanceTo(s, st, |s|);
    var t := Token(Comment, s, 1, 1);
    assert s[st.pos..] == s;
    assert ScanComment(s, st) == (a, Some(t));
    assert a.tokens == [];
    var st1 := a.(tokens := [t]);
    assert Step(s, st) == st1;
    LoopEnd(s, st1);
    assert Loop(s, st) == st1;
  }

  /** A text that opens a string and never closes it is one error at line 1, column 1, and no token. */
  lemma UnclosedString(s: string)
    requires |s| >= 1 && s[0] == '"' && '"' !in s[1..]
    ensures Analyze(s) == ([], [LexicalError("\"", 1, 1, UnterminatedString)])
  {
    LoopAt(s, Start);
    StepStringIs(s, Start);
    var r := ScanString(s, Start);
    assert r.1.None?;
    assert r.0 == Scanner(|s|, r.0.line, r.0.column, [], [LexicalError("\"", 1, 1, UnterminatedString)]);
    LoopEnd(s, r.0);
  }

  /** A text that is one word is one token, typed by exact lookup in the keyword table. */
  lemma SingleWord(s: string)
    requires WordShape(s)
    ensures Analyze(s) == ([Token(WordKind(s), s, 1, 1)], [])
  {
    var st := Start;
    LoopAt(s, st);
    StepIdentifier(s, st);
    assert WordEnd(s, 0) == |s|;
    assert s[0..|s|] == s;
    var a := AdvanceTo(s, st, |s|);
    var t := Token(WordKind(s), s, 1, 1);
    assert ScanIdentifier(s, st) == (a, t);
    var st1 := a.(tokens := [t]);
    assert Step(s, st) == st1;
    LoopEnd(s, st1);
    assert Loop(s, st) == st1;
  }

  /** `true` is its own kind. */
  lemma TrueWord()
    ensures Analyze("true") == ([Token(True, "true", 1, 1)], [])
  {
    assert WordShape("true");
    assert WordKind("true") == True;
    SingleWord("true");
  }

  /** Keyword lookup is exact, so `True` is a name. */
  lemma CapitalTrueIsName()
    ensures Analyze("True") == ([Token(Identifier, "True", 1, 1)], [])
  {
    assert WordShape("True");
    assert "True" !in Keywords;
    SingleWord("True");
  }

  /** A name may start with `_`. */
  lemma UnderscoreName()
    ensures Analyze("_x") == ([Token(Identifier, "_x", 1, 1)], [])
  {
    assert WordShape("_x");
    assert "_x" !in Keywords;
    SingleWord("_x");
  }

  /** A lone `!` is not an operator: one error for it and the scan goes on past it. */
  lemma LoneBang(s: string, st: Scanner)
    requires st.pos < |s| && s[st.pos] == '!' && !(st.pos + 1 < |s| && s[st.pos + 1] == '=')
    ensures Step(s, st) == AdvanceTo(s, st, st.pos + 1).(errors := st.errors + [LexicalError("!", st.line, st.column, UnknownChar)])
  {
    if st.pos + 1 < |s| {
      var v := s[st.pos..st.pos + 2];
      assert v[0] == '!' && v[1] != '=';
    }
  }

  /** `!=` is one token. */
  lemma BangEquals(s: string, st: Scanner)
    requires st.pos + 1 < |s| && s[st.pos] == '!' && s[st.pos + 1] == '='
    ensures Step(s, st) == AdvanceTo(s, st, st.pos + 2).(tokens := st.tokens + [Token(NotEquals, "!=", st.line, st.column)])
  {
    assert s[st.pos..st.pos + 2] == "!=";
  }

  /**
   * A quote, a character and no closing quote: one error at the opening quote, and the
   * character read is not given back, so scanning resumes after it.
   */
  lemma CharNoRewind(s: string, st: Scanner)
    requires st.pos + 2 < |s| && s[st.pos] == '\'' && s[st.pos + 1] != '\'' && s[st.pos + 2] != '\''
    ensures Step(s, st) == AdvanceTo(s, st, st.pos + 2).(errors := st.errors + [LexicalError("'", st.line, st.column, InvalidChar)])
  {
  }

  /** `''`: one error, and the second quote opens the next character literal. */
  lemma EmptyChar(s: string, st: Scanner)
    requires st.pos + 1 < |s| && s[st.pos] == '\'' && s[st.pos + 1] == '\''
    ensures Step(s, st) == AdvanceTo(s, st, st.pos + 1).(errors := st.errors + [LexicalError("'", st.line, st.column, InvalidChar)])
  {
  }

  /** Where a two-character operator starts with a one-character token, the operator wins. */
  lemma OperatorPriority(s: string, st: Scanner)
    requires st.pos + 1 < |s| && SingleCharType(s[st.pos]).Some? && OperatorType(s[st.pos..st.pos + 2]).Some?
    ensures var t := Token(OperatorType(s[st.pos..st.pos + 2]).value, s[st.pos..st.pos + 2], st.line, st.column);
      Step(s, st) == AdvanceTo(s, st, st.pos + 2).(tokens := st.tokens + [t])
  {
    var v := s[st.pos..st.pos + 2];
    assert v[0] == s[st.pos];
    assert s[st.pos] != '/';
  }

  /** A text that is one two-character operator is one token. */
  lemma SingleOperator(s: string)
    requires |s| == 2 && SingleCharType(s[0]).Some? && OperatorType(s).Some?
    ensures Analyze(s) == ([Token(OperatorType(s).value, s, 1, 1)], [])
  {
    var st := Start;
    LoopAt(s, st);
    assert s[0..2] == s;
    OperatorPriority(s, st);
    var a := AdvanceTo(s, st, 2);
    var st1 := a.(tokens := [Token(OperatorType(s).value, s, 1, 1)]);
    assert Step(s, st) == st1;
    LoopEnd(s, st1);
    assert Loop(s, st) == st1;
  }

  /** A text of white space only, `\r` included, gives nothing at all. */
  lemma BlankText(s: string)
    requires forall k :: 0 <= k < |s| ==> IsJsSpace(s[k])
    ensures Analyze(s) == ([], [])
  {
    assert SpaceEnd(s, 0) == |s|;
  }

  /** Carriage returns are white space. */
  lemma CarriageReturnIsBlank()
    ensures Analyze("\r\n\t ") == ([], [])
  {
    BlankText("\r\n\t ");
  }
}
