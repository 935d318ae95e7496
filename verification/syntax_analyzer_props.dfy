/** Properties of the generating pipeline's parser: its recovery, its symbols and the code it emits. */
module SyntaxAnalyzerProps {
  import opened Common
  import opened LexicalAnalyzer
  import opened SyntaxAnalyzer

  // ---------------------------------------------------------------- comments

  lemma {:induction false} WithoutCommentsConcat(a: seq<Token>, b: seq<Token>)
    ensures WithoutComments(a + b) == WithoutComments(a) + WithoutComments(b)
    decreases |a|
  {
    if |a| == 0 {
      assert a + b == b;
    } else {
      assert (a + b)[1..] == a[1..] + b;
      WithoutCommentsConcat(a[1..], b);
    }
  }

  /** The filter drops a comment wherever it stands. */
  lemma CommentFiltered(a: seq<Token>, c: Token, b: seq<Token>)
    requires c.kind.Comment?
    ensures WithoutComments(a + [c] + b) == WithoutComments(a + b)
  {
    WithoutCommentsConcat(a + [c], b);
    WithoutCommentsConcat(a, [c]);
    WithoutCommentsConcat(a, b);
    assert WithoutComments([c]) == [] by { assert [c][1..] == []; }
    assert WithoutComments(a + [c]) == WithoutComments(a);
  }

  /** Every token that is not a comment is kept, and nothing else. */
  lemma {:induction false} WithoutCommentsKeeps(tokens: seq<Token>, t: Token)
    ensures t in WithoutComments(tokens) <==> t in tokens && !t.kind.Comment?
    decreases |tokens|
  {
    if |tokens| > 0 {
      WithoutCommentsKeeps(tokens[1..], t);
      assert tokens == [tokens[0]] + tokens[1..];
    }
  }

  /** A comment token anywhere among the tokens changes nothing in the result. */
  lemma CommentIgnored(a: seq<Token>, c: Token, b: seq<Token>)
    requires c.kind.Comment?
    ensures ParseProgram(a + [c] + b) == ParseProgram(a + b)
  {
    CommentFiltered(a, c, b);
  }

  // ---------------------------------------------------------------- recovery

  /** A token no statement starts with is reported once and skipped; nothing else changes. */
  lemma UnrecognisedSkipped(ts: seq<Token>, st: Parser)
    requires st.pos < |ts|
    requires var k := ts[st.pos].kind;
      !IsTypeKind(k) && !k.Identifier? && !k.Console? && !k.If? && !k.For?
    ensures Instruction(ts, st) == st.(pos := st.pos + 1, errors := st.errors + [UnrecognisedError(ts[st.pos])])
  {
  }

  /** An `else` without an `if` is such a token: the `else` block's statements are parsed after it. */
  lemma StrayElse(ts: seq<Token>, st: Parser)
    requires st.pos < |ts| && ts[st.pos].kind.Else?
    ensures Instruction(ts, st).errors == st.errors + [SyntaxError(At(ts[st.pos].line), At(ts[st.pos].column), Unrecognised(ts[st.pos].lexeme))]
  {
    UnrecognisedSkipped(ts, st);
  }

  /** The statement loop stops at the first `}` or at the end, and never consumes a `}` itself. */
  lemma ListaStopsAtBrace(ts: seq<Token>, st: Parser)
    requires st.pos <= |ts| && (st.pos == |ts| || ts[st.pos].kind.RBrace?)
    ensures Lista(ts, st) == st
  {
  }

  // ---------------------------------------------------------------- the optional parts

  /** Without `using`, the using block does nothing. */
  lemma UsingOptional(ts: seq<Token>, st: Parser)
    requires st.pos <= |ts| && !Is(ts, st.pos, Using)
    ensures BlockUsing(ts, st) == st
  {
  }

  /** `using System ;` is consumed without an error. */
  lemma UsingAccepted(ts: seq<Token>, st: Parser)
    requires st.pos + 3 <= |ts|
    requires ts[st.pos].kind.Using? && ts[st.pos + 1].kind.System? && ts[st.pos + 2].kind.Semicolon?
    ensures BlockUsing(ts, st) == st.(pos := st.pos + 3)
  {
  }

  /** `string [ ]` with or without a parameter name is accepted. */
  lemma ArgsNameOptional(ts: seq<Token>, st: Parser)
    requires st.pos + 3 <= |ts|
    requires ts[st.pos].kind.StringType? && ts[st.pos + 1].kind.LBracket? && ts[st.pos + 2].kind.RBracket?
    ensures var r := MainParameter(ts, st);
      && r.errors == st.errors
      && r.pos == st.pos + 3 + (if Is(ts, st.pos + 3, Identifier) then 1 else 0)
  {
  }

  // ---------------------------------------------------------------- declarations

  /** `x` alone: a symbol with the type's default value, and `let x: T;`. */
  lemma DeclaredWithoutValue(ts: seq<Token>, st: Parser, ty: Token)
    requires st.pos < |ts| && ts[st.pos].kind.Identifier? && !Is(ts, st.pos + 1, Assign)
    ensures var id := ts[st.pos];
      IdAsig(ts, st, ty) == st.(
        pos := st.pos + 1,
        symbols := st.symbols + [Symbol(id.lexeme, DefaultValue(ty.kind), ty.lexeme, id.line, id.column)],
        code := st.code + ("let " + id.lexeme + ": " + CsharpToTypeScript(ty.lexeme) + ";\n"))
  {
  }

  /**
   * `x = e`: one more symbol, appended whatever the list already holds (a name declared twice
   * is listed twice), whose value is the expression's text or, when that is empty, the type's
   * default; the line keeps the text as it is.
   */
  lemma DeclaredWithValue(ts: seq<Token>, st: Parser, ty: Token)
    requires st.pos < |ts| && ts[st.pos].kind.Identifier? && Is(ts, st.pos + 1, Assign)
    ensures var id := ts[st.pos];
      var e := Expresion(ts, st.pos + 2);
      var r := IdAsig(ts, st, ty);
      && r.pos == e.pos
      && r.errors == st.errors + e.errors
      && r.symbols == st.symbols + [Symbol(id.lexeme, if e.text == "" then DefaultValue(ty.kind) else e.text, ty.lexeme, id.line, id.column)]
      && r.code == st.code + ("let " + id.lexeme + ": " + CsharpToTypeScript(ty.lexeme) + " = " + e.text + ";\n")
  {
  }

  /**
   * When the expression after `=` parses without an error, the symbol's value is the pieces
   * of the tokens it consumed (or the default, when those give no text).
   */
  lemma DeclaredValueRenders(ts: seq<Token>, st: Parser, ty: Token)
    requires st.pos < |ts| && ts[st.pos].kind.Identifier? && Is(ts, st.pos + 1, Assign)
    requires Expresion(ts, st.pos + 2).errors == []
    ensures var r := IdAsig(ts, st, ty);
      var v := r.symbols[|r.symbols| - 1].value;
      v == Render(ts[st.pos + 2..r.pos]) || (v == DefaultValue(ty.kind) && Render(ts[st.pos + 2..r.pos]) == "")
  {
    var e := Expresion(ts, st.pos + 2);
    var id := ts[st.pos];
    ExpresionRenders(ts, st.pos + 2);
    DeclaredWithValue(ts, st, ty);
    var r := IdAsig(ts, st, ty);
    assert r.pos == e.pos && e.text == Render(ts[st.pos + 2..e.pos]);
    assert r.symbols[|r.symbols| - 1] == Symbol(id.lexeme, if e.text == "" then DefaultValue(ty.kind) else e.text, ty.lexeme, id.line, id.column);
  }

  /** Without a name, `parseIdAsig` does nothing, not even report. */
  lemma NoNameNoSymbol(ts: seq<Token>, st: Parser, ty: Token)
    requires st.pos <= |ts| && !Is(ts, st.pos, Identifier)
    ensures IdAsig(ts, st, ty) == st
  {
  }

  /** The two lookups agree: each type word has a TypeScript type other than `any`. */
  lemma TypeWordsKnown(w: string)
    requires w in Keywords && IsTypeKind(Keywords[w])
    ensures CsharpToTypeScript(w) != "any"
    ensures DefaultValue(Keywords[w]) == (if w == "int" then "0" else if w == "float" then "0.0"
      else if w == "string" then "\"\"" else if w == "char" then "''" else "false")
  {
  }

  // ---------------------------------------------------------------- assignments

  /** An assignment to a name no symbol has changes no symbol. */
  lemma {:induction false} UpdateFirstAbsent(ss: seq<Symbol>, x: string, v: string)
    requires x !in Names(ss)
    ensures UpdateFirst(ss, x, v) == ss
    decreases |ss|
  {
    if |ss| > 0 {
      assert Names(ss) == [ss[0].name] + Names(ss[1..]);
      UpdateFirstAbsent(ss[1..], x, v);
    }
  }

  /** An assignment changes only the value of the first symbol with that name. */
  lemma {:induction false} UpdateFirstAt(ss: seq<Symbol>, x: string, v: string, k: nat)
    requires k < |ss| && ss[k].name == x
    requires forall j :: 0 <= j < k ==> ss[j].name != x
    ensures |UpdateFirst(ss, x, v)| == |ss|
    ensures UpdateFirst(ss, x, v)[k] == ss[k].(value := v)
    ensures forall j :: 0 <= j < |ss| && j != k ==> UpdateFirst(ss, x, v)[j] == ss[j]
    decreases |ss|
  {
    if k > 0 {
      assert ss[0].name != x;
      UpdateFirstAt(ss[1..], x, v, k - 1);
      var r := UpdateFirst(ss, x, v);
      assert r == [ss[0]] + UpdateFirst(ss[1..], x, v);
    }
  }

  // ---------------------------------------------------------------- printing

  /** `Console.WriteLine(e);` hands exactly one text to the console and logs that same text. */
  lemma PrintOne(ts: seq<Token>, st: Parser)
    requires st.pos < |ts| && ts[st.pos].kind.Console?
    ensures var r := Imprimir(ts, st);
      && r.symbols == st.symbols
      && exists e: string :: r.printed == st.printed + [e] && r.code == st.code + ("console.log(" + e + ");\n")
  {
    var s1 := Expect(ts, Expect(ts, Expect(ts, Expect(ts, st, Console), Dot), WriteLine), LParen);
    var e := Expresion(ts, s1.pos);
    var r := Imprimir(ts, st);
    assert r.printed == st.printed + [e.text];
  }

  // ---------------------------------------------------------------- if and for

  /** Without `else`, the optional block adds nothing. */
  lemma NoElse(ts: seq<Token>, st: Parser)
    requires st.pos <= |ts| && !Is(ts, st.pos, Else)
    ensures IfP(ts, st) == st
  {
  }

  /** `if (c) {` is written with the condition's text. */
  lemma IfLine(ts: seq<Token>, st: Parser)
    requires st.pos + 1 < |ts| && ts[st.pos].kind.If? && ts[st.pos + 1].kind.LParen?
    ensures var e := Expresion(ts, st.pos + 2);
      IfHeader(ts, st).code == st.code + ("if (" + e.text + ") {\n")
  {
    var e := Expresion(ts, st.pos + 2);
    var s1 := Expect(ts, Expect(ts, st, If), LParen);
    assert s1.pos == st.pos + 2 && s1.code == st.code;
    var s3 := Expect(ts, Expect(ts, Absorb(s1, e), RParen), LBrace);
    assert s3.code == st.code;
  }

  /** The update clause without `++` or `--` is the bare name. */
  lemma UpdateWithoutStep(ts: seq<Token>, st: Parser)
    requires st.pos < |ts| && ts[st.pos].kind.Identifier?
    requires !Is(ts, st.pos + 1, Increment) && !Is(ts, st.pos + 1, Decrement)
    ensures TercerBloqueFor(ts, st) == (st.(pos := st.pos + 1), ts[st.pos].lexeme)
  {
  }

  /** `i++` and `i--` are kept. */
  lemma UpdateWithStep(ts: seq<Token>, st: Parser)
    requires st.pos + 1 < |ts| && ts[st.pos].kind.Identifier?
    requires ts[st.pos + 1].kind.Increment? || ts[st.pos + 1].kind.Decrement?
    ensures TercerBloqueFor(ts, st).1 == ts[st.pos].lexeme + (if ts[st.pos + 1].kind.Increment? then "++" else "--")
    ensures TercerBloqueFor(ts, st).0.pos == st.pos + 2
  {
  }

  /** `for (int i; …`: a typed name without `=` is consumed silently, with no symbol and no code. */
  lemma TypedInitWithoutValue(ts: seq<Token>, st: Parser)
    requires st.pos + 1 < |ts| && IsTypeKind(ts[st.pos].kind) && ts[st.pos + 1].kind.Identifier?
    requires !Is(ts, st.pos + 2, Assign)
    ensures PrimerBloqueFor(ts, st) == st.(pos := st.pos + 2)
  {
  }

  /** `for (int i = e; …`: the symbol takes the text as it is, even an empty one (no default). */
  lemma TypedInitValue(ts: seq<Token>, st: Parser)
    requires st.pos + 2 < |ts| && IsTypeKind(ts[st.pos].kind) && ts[st.pos + 1].kind.Identifier?
    requires ts[st.pos + 2].kind.Assign?
    ensures var e := Expresion(ts, st.pos + 3);
      var id := ts[st.pos + 1];
      PrimerBloqueFor(ts, st).symbols == st.symbols + [Symbol(id.lexeme, e.text, ts[st.pos].lexeme, id.line, id.column)]
  {
  }

  // ---------------------------------------------------------------- the program

  /** `success` is true exactly when no error was recorded. */
  lemma SuccessIffNoErrors(tokens: seq<Token>)
    ensures ParseProgram(tokens).success <==> |ParseProgram(tokens).errors| == 0
  {
  }

  /** Without any token, every expected token of the class is reported, and no code is written. */
  lemma EmptyProgram()
    ensures ParseProgram([]).translatedCode == "" && !ParseProgram([]).success
  {
  }
}
