/**
 * The parser of the generating pipeline (`SyntaxAnalyzer`, `src/parser/SyntaxAnalyzer.ts`):
 * recursive descent over the scanner's tokens, comments dropped, that emits TypeScript text
 * and a symbol list while it parses, builds no tree, and records an error and goes on
 * wherever a token is missing.  Every parse method is a pure function from a token index
 * (expressions) or a parser state (statements) to the next one.
 */
module SyntaxAnalyzer {
  import opened Common
  import opened LexicalAnalyzer

  // ---------------------------------------------------------------- errors and symbols

  /** A line or column of an error: a number, or the texts `'EOF'` and `'Unknown'`. */
  datatype Where = At(n: nat) | Eof | Unknown

  /** What an error says. */
  datatype Message =
    | Expected(want: TokenType, found: Option<TokenType>)  // `Se esperaba X, se encontró Y` (or `EOF`)
    | Unrecognised(lexeme: string)                        // `Instrucción no reconocida: …`
    | BadFactor(shown: string)                            // `Factor no válido: …`
    | Internal(what: string)                              // `Error interno: …`

  datatype SyntaxError = SyntaxError(line: Where, column: Where, message: Message)

  /** `Symbol`: the name, the value text, the C# type word and where the name was declared. */
  datatype Symbol = Symbol(name: string, value: string, typeName: string, line: nat, column: nat)

  /** `SyntaxResult`; `printed` holds the texts passed to `evaluateExpression`, in order. */
  datatype SyntaxResult = SyntaxResult(
    symbols: seq<Symbol>, errors: seq<SyntaxError>, printed: seq<string>, translatedCode: string, success: bool)

  // ---------------------------------------------------------------- token classes

  predicate IsTypeKind(k: TokenType) {
    k.IntType? || k.FloatType? || k.StringType? || k.CharType? || k.BoolType?
  }

  predicate IsRelational(k: TokenType) {
    k.Equals? || k.NotEquals? || k.Lte? || k.Gte? || k.Lt? || k.Gt?
  }

  predicate IsAdditive(k: TokenType) { k.Plus? || k.Minus? }

  predicate IsMultiplicative(k: TokenType) { k.Multiply? || k.Divide? }

  /** The kinds `parseFactor` accepts as a single token. */
  predicate IsOperand(k: TokenType) {
    k.Identifier? || k.Integer? || k.Float? || k.CharLit? || k.StringLit? || k.True? || k.False?
  }

  /** The operator table of `parseRelacional`. */
  function RelationalText(k: TokenType): string
    requires IsRelational(k)
  {
    if k.Equals? then "==" else if k.NotEquals? then "!=" else if k.Lte? then "<="
    else if k.Gte? then ">=" else if k.Lt? then "<" else ">"
  }

  // ---------------------------------------------------------------- lookups

  /** `getDefaultValue`, keyed by the type token's kind. */
  function DefaultValue(k: TokenType): string {
    if k.IntType? then "0"
    else if k.FloatType? then "0.0"
    else if k.StringType? then "\"\""
    else if k.CharType? then "''"
    else if k.BoolType? then "false"
    else "0"
  }

  /** `csharpToTypeScript`, keyed by the type token's text. */
  function CsharpToTypeScript(w: string): string {
    if w == "int" || w == "float" then "number"
    else if w == "string" || w == "char" then "string"
    else if w == "bool" then "boolean"
    else "any"
  }

  /** `s.replace('f', '')`: the first `f` removed. */
  function RemoveFirstF(s: string): (r: string)
    ensures 'f' in s ==> |r| == |s| - 1
    ensures 'f' !in s ==> r == s
  {
    if |s| == 0 then s
    else if s[0] == 'f' then s[1..]
    else [s[0]] + RemoveFirstF(s[1..])
  }

  /** `s.slice(1, -1)`. */
  function Inner(s: string): string {
    if |s| >= 2 then s[1..|s| - 1] else ""
  }

  /** The text `parseFactor` gives a single operand token. */
  function OperandText(t: Token): string {
    if t.kind.Float? then RemoveFirstF(t.lexeme)
    else if t.kind.CharLit? then "\"" + Inner(t.lexeme) + "\""
    else if t.kind.True? then "true"
    else if t.kind.False? then "false"
    else t.lexeme
  }

  // ---------------------------------------------------------------- the expected text

  /**
   * The text an expression token contributes: binary operators with a space on each side,
   * parentheses as themselves, and operands as `parseFactor` rewrites them.
   */
  function Piece(t: Token): string {
    if IsAdditive(t.kind) || IsMultiplicative(t.kind) then " " + t.lexeme + " "
    else if IsRelational(t.kind) then " " + RelationalText(t.kind) + " "
    else if t.kind.LParen? then "("
    else if t.kind.RParen? then ")"
    else OperandText(t)
  }

  /** The tokens' pieces, one after the other. */
  function Render(ts: seq<Token>): string
    decreases |ts|
  {
    if |ts| == 0 then "" else Piece(ts[0]) + Render(ts[1..])
  }

  lemma {:induction false} RenderConcat(a: seq<Token>, b: seq<Token>)
    ensures Render(a + b) == Render(a) + Render(b)
    decreases |a|
  {
    if |a| == 0 {
      assert a + b == b;
    } else {
      assert (a + b)[1..] == a[1..] + b;
      RenderConcat(a[1..], b);
    }
  }

  /** The pieces of `ts[p..q]` are those of `ts[p..m]` followed by those of `ts[m..q]`. */
  lemma RenderSplit(ts: seq<Token>, p: nat, m: nat, q: nat)
    requires p <= m <= q <= |ts|
    ensures Render(ts[p..q]) == Render(ts[p..m]) + Render(ts[m..q])
  {
    assert ts[p..q] == ts[p..m] + ts[m..q];
    RenderConcat(ts[p..m], ts[m..q]);
  }

  /** The pieces of `ts[p..q]` start with that of `ts[p]`. */
  lemma RenderFirst(ts: seq<Token>, p: nat, q: nat)
    requires p < q <= |ts|
    ensures Render(ts[p..q]) == Piece(ts[p]) + Render(ts[p + 1..q])
  {
    assert ts[p..q][1..] == ts[p + 1..q];
  }

  lemma RenderOne(t: Token)
    ensures Render([t]) == Piece(t)
  {
  }

  /** String bookkeeping for one `left op right` step. */
  lemma Glue(left: string, op: string, mid: string, rest: string)
    ensures left + " " + op + " " + mid + rest == left + ((" " + op + " ") + (mid + rest))
  {
  }

  /** String bookkeeping for `(` … `)`. */
  lemma Wrap(mid: string)
    ensures "(" + mid + ")" == "(" + (mid + ")")
  {
  }

  /** String bookkeeping for `left op right`. */
  lemma Glue3(left: string, op: string, right: string)
    ensures left + " " + op + " " + right == left + ((" " + op + " ") + right)
  {
  }

  // ---------------------------------------------------------------- expressions

  /** An expression method's outcome: where it stopped, its text, and the errors it recorded. */
  datatype Out = Out(pos: nat, text: string, errors: seq<SyntaxError>)

  /** No relational operator among `ts[p..q]`. */
  predicate NoRelational(ts: seq<Token>, p: nat, q: nat)
    requires p <= q <= |ts|
  {
    forall k :: p <= k < q ==> !IsRelational(ts[k].kind)
  }

  /** The error `expect` records: the found token's line and column, or `'EOF'`. */
  function ExpectError(ts: seq<Token>, p: nat, k: TokenType): SyntaxError {
    if p < |ts| then SyntaxError(At(ts[p].line), At(ts[p].column), Expected(k, Some(ts[p].kind)))
    else SyntaxError(Eof, Eof, Expected(k, None))
  }

  /** `token?.line || 'EOF'`: a missing token or a line 0 shows as `'EOF'`. */
  function OrEof(p: nat, n: nat, size: nat): Where {
    if p < size && n != 0 then At(n) else Eof
  }

  /** The error of `parseFactor` for a token that cannot start a factor. */
  function FactorError(ts: seq<Token>, p: nat): SyntaxError {
    if p < |ts| then
      SyntaxError(OrEof(p, ts[p].line, |ts|), OrEof(p, ts[p].column, |ts|),
                  BadFactor(if ts[p].lexeme == "" then "EOF" else ts[p].lexeme))
    else SyntaxError(Eof, Eof, BadFactor("EOF"))
  }

  /**
   * `parseFactor`: a parenthesised sum kept in parentheses, or one operand; anything else
   * records an error and gives `''` without consuming the token.
   */
  function Factor(ts: seq<Token>, p: nat): (r: Out)
    requires p <= |ts|
    ensures p <= r.pos <= |ts| && NoRelational(ts, p, r.pos)
    ensures r.pos == p ==> r.text == "" && r.errors == [FactorError(ts, p)]
    decreases |ts| - p, 0
  {
    if p < |ts| && ts[p].kind.LParen? then
      var a := Aritmetica(ts, p + 1);
      var ok := a.pos < |ts| && ts[a.pos].kind.RParen?;
      var q := if ok then a.pos + 1 else a.pos;
      var r := Out(q, "(" + a.text + ")", a.errors + if ok then [] else [ExpectError(ts, a.pos, RParen)]);
      r
    else if p < |ts| && IsOperand(ts[p].kind) then
      Out(p + 1, OperandText(ts[p]), [])
    else
      Out(p, "", [FactorError(ts, p)])
  }

  /** The loop of `parseTerminoP`: `* factor` or `/ factor`, left to right. */
  function TerminoP(ts: seq<Token>, p: nat, left: string, errs: seq<SyntaxError>): (r: Out)
    requires p <= |ts|
    ensures p <= r.pos <= |ts| && NoRelational(ts, p, r.pos)
    ensures errs <= r.errors
    decreases |ts| - p, 1
  {
    if p < |ts| && IsMultiplicative(ts[p].kind) then
      var f := Factor(ts, p + 1);
      var r := TerminoP(ts, f.pos, left + " " + ts[p].lexeme + " " + f.text, errs + f.errors);
      r
    else
      Out(p, left, errs)
  }

  /** `parseTermino`. */
  function Termino(ts: seq<Token>, p: nat): (r: Out)
    requires p <= |ts|
    ensures p <= r.pos <= |ts| && NoRelational(ts, p, r.pos)
    decreases |ts| - p, 2
  {
    var f := Factor(ts, p);
    var r := TerminoP(ts, f.pos, f.text, f.errors);
    r
  }

  /** The loop of `parseAritmeticaP`: `+ term` or `- term`, left to right. */
  function AritmeticaP(ts: seq<Token>, p: nat, left: string, errs: seq<SyntaxError>): (r: Out)
    requires p <= |ts|
    ensures p <= r.pos <= |ts| && NoRelational(ts, p, r.pos)
    ensures errs <= r.errors
    decreases |ts| - p, 3
  {
    if p < |ts| && IsAdditive(ts[p].kind) then
      var t := Termino(ts, p + 1);
      var r := AritmeticaP(ts, t.pos, left + " " + ts[p].lexeme + " " + t.text, errs + t.errors);
      r
    else
      Out(p, left, errs)
  }

  /** `parseAritmetica`: a sum of products; it never consumes a relational operator. */
  function Aritmetica(ts: seq<Token>, p: nat): (r: Out)
    requires p <= |ts|
    ensures p <= r.pos <= |ts| && NoRelational(ts, p, r.pos)
    decreases |ts| - p, 4
  {
    var t := Termino(ts, p);
    var r := AritmeticaP(ts, t.pos, t.text, t.errors);
    r
  }

  /**
   * `parseExpresion`: a sum, then at most one relational operator and a second sum.
   */
  function Expresion(ts: seq<Token>, p: nat): (r: Out)
    requires p <= |ts|
    ensures p <= r.pos <= |ts|
    ensures forall i, j :: p <= i < j < r.pos && IsRelational(ts[i].kind) ==> !IsRelational(ts[j].kind)
  {
    var a := Aritmetica(ts, p);
    if a.pos < |ts| && IsRelational(ts[a.pos].kind) then
      var b := Aritmetica(ts, a.pos + 1);
      var r := Out(b.pos, a.text + " " + RelationalText(ts[a.pos].kind) + " " + b.text, a.errors + b.errors);
      r
    else
      a
  }

  // ---------------------------------------------------------------- the text of an expression

  /** The pieces of `ts[a..m + 1]` end with that of `ts[m]`. */
  lemma RenderLast(ts: seq<Token>, a: nat, m: nat)
    requires a <= m < |ts|
    ensures Render(ts[a..m + 1]) == Render(ts[a..m]) + Piece(ts[m])
  {
    RenderSplit(ts, a, m, m + 1);
    assert ts[m..m + 1] == [ts[m]];
    RenderOne(ts[m]);
  }

  /** The pieces of `( … )` are the pieces inside, in parentheses. */
  lemma ParenPieces(ts: seq<Token>, p: nat, m: nat, inner: string)
    requires p < m < |ts| && ts[p].kind.LParen? && ts[m].kind.RParen?
    requires Render(ts[p + 1..m]) == inner
    ensures Render(ts[p..m + 1]) == "(" + inner + ")"
  {
    RenderFirst(ts, p, m + 1);
    RenderLast(ts, p + 1, m);
    Wrap(inner);
  }

  /** Without errors, a parenthesised factor's text is the pieces of the tokens it consumed. */
  lemma {:induction false} ParenRenders(ts: seq<Token>, p: nat)
    requires p < |ts| && ts[p].kind.LParen?
    ensures var r := Factor(ts, p); r.errors == [] ==> r.text == Render(ts[p..r.pos])
    decreases |ts| - p, 0
  {
    var r := Factor(ts, p);
    var a := Aritmetica(ts, p + 1);
    if r.errors == [] {
      AritmeticaRenders(ts, p + 1);
      assert r.pos == a.pos + 1 && a.errors == [] && r.text == "(" + a.text + ")";
      ParenPieces(ts, p, a.pos, a.text);
    }
  }

  /** Without errors, a factor's text is the pieces of the tokens it consumed. */
  lemma {:induction false} FactorRenders(ts: seq<Token>, p: nat)
    requires p <= |ts|
    ensures var r := Factor(ts, p); r.errors == [] ==> r.text == Render(ts[p..r.pos])
    decreases |ts| - p, 1
  {
    if p < |ts| && ts[p].kind.LParen? {
      ParenRenders(ts, p);
    } else if p < |ts| && IsOperand(ts[p].kind) {
      assert Factor(ts, p) == Out(p + 1, OperandText(ts[p]), []);
      assert ts[p..p + 1] == [ts[p]];
      RenderOne(ts[p]);
    }
  }

  lemma {:induction false} TerminoPRenders(ts: seq<Token>, p: nat, left: string, errs: seq<SyntaxError>)
    requires p <= |ts|
    ensures var r := TerminoP(ts, p, left, errs); r.errors == [] ==> r.text == left + Render(ts[p..r.pos])
    decreases |ts| - p, 2
  {
    var r := TerminoP(ts, p, left, errs);
    if r.errors == [] && p < |ts| && IsMultiplicative(ts[p].kind) {
      var f := Factor(ts, p + 1);
      FactorRenders(ts, p + 1);
      TerminoPRenders(ts, f.pos, left + " " + ts[p].lexeme + " " + f.text, errs + f.errors);
      assert f.errors == [];
      RenderFirst(ts, p, r.pos);
      RenderSplit(ts, p + 1, f.pos, r.pos);
      assert Piece(ts[p]) == " " + ts[p].lexeme + " ";
      Glue(left, ts[p].lexeme, f.text, Render(ts[f.pos..r.pos]));
    }
  }

  lemma {:induction false} TerminoRenders(ts: seq<Token>, p: nat)
    requires p <= |ts|
    ensures var r := Termino(ts, p); r.errors == [] ==> r.text == Render(ts[p..r.pos])
    decreases |ts| - p, 3
  {
    var f := Factor(ts, p);
    var r := Termino(ts, p);
    if r.errors == [] {
      FactorRenders(ts, p);
      TerminoPRenders(ts, f.pos, f.text, f.errors);
      RenderSplit(ts, p, f.pos, r.pos);
    }
  }

  lemma {:induction false} AritmeticaPRenders(ts: seq<Token>, p: nat, left: string, errs: seq<SyntaxError>)
    requires p <= |ts|
    ensures var r := AritmeticaP(ts, p, left, errs); r.errors == [] ==> r.text == left + Render(ts[p..r.pos])
    decreases |ts| - p, 4
  {
    var r := AritmeticaP(ts, p, left, errs);
    if r.errors == [] && p < |ts| && IsAdditive(ts[p].kind) {
      var t := Termino(ts, p + 1);
      TerminoRenders(ts, p + 1);
      AritmeticaPRenders(ts, t.pos, left + " " + ts[p].lexeme + " " + t.text, errs + t.errors);
      assert t.errors == [];
      RenderFirst(ts, p, r.pos);
      RenderSplit(ts, p + 1, t.pos, r.pos);
      assert Piece(ts[p]) == " " + ts[p].lexeme + " ";
      Glue(left, ts[p].lexeme, t.text, Render(ts[t.pos..r.pos]));
    }
  }

  lemma {:induction false} AritmeticaRenders(ts: seq<Token>, p: nat)
    requires p <= |ts|
    ensures var r := Aritmetica(ts, p); r.errors == [] ==> r.text == Render(ts[p..r.pos])
    decreases |ts| - p, 5
  {
    var t := Termino(ts, p);
    var r := Aritmetica(ts, p);
    if r.errors == [] {
      TerminoRenders(ts, p);
      AritmeticaPRenders(ts, t.pos, t.text, t.errors);
      RenderSplit(ts, p, t.pos, r.pos);
    }
  }

  /** The pieces of `left op right` around one relational operator. */
  lemma RelationalPieces(ts: seq<Token>, p: nat, m: nat, q: nat, left: string, right: string)
    requires p <= m < q <= |ts| && IsRelational(ts[m].kind)
    requires Render(ts[p..m]) == left && Render(ts[m + 1..q]) == right
    ensures Render(ts[p..q]) == left + " " + RelationalText(ts[m].kind) + " " + right
  {
    RenderSplit(ts, p, m, q);
    RenderFirst(ts, m, q);
    var op := RelationalText(ts[m].kind);
    assert Piece(ts[m]) == " " + op + " ";
    Glue3(left, op, right);
  }

  /** `parseExpresion`'s text for `a op b`, when neither side recorded an error. */
  lemma RelationalOut(ts: seq<Token>, p: nat, a: Out, b: Out)
    requires p <= a.pos < b.pos <= |ts| && IsRelational(ts[a.pos].kind)
    requires a.errors + b.errors == []
    requires Render(ts[p..a.pos]) == a.text && Render(ts[a.pos + 1..b.pos]) == b.text
    ensures a.text + " " + RelationalText(ts[a.pos].kind) + " " + b.text == Render(ts[p..b.pos])
  {
    assert a.errors == [] && b.errors == [];
    RelationalPieces(ts, p, a.pos, b.pos, a.text, b.text);
  }

  /**
   * Without errors, an expression's text is exactly the pieces of the tokens it consumed:
   * operators spaced, parentheses kept, operands rewritten one by one.
   */
  lemma ExpresionRenders(ts: seq<Token>, p: nat)
    requires p <= |ts|
    ensures var r := Expresion(ts, p); r.errors == [] ==> r.text == Render(ts[p..r.pos])
  {
    var a := Aritmetica(ts, p);
    AritmeticaRenders(ts, p);
    if a.pos < |ts| && IsRelational(ts[a.pos].kind) {
      var b := Aritmetica(ts, a.pos + 1);
      AritmeticaRenders(ts, a.pos + 1);
      var r := Out(b.pos, a.text + " " + RelationalText(ts[a.pos].kind) + " " + b.text, a.errors + b.errors);
      assert Expresion(ts, p) == r;
      if r.errors == [] {
        RelationalOut(ts, p, a, b);
      }
    } else {
      assert Expresion(ts, p) == a;
    }
  }

  // ---------------------------------------------------------------- parser state

  /** The fields the parse methods update: position, errors, symbols, printed texts and code. */
  datatype Parser = Parser(pos: nat, errors: seq<SyntaxError>, symbols: seq<Symbol>, printed: seq<string>, code: string)

  /** The symbols' names, in order. */
  function Names(ss: seq<Symbol>): (r: seq<string>)
    ensures |r| == |ss|
    decreases |ss|
  {
    if |ss| == 0 then [] else [ss[0].name] + Names(ss[1..])
  }

  /**
   * What every parse method does to the state: it only moves forward, and only appends to the
   * errors, the printed texts, the code and the list of symbol names.
   */
  predicate Grows(st: Parser, r: Parser) {
    && st.pos <= r.pos
    && st.errors <= r.errors
    && st.printed <= r.printed
    && st.code <= r.code
    && Names(st.symbols) <= Names(r.symbols)
  }

  lemma GrowsTrans(a: Parser, b: Parser, c: Parser)
    requires Grows(a, b) && Grows(b, c)
    ensures Grows(a, c)
  {
  }

  lemma {:induction false} NamesAppend(ss: seq<Symbol>, x: Symbol)
    ensures Names(ss + [x]) == Names(ss) + [x.name]
    decreases |ss|
  {
    if |ss| > 0 {
      assert (ss + [x])[1..] == ss[1..] + [x];
      NamesAppend(ss[1..], x);
    }
  }

  /** `expect`: the wanted kind is consumed; anything else, or the end, records an error. */
  function Expect(ts: seq<Token>, st: Parser, k: TokenType): (r: Parser)
    requires st.pos <= |ts|
    ensures Is(ts, st.pos, k) ==> r.pos == st.pos + 1 && r.errors == st.errors
    ensures !Is(ts, st.pos, k) ==> r.pos == st.pos && r.errors == st.errors + [ExpectError(ts, st.pos, k)]
    ensures r.symbols == st.symbols && r.printed == st.printed && r.code == st.code
    ensures Grows(st, r) && r.pos <= |ts|
  {
    if Is(ts, st.pos, k) then st.(pos := st.pos + 1)
    else st.(errors := st.errors + [ExpectError(ts, st.pos, k)])
  }

  /** The state after an expression method: its position, and its errors appended. */
  function Absorb(st: Parser, o: Out): (r: Parser)
    requires st.pos <= o.pos
    ensures Grows(st, r) && r.pos == o.pos
  {
    st.(pos := o.pos, errors := st.errors + o.errors)
  }

  /** The state with `text` appended to the code. */
  function Emit(st: Parser, text: string): (r: Parser)
    ensures Grows(st, r) && r.pos == st.pos
  {
    st.(code := st.code + text)
  }

  /** The state with one more symbol at the end of the list. */
  function Declare(st: Parser, x: Symbol): (r: Parser)
    ensures Grows(st, r) && r.pos == st.pos
  {
    NamesAppend(st.symbols, x);
    st.(symbols := st.symbols + [x])
  }

  /** `symbols.find(s => s.name === x)` followed by `symbol.value = v`: the first match only. */
  function UpdateFirst(ss: seq<Symbol>, x: string, v: string): (r: seq<Symbol>)
    ensures Names(r) == Names(ss)
    decreases |ss|
  {
    if |ss| == 0 then []
    else if ss[0].name == x then [ss[0].(value := v)] + ss[1..]
    else [ss[0]] + UpdateFirst(ss[1..], x, v)
  }

  /** The state after an assignment to `x`: the first symbol named `x` takes `v` as its value. */
  function Store(st: Parser, x: string, v: string): (r: Parser)
    ensures Grows(st, r) && r.pos == st.pos
  {
    st.(symbols := UpdateFirst(st.symbols, x, v))
  }

  /** The state with one more text handed to the console. */
  function Print(st: Parser, text: string): (r: Parser)
    ensures Grows(st, r) && r.pos == st.pos
  {
    st.(printed := st.printed + [text])
  }

  /** Whether the token at `p` has kind `k`. */
  predicate Is(ts: seq<Token>, p: nat, k: TokenType) {
    p < |ts| && ts[p].kind == k
  }

  // ---------------------------------------------------------------- declarations

  /**
   * `parseIdAsig`: a name, optionally `= expression`; it adds a symbol (the value, or the type's
   * default when the value is missing or empty) and a `let` line.  Without a name it does nothing.
   */
  function IdAsig(ts: seq<Token>, st: Parser, ty: Token): (r: Parser)
    requires st.pos <= |ts|
    ensures Grows(st, r) && r.pos <= |ts|
  {
    if Is(ts, st.pos, Identifier) then
      var id := ts[st.pos];
      var t := CsharpToTypeScript(ty.lexeme);
      if Is(ts, st.pos + 1, Assign) then
        var e := Expresion(ts, st.pos + 2);
        var s1 := Absorb(st, e);
        var value := if e.text != "" then e.text else DefaultValue(ty.kind);
        var s2 := Declare(s1, Symbol(id.lexeme, value, ty.lexeme, id.line, id.column));
        var r := Emit(s2, "let " + id.lexeme + ": " + t + " = " + e.text + ";\n");
        GrowsTrans(st, s1, s2); GrowsTrans(st, s2, r);
        r
      else
        var s1 := Declare(st.(pos := st.pos + 1), Symbol(id.lexeme, DefaultValue(ty.kind), ty.lexeme, id.line, id.column));
        var r := Emit(s1, "let " + id.lexeme + ": " + t + ";\n");
        GrowsTrans(st, s1, r);
        r
    else st
  }

  /** `parseListaIDP`: while the next token is a comma, skip it and parse one more name. */
  function ListaIdP(ts: seq<Token>, st: Parser, ty: Token): (r: Parser)
    requires st.pos <= |ts|
    ensures Grows(st, r) && r.pos <= |ts|
    ensures !Is(ts, r.pos, Comma)
    decreases |ts| - st.pos
  {
    if Is(ts, st.pos, Comma) then
      var s := IdAsig(ts, st.(pos := st.pos + 1), ty);
      var r := ListaIdP(ts, s, ty);
      GrowsTrans(st, s, r);
      r
    else st
  }

  /** `parseDeclaracion`: the type token, the names, and a `;`. */
  function Declaracion(ts: seq<Token>, st: Parser): (r: Parser)
    requires st.pos < |ts| && IsTypeKind(ts[st.pos].kind)
    ensures Grows(st, r) && st.pos < r.pos <= |ts|
  {
    var ty := ts[st.pos];
    var s1 := IdAsig(ts, st.(pos := st.pos + 1), ty);
    var s2 := ListaIdP(ts, s1, ty);
    var r := Expect(ts, s2, Semicolon);
    GrowsTrans(st, s1, s2); GrowsTrans(st, s2, r);
    r
  }

  /**
   * `parseAsignacion`: a name, `=`, an expression and `;`, each missing piece an error; the
   * first symbol with that name takes the text as its value, and the line is emitted anyway.
   */
  function Asignacion(ts: seq<Token>, st: Parser): (r: Parser)
    requires st.pos < |ts| && ts[st.pos].kind.Identifier?
    ensures Grows(st, r) && st.pos < r.pos <= |ts|
    // whatever went wrong with `=` or `;`, the line is written and the symbol updated
    ensures var x := ts[st.pos].lexeme;
      var e := Expresion(ts, Expect(ts, st.(pos := st.pos + 1), Assign).pos);
      && r.code == st.code + (x + " = " + e.text + ";\n")
      && r.symbols == UpdateFirst(st.symbols, x, e.text)
      && r.printed == st.printed
  {
    var x := ts[st.pos].lexeme;
    var s1 := Expect(ts, st.(pos := st.pos + 1), Assign);
    var e := Expresion(ts, s1.pos);
    var s2 := Absorb(s1, e);
    var s3 := Expect(ts, s2, Semicolon);
    var s4 := Store(s3, x, e.text);
    var r := Emit(s4, x + " = " + e.text + ";\n");
    GrowsTrans(st, s1, s2); GrowsTrans(st, s2, s3); GrowsTrans(st, s3, s4); GrowsTrans(st, s4, r);
    r
  }

  // ---------------------------------------------------------------- Console.WriteLine

  /** `parseImprimir`: `Console . WriteLine (` expression `) ;`, the text printed and logged. */
  function Imprimir(ts: seq<Token>, st: Parser): (r: Parser)
    requires st.pos < |ts| && ts[st.pos].kind.Console?
    ensures Grows(st, r) && st.pos < r.pos <= |ts|
  {
    var s1 := Expect(ts, st, Console);
    var s2 := Expect(ts, s1, Dot);
    var s3 := Expect(ts, s2, WriteLine);
    var s4 := Expect(ts, s3, LParen);
    var e := Expresion(ts, s4.pos);
    var s5 := Expect(ts, Absorb(s4, e), RParen);
    var s6 := Expect(ts, s5, Semicolon);
    var r := Emit(Print(s6, e.text), "console.log(" + e.text + ");\n");
    GrowsTrans(st, s1, s2); GrowsTrans(st, s2, s3); GrowsTrans(st, s3, s4);
    GrowsTrans(st, s4, Absorb(s4, e)); GrowsTrans(st, Absorb(s4, e), s5); GrowsTrans(st, s5, s6);
    GrowsTrans(st, s6, Print(s6, e.text)); GrowsTrans(st, Print(s6, e.text), r);
    r
  }

  // ---------------------------------------------------------------- statements

  /**
   * `parseListaInstrucciones`: statements until a `}` or the end of the tokens.  Each
   * statement consumes at least one token, so the loop ends.
   */
  function Lista(ts: seq<Token>, st: Parser): (r: Parser)
    requires st.pos <= |ts|
    ensures Grows(st, r) && r.pos <= |ts|
    ensures r.pos == |ts| || ts[r.pos].kind.RBrace?
    decreases |ts| - st.pos, 2
  {
    if st.pos < |ts| && !ts[st.pos].kind.RBrace? then
      var s := Instruction(ts, st);
      var r := Lista(ts, s);
      GrowsTrans(st, s, r);
      r
    else st
  }

  /** The error of `parseInstruction` for a token no statement starts with. */
  function UnrecognisedError(t: Token): SyntaxError {
    SyntaxError(At(t.line), At(t.column), Unrecognised(t.lexeme))
  }

  /**
   * `parseInstruction`: dispatch on the current token; a token no statement starts with is
   * reported and skipped.
   */
  function Instruction(ts: seq<Token>, st: Parser): (r: Parser)
    requires st.pos < |ts|
    ensures Grows(st, r) && st.pos < r.pos <= |ts|
    decreases |ts| - st.pos, 1
  {
    var k := ts[st.pos].kind;
    if IsTypeKind(k) then Declaracion(ts, st)
    else if k.Identifier? then Asignacion(ts, st)
    else if k.Console? then Imprimir(ts, st)
    else if k.If? then InstIf(ts, st)
    else if k.For? then InstFor(ts, st)
    else st.(pos := st.pos + 1, errors := st.errors + [UnrecognisedError(ts[st.pos])])
  }

  /** `parseInstIf` up to the `{`: `if (` condition `) {`, and the line `if (c) {`. */
  function IfHeader(ts: seq<Token>, st: Parser): (r: Parser)
    requires st.pos < |ts| && ts[st.pos].kind.If?
    ensures Grows(st, r) && st.pos < r.pos <= |ts|
  {
    var s1 := Expect(ts, Expect(ts, st, If), LParen);
    var e := Expresion(ts, s1.pos);
    var s2 := Absorb(s1, e);
    var s3 := Expect(ts, Expect(ts, s2, RParen), LBrace);
    var r := Emit(s3, "if (" + e.text + ") {\n");
    GrowsTrans(st, s1, s2); GrowsTrans(st, s2, s3); GrowsTrans(st, s3, r);
    r
  }

  /** `parseInstIf`: the header, the body, `}`, then an optional `else` block. */
  function InstIf(ts: seq<Token>, st: Parser): (r: Parser)
    requires st.pos < |ts| && ts[st.pos].kind.If?
    ensures Grows(st, r) && st.pos < r.pos <= |ts|
    decreases |ts| - st.pos, 0
  {
    var s1 := IfHeader(ts, st);
    var s2 := Lista(ts, s1);
    var s3 := Emit(Expect(ts, s2, RBrace), "}\n");
    var r := IfP(ts, s3);
    GrowsTrans(st, s1, s2); GrowsTrans(st, s2, s3); GrowsTrans(st, s3, r);
    r
  }

  /** `parseInstIfP`: `else {` body `}` when the next token is `else`, and nothing otherwise. */
  function IfP(ts: seq<Token>, st: Parser): (r: Parser)
    requires st.pos <= |ts|
    ensures Grows(st, r) && r.pos <= |ts|
    decreases |ts| - st.pos, 3
  {
    if Is(ts, st.pos, Else) then
      var s1 := Emit(Expect(ts, st.(pos := st.pos + 1), LBrace), " else {\n");
      var s2 := Lista(ts, s1);
      var r := Emit(Expect(ts, s2, RBrace), "}\n");
      GrowsTrans(st, s1, s2); GrowsTrans(st, s2, r);
      r
    else st
  }

  /**
   * `parsePrimerBloqueFor`: `type name = expression` declares a symbol with the text as its
   * value (no default); a type not followed by `name =` is consumed silently; `name =
   * expression` assigns; anything else is left for the `;` to report.
   */
  function PrimerBloqueFor(ts: seq<Token>, st: Parser): (r: Parser)
    requires st.pos <= |ts|
    ensures Grows(st, r) && r.pos <= |ts|
  {
    if st.pos < |ts| && IsTypeKind(ts[st.pos].kind) then
      var ty := ts[st.pos];
      if Is(ts, st.pos + 1, Identifier) then
        var id := ts[st.pos + 1];
        if Is(ts, st.pos + 2, Assign) then
          var e := Expresion(ts, st.pos + 3);
          var s1 := Absorb(st, e);
          var s2 := Emit(s1, "let " + id.lexeme + ": " + CsharpToTypeScript(ty.lexeme) + " = " + e.text);
          var r := Declare(s2, Symbol(id.lexeme, e.text, ty.lexeme, id.line, id.column));
          GrowsTrans(st, s1, s2); GrowsTrans(st, s2, r);
          r
        else st.(pos := st.pos + 2)
      else st.(pos := st.pos + 1)
    else if Is(ts, st.pos, Identifier) then
      var x := ts[st.pos].lexeme;
      var s1 := Expect(ts, st.(pos := st.pos + 1), Assign);
      var e := Expresion(ts, s1.pos);
      var s2 := Absorb(s1, e);
      var s3 := Emit(s2, x + " = " + e.text);
      var r := Store(s3, x, e.text);
      GrowsTrans(st, s1, s2); GrowsTrans(st, s2, s3); GrowsTrans(st, s3, r);
      r
    else st
  }

  /**
   * `parseTercerBloqueFor` with `parseTercerBloqueForP`: a name and an optional `++` or `--`,
   * returned as text; no name gives `''`.  It never records an error.
   */
  function TercerBloqueFor(ts: seq<Token>, st: Parser): (r: (Parser, string))
    requires st.pos <= |ts|
    ensures r.0 == st.(pos := r.0.pos) && st.pos <= r.0.pos <= |ts|
    ensures Is(ts, st.pos, Identifier) ==> r.0.pos > st.pos && ts[st.pos].lexeme <= r.1
    ensures !Is(ts, st.pos, Identifier) ==> r == (st, "")
  {
    if Is(ts, st.pos, Identifier) then
      var x := ts[st.pos].lexeme;
      var p := st.pos + 1;
      if Is(ts, p, Increment) then (st.(pos := p + 1), x + "++")
      else if Is(ts, p, Decrement) then (st.(pos := p + 1), x + "--")
      else (st.(pos := p), x)
    else (st, "")
  }

  /** `parseInstFor` up to the `{`: the three clauses and the line `for (init; cond; update) {`. */
  function ForHeader(ts: seq<Token>, st: Parser): (r: Parser)
    requires st.pos < |ts| && ts[st.pos].kind.For?
    ensures Grows(st, r) && st.pos < r.pos <= |ts|
  {
    var s1 := Emit(Expect(ts, Expect(ts, st, For), LParen), "for (");
    var s2 := PrimerBloqueFor(ts, s1);
    var s3 := Emit(Expect(ts, s2, Semicolon), "; ");
    var e := Expresion(ts, s3.pos);
    var s4 := Emit(Absorb(s3, e), e.text);
    var s5 := Emit(Expect(ts, s4, Semicolon), "; ");
    var u := TercerBloqueFor(ts, s5);
    var s6 := Emit(u.0, u.1);
    var r := Emit(Expect(ts, Expect(ts, s6, RParen), LBrace), ") {\n");
    GrowsTrans(st, s1, s2); GrowsTrans(st, s2, s3); GrowsTrans(st, s3, s4); GrowsTrans(st, s4, s5);
    GrowsTrans(st, s5, s6); GrowsTrans(st, s6, r);
    r
  }

  /** `parseInstFor`: the header, the body and `}`. */
  function InstFor(ts: seq<Token>, st: Parser): (r: Parser)
    requires st.pos < |ts| && ts[st.pos].kind.For?
    ensures Grows(st, r) && st.pos < r.pos <= |ts|
    decreases |ts| - st.pos, 0
  {
    var s1 := ForHeader(ts, st);
    var s2 := Lista(ts, s1);
    var r := Emit(Expect(ts, s2, RBrace), "}\n");
    GrowsTrans(st, s1, s2); GrowsTrans(st, s2, r);
    r
  }

  // ---------------------------------------------------------------- the program

  /** `parseBlockUsing`: `using System ;` when the first token is `using`, and nothing otherwise. */
  function BlockUsing(ts: seq<Token>, st: Parser): (r: Parser)
    requires st.pos <= |ts|
    ensures Grows(st, r) && r.pos <= |ts|
  {
    if Is(ts, st.pos, Using) then
      var s := Expect(ts, st.(pos := st.pos + 1), System);
      var r := Expect(ts, s, Semicolon);
      GrowsTrans(st, s, r);
      r
    else st
  }

  /** The start of `parseBlockMain`: `static void Main (`. */
  function MainSignature(ts: seq<Token>, st: Parser): (r: Parser)
    requires st.pos <= |ts|
    ensures Grows(st, r) && r.pos <= |ts|
  {
    var s1 := Expect(ts, Expect(ts, st, Static), Void);
    var r := Expect(ts, Expect(ts, s1, MainKw), LParen);
    GrowsTrans(st, s1, r);
    r
  }

  /** The parameter of `Main`: `string [ ]` and an optional name. */
  function MainParameter(ts: seq<Token>, st: Parser): (r: Parser)
    requires st.pos <= |ts|
    ensures Grows(st, r) && r.pos <= |ts|
  {
    var s1 := Expect(ts, Expect(ts, Expect(ts, st, StringType), LBracket), RBracket);
    var r := if Is(ts, s1.pos, Identifier) then s1.(pos := s1.pos + 1) else s1;
    GrowsTrans(st, s1, r);
    r
  }

  /** The header of `parseBlockMain`: the signature, the parameter, `) {`. */
  function MainHeader(ts: seq<Token>, st: Parser): (r: Parser)
    requires st.pos <= |ts|
    ensures Grows(st, r) && r.pos <= |ts|
  {
    var s1 := MainSignature(ts, st);
    var s2 := MainParameter(ts, s1);
    var r := Expect(ts, Expect(ts, s2, RParen), LBrace);
    GrowsTrans(st, s1, s2); GrowsTrans(st, s2, r);
    r
  }

  /** `parseBlockMain`: the header, the statements and `}`. */
  function BlockMain(ts: seq<Token>, st: Parser): (r: Parser)
    requires st.pos <= |ts|
    ensures Grows(st, r) && r.pos <= |ts|
  {
    var s1 := MainHeader(ts, st);
    var s2 := Lista(ts, s1);
    var r := Expect(ts, s2, RBrace);
    GrowsTrans(st, s1, s2); GrowsTrans(st, s2, r);
    r
  }

  /** `parseClass`: `public class`, an optional name, `{`, the `Main` block and `}`. */
  function ClassBlock(ts: seq<Token>, st: Parser): (r: Parser)
    requires st.pos <= |ts|
    ensures Grows(st, r) && r.pos <= |ts|
  {
    var s1 := Expect(ts, Expect(ts, st, Public), Class);
    var s2 := if Is(ts, s1.pos, Identifier) then s1.(pos := s1.pos + 1) else s1;
    var s3 := BlockMain(ts, Expect(ts, s2, LBrace));
    var r := Expect(ts, s3, RBrace);
    GrowsTrans(st, s1, s2); GrowsTrans(st, s2, s3); GrowsTrans(st, s3, r);
    r
  }

  /** The constructor's filter: every comment token dropped, the rest kept in order. */
  function WithoutComments(tokens: seq<Token>): (r: seq<Token>)
    ensures forall i :: 0 <= i < |r| ==> !r[i].kind.Comment?
    ensures |r| <= |tokens|
    decreases |tokens|
  {
    if |tokens| == 0 then []
    else if tokens[0].kind.Comment? then WithoutComments(tokens[1..])
    else [tokens[0]] + WithoutComments(tokens[1..])
  }

  /** The state `parseProgram` starts from. */
  const Fresh: Parser := Parser(0, [], [], [], "")

  /**
   * `parseProgram`: an optional `using`, then the class; tokens after the class are never
   * looked at.  `success` says that no error was recorded.
   */
  function ParseProgram(tokens: seq<Token>): (r: SyntaxResult)
    ensures r.success <==> r.errors == []
  {
    ParseTokens(WithoutComments(tokens))
  }

  /** `parseProgram` on the tokens left after the filter. */
  function ParseTokens(ts: seq<Token>): (r: SyntaxResult)
    ensures r.success <==> r.errors == []
  {
    var st := ClassBlock(ts, BlockUsing(ts, Fresh));
    SyntaxResult(st.symbols, st.errors, st.printed, st.code, |st.errors| == 0)
  }
}
