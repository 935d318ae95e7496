/**
 * The scanner of the AST-based pipeline (`AnalizadorLexico`): a single left-to-right pass
 * over the source text that keeps a cursor (`posicion`), a line (`fila`) and a column
 * (`columna`), and appends either tokens or lexical errors.  Every helper of the class is
 * a pure function from the scanner state to the next state.
 */
module Lexico {
  import opened Common

  /** The token kinds the scanner produces (`tipo`). */
  datatype Kind =
    // reserved words
    | Using | System | Public | Class | Static | Void | MainKw
    | StringType | IntType | FloatType | CharType | BoolType
    | Boolean | If | Else | For | Console | WriteLine
    // open classes
    | Identificador | Entero | Decimal | Cadena | Caracter
    | ComentarioLinea | ComentarioBloque | Operador
    // punctuation
    | PuntoComa | Punto | Coma | ParentesisIzq | ParentesisDer
    | LlaveIzq | LlaveDer | CorcheteIzq | CorcheteDer

  datatype Token = Token(tipo: Kind, valor: string, fila: nat, columna: nat)

  /** The four `descripcion` texts a lexical error can carry. */
  datatype Motivo = CaracterDesconocido | CadenaNoCerrada | CaracterNoCerrado | ComentarioNoCerrado

  datatype LexError = LexError(fila: nat, columna: nat, caracter: string, motivo: Motivo)

  function Descripcion(m: Motivo): string {
    match m
    case CaracterDesconocido => "Carácter desconocido"
    case CadenaNoCerrada => "Cadena no cerrada"
    case CaracterNoCerrado => "Carácter no cerrado correctamente"
    case ComentarioNoCerrado => "Comentario de bloque no cerrado"
  }

  // ---------------------------------------------------------------- character classes

  predicate EsDigito(c: char) { '0' <= c <= '9' }
  predicate EsLetra(c: char) { 'a' <= c <= 'z' || 'A' <= c <= 'Z' }
  predicate EsEspacio(c: char) { c == ' ' || c == '\t' }
  predicate EsSaltoLinea(c: char) { c == '\n' || c == '\r' }
  predicate EsOperador(c: char) {
    c == '+' || c == '-' || c == '*' || c == '/' || c == '=' || c == '!' || c == '<' || c == '>'
  }
  predicate EsSimbolo(c: char) {
    c == ';' || c == ',' || c == '.' || c == '{' || c == '}' || c == '(' || c == ')' || c == '[' || c == ']'
  }
  predicate EsCaracterIdentificador(c: char) { EsLetra(c) || EsDigito(c) || c == '_' }

  /** The reserved-word table, looked up by exact key. */
  const Reservadas: map<string, Kind> := map[
    "using" := Using, "System" := System, "public" := Public, "class" := Class,
    "static" := Static, "void" := Void, "Main" := MainKw, "string" := StringType,
    "int" := IntType, "float" := FloatType, "char" := CharType, "bool" := BoolType,
    "true" := Boolean, "false" := Boolean, "if" := If, "else" := Else, "for" := For,
    "Console" := Console, "WriteLine" := WriteLine]

  /** The kind of an identifier-shaped lexeme: its reserved-word entry, or `IDENTIFICADOR`. */
  function TipoIdentificador(w: string): (k: Kind)
    ensures k.Identificador? <==> w !in Reservadas
    ensures w in Reservadas ==> Reservadas[w] == k
  {
    if w in Reservadas then Reservadas[w] else Identificador
  }

  /** Kind of a one-character punctuation symbol. */
  function SimboloDe(c: char): (k: Option<Kind>)
    ensures k.Some? <==> EsSimbolo(c)
  {
    match c
    case ';' => Some(PuntoComa)
    case '.' => Some(Punto)
    case ',' => Some(Coma)
    case '(' => Some(ParentesisIzq)
    case ')' => Some(ParentesisDer)
    case '{' => Some(LlaveIzq)
    case '}' => Some(LlaveDer)
    case '[' => Some(CorcheteIzq)
    case ']' => Some(CorcheteDer)
    case _ => None
  }

  /** The six two-character operators. */
  predicate EsDoble(a: char, b: char) {
    (b == '=' && (a == '=' || a == '!' || a == '<' || a == '>')) || (a == b && (a == '+' || a == '-'))
  }

  /** A two-character operator as a lexeme. */
  predicate EsOperadorDoble(v: string) {
    |v| == 2 && EsDoble(v[0], v[1])
  }

  // ---------------------------------------------------------------- token shapes

  predicate EsPalabra(v: string) {
    |v| > 0 && EsLetra(v[0]) && forall k :: 0 <= k < |v| ==> EsCaracterIdentificador(v[k])
  }

  /** Digits and dots, starting with a digit, with at most one dot. */
  predicate EsNumero(v: string) {
    && |v| > 0 && EsDigito(v[0])
    && (forall k :: 0 <= k < |v| ==> EsDigito(v[k]) || v[k] == '.')
    && (forall k, l :: 0 <= k < l < |v| && v[k] == '.' ==> v[l] != '.')
  }

  predicate Recortado(v: string) {
    |v| > 0 ==> !IsJsSpace(v[0]) && !IsJsSpace(v[|v| - 1])
  }

  /** What every token the scanner emits looks like, by kind. */
  predicate BienFormado(t: Token) {
    match t.tipo
    case Entero => EsNumero(t.valor) && '.' !in t.valor
    case Decimal => EsNumero(t.valor) && '.' in t.valor
    case Identificador => EsPalabra(t.valor) && t.valor !in Reservadas
    case Cadena => '"' !in t.valor
    case Caracter => |t.valor| <= 1 && '\'' !in t.valor
    case ComentarioLinea => Recortado(t.valor) && '\n' !in t.valor && '\r' !in t.valor
    case ComentarioBloque => Recortado(t.valor)
    case Operador => (|t.valor| == 1 && EsOperador(t.valor[0])) || EsOperadorDoble(t.valor)
    case PuntoComa | Punto | Coma | ParentesisIzq | ParentesisDer
      | LlaveIzq | LlaveDer | CorcheteIzq | CorcheteDer =>
      |t.valor| == 1 && SimboloDe(t.valor[0]) == Some(t.tipo)
    case _ => EsPalabra(t.valor) && t.valor in Reservadas && Reservadas[t.valor] == t.tipo
  }

  // ---------------------------------------------------------------- scanner state

  datatype Lexer = Lexer(pos: nat, fila: nat, columna: nat, tokens: seq<Token>, errores: seq<LexError>)

  const Inicial := Lexer(0, 1, 1, [], [])

  /** `avanzar`: one character forward on the same line. */
  function Avanzar(st: Lexer): (r: Lexer)
    ensures r.pos == st.pos + 1 && r.columna == st.columna + 1
    ensures r.fila == st.fila && r.tokens == st.tokens && r.errores == st.errores
  {
    st.(pos := st.pos + 1, columna := st.columna + 1)
  }

  /** Exactly one token was appended and nothing else was reported. */
  predicate UnToken(st: Lexer, r: Lexer, t: Token) {
    r.tokens == st.tokens + [t] && r.errores == st.errores
  }

  /** Exactly one error was appended and no token. */
  predicate UnError(st: Lexer, r: Lexer, e: LexError) {
    r.tokens == st.tokens && r.errores == st.errores + [e]
  }

  /**
   * What every branch of the main loop does to the state: the cursor moves forward without
   * passing the end, the line never goes back, and at most one token or one error is
   * appended to what was there.
   */
  predicate Avance(s: string, st: Lexer, r: Lexer) {
    && st.pos < r.pos <= |s| && st.fila <= r.fila
    && st.tokens <= r.tokens && st.errores <= r.errores
    && |r.tokens| + |r.errores| <= |st.tokens| + |st.errores| + 1
  }

  // ---------------------------------------------------------------- numbers and words

  /** The loop of `analizarNumero`: digits, and a dot while none has been taken yet. */
  function FinNumero(s: string, i: nat, dec: bool): (r: (nat, bool))
    requires i <= |s|
    ensures i <= r.0 <= |s|
    ensures forall k :: i <= k < r.0 ==> EsDigito(s[k]) || s[k] == '.'
    ensures r.1 <==> dec || '.' in s[i..r.0]
    ensures dec ==> '.' !in s[i..r.0]
    ensures forall k, l :: i <= k < l < r.0 && s[k] == '.' ==> s[l] != '.'
    ensures r.0 == |s| || !(EsDigito(s[r.0]) || (s[r.0] == '.' && !r.1))
    decreases |s| - i
  {
    if i < |s| && (EsDigito(s[i]) || (s[i] == '.' && !dec)) then
      var r := FinNumero(s, i + 1, dec || s[i] == '.');
      assert s[i..r.0] == [s[i]] + s[i + 1..r.0];
      r
    else
      (i, dec)
  }

  /** `analizarNumero`: one `ENTERO` or `DECIMAL` token for the longest run the loop accepts. */
  function AnalizarNumero(s: string, st: Lexer): (r: Lexer)
    requires st.pos < |s| && EsDigito(s[st.pos])
    ensures Avance(s, st, r) && |r.tokens| == |st.tokens| + 1
  {
    var (j, dec) := FinNumero(s, st.pos, false);
    st.(pos := j, columna := st.columna + (j - st.pos),
        tokens := st.tokens + [Token(if dec then Decimal else Entero, s[st.pos..j], st.fila, st.columna)])
  }

  /**
   * A number is the longest run of digits with at most one dot, reported at its first
   * character; it is `DECIMAL` exactly when the run holds the dot.
   */
  lemma NumeroEspec(s: string, st: Lexer)
    requires st.pos < |s| && EsDigito(s[st.pos])
    ensures var r := AnalizarNumero(s, st);
      && r.fila == st.fila && r.columna == st.columna + (r.pos - st.pos)
      && UnToken(st, r, Token(r.tokens[|st.tokens|].tipo, s[st.pos..r.pos], st.fila, st.columna))
      && r.tokens[|st.tokens|].tipo in {Entero, Decimal}
      && EsNumero(s[st.pos..r.pos])
      && (r.tokens[|st.tokens|].tipo.Decimal? <==> '.' in s[st.pos..r.pos])
      && (r.pos == |s| || !(EsDigito(s[r.pos]) || (s[r.pos] == '.' && r.tokens[|st.tokens|].tipo.Entero?)))
  {
    var (j, dec) := FinNumero(s, st.pos, false);
    var v := s[st.pos..j];
    assert forall k :: 0 <= k < |v| ==> v[k] == s[st.pos + k];
  }

  /** The loop of `analizarIdentificador`. */
  function FinIdentificador(s: string, i: nat): (j: nat)
    requires i <= |s|
    ensures i <= j <= |s|
    ensures forall k :: i <= k < j ==> EsCaracterIdentificador(s[k])
    ensures j == |s| || !EsCaracterIdentificador(s[j])
    decreases |s| - i
  {
    if i < |s| && EsCaracterIdentificador(s[i]) then FinIdentificador(s, i + 1) else i
  }

  /** `analizarIdentificador`: one token for the longest `[a-zA-Z0-9_]` run. */
  function AnalizarIdentificador(s: string, st: Lexer): (r: Lexer)
    requires st.pos < |s| && EsLetra(s[st.pos])
    ensures Avance(s, st, r) && |r.tokens| == |st.tokens| + 1
  {
    var j := FinIdentificador(s, st.pos + 1);
    var v := s[st.pos..j];
    st.(pos := j, columna := st.columna + (j - st.pos),
        tokens := st.tokens + [Token(TipoIdentificador(v), v, st.fila, st.columna)])
  }

  /**
   * A word is the longest `[a-zA-Z0-9_]` run from a letter, typed by the reserved-word table
   * (exact keys only), otherwise `IDENTIFICADOR`.
   */
  lemma IdentificadorEspec(s: string, st: Lexer)
    requires st.pos < |s| && EsLetra(s[st.pos])
    ensures var r := AnalizarIdentificador(s, st);
      && r.fila == st.fila && r.columna == st.columna + (r.pos - st.pos)
      && UnToken(st, r, Token(TipoIdentificador(s[st.pos..r.pos]), s[st.pos..r.pos], st.fila, st.columna))
      && EsPalabra(s[st.pos..r.pos])
      && (r.pos == |s| || !EsCaracterIdentificador(s[r.pos]))
  {
    var j := FinIdentificador(s, st.pos + 1);
    var v := s[st.pos..j];
    assert forall k :: 0 <= k < |v| ==> v[k] == s[st.pos + k];
  }

  // ---------------------------------------------------------------- strings and characters

  /** Number of line-break characters (`\n` or `\r`) in `t`. */
  function Saltos(t: string): nat {
    if |t| == 0 then 0 else (if EsSaltoLinea(t[0]) then 1 else 0) + Saltos(t[1..])
  }

  /**
   * The loop of `analizarCadena`: up to the next `"`; a line break inside moves to the next
   * line, where the column restarts at 1 before the usual increment.
   */
  function CuerpoCadena(s: string, i: nat, fila: nat, col: nat): (r: (nat, nat, nat))
    requires i <= |s|
    ensures i <= r.0 <= |s|
    ensures '"' !in s[i..r.0]
    ensures r.0 == |s| || s[r.0] == '"'
    ensures r.1 == fila + Saltos(s[i..r.0])
    decreases |s| - i
  {
    if i < |s| && s[i] != '"' then
      var r := if EsSaltoLinea(s[i]) then CuerpoCadena(s, i + 1, fila + 1, 2)
               else CuerpoCadena(s, i + 1, fila, col + 1);
      assert s[i..r.0] == [s[i]] + s[i + 1..r.0];
      assert s[i..r.0][1..] == s[i + 1..r.0];
      r
    else
      (i, fila, col)
  }

  /** `analizarCadena`: a `CADENA` token when a closing quote follows, else one error. */
  function AnalizarCadena(s: string, st: Lexer): (r: Lexer)
    requires st.pos < |s| && s[st.pos] == '"'
    ensures Avance(s, st, r)
  {
    var (j, fila, col) := CuerpoCadena(s, st.pos + 1, st.fila, st.columna + 1);
    if j < |s| then
      st.(pos := j + 1, fila := fila, columna := col + 1,
          tokens := st.tokens + [Token(Cadena, s[st.pos + 1..j], fila, st.columna)])
    else
      st.(pos := j, fila := fila, columna := col,
          errores := st.errores + [LexError(fila, st.columna, "\"", CadenaNoCerrada)])
  }

  /**
   * A string literal holds the text between the quotes and is reported on the line where it
   * ENDS, at the opening column; without a closing quote the rest of the input is consumed
   * and one `Cadena no cerrada` error is reported on the current line at the opening column.
   */
  lemma {:induction false} CadenaEspec(s: string, st: Lexer)
    requires st.pos < |s| && s[st.pos] == '"'
    ensures var r := AnalizarCadena(s, st);
      ('"' in s[st.pos + 1..]) <==> |r.tokens| > |st.tokens|
    ensures var r := AnalizarCadena(s, st);
      '"' in s[st.pos + 1..] ==>
        && r.pos >= st.pos + 2 && s[r.pos - 1] == '"' && '"' !in s[st.pos + 1..r.pos - 1]
        && r.fila == st.fila + Saltos(s[st.pos + 1..r.pos - 1])
        && UnToken(st, r, Token(Cadena, s[st.pos + 1..r.pos - 1], r.fila, st.columna))
    ensures var r := AnalizarCadena(s, st);
      '"' !in s[st.pos + 1..] ==>
        && r.pos == |s| && r.fila == st.fila + Saltos(s[st.pos + 1..])
        && UnError(st, r, LexError(r.fila, st.columna, "\"", CadenaNoCerrada))
  {
    var j := CuerpoCadena(s, st.pos + 1, st.fila, st.columna + 1).0;
    if j < |s| {
      CadenaCerrada(s, st, j);
    } else {
      CadenaAbierta(s, st);
    }
  }

  lemma {:induction false} CadenaCerrada(s: string, st: Lexer, j: nat)
    requires st.pos < |s| && s[st.pos] == '"'
    requires j == CuerpoCadena(s, st.pos + 1, st.fila, st.columna + 1).0 && j < |s|
    ensures '"' in s[st.pos + 1..]
    ensures var r := AnalizarCadena(s, st);
      && r.pos == j + 1 && s[r.pos - 1] == '"' && '"' !in s[st.pos + 1..r.pos - 1]
      && r.fila == st.fila + Saltos(s[st.pos + 1..r.pos - 1])
      && UnToken(st, r, Token(Cadena, s[st.pos + 1..r.pos - 1], r.fila, st.columna))
  {
    assert s[st.pos + 1..][j - st.pos - 1] == '"';
  }

  lemma {:induction false} CadenaAbierta(s: string, st: Lexer)
    requires st.pos < |s| && s[st.pos] == '"'
    requires CuerpoCadena(s, st.pos + 1, st.fila, st.columna + 1).0 == |s|
    ensures '"' !in s[st.pos + 1..]
    ensures var r := AnalizarCadena(s, st);
      && r.pos == |s| && r.fila == st.fila + Saltos(s[st.pos + 1..])
      && UnError(st, r, LexError(r.fila, st.columna, "\"", CadenaNoCerrada))
  {
    assert s[st.pos + 1..] == s[st.pos + 1..|s|];
  }

  /** `analizarCaracter`: a `CARACTER` token for `'x'` or `''`, else one error. */
  function AnalizarCaracter(s: string, st: Lexer): (r: Lexer)
    requires st.pos < |s| && s[st.pos] == '\''
    ensures Avance(s, st, r)
  {
    var p := st.pos + 1;
    var q := if p < |s| && s[p] != '\'' then p + 1 else p;
    if q < |s| && s[q] == '\'' then
      st.(pos := q + 1, columna := st.columna + (q + 1 - st.pos),
          tokens := st.tokens + [Token(Caracter, s[p..q], st.fila, st.columna)])
    else
      st.(pos := q, columna := st.columna + (q - st.pos),
          errores := st.errores + [LexError(st.fila, st.columna, "'", CaracterNoCerrado)])
  }

  /**
   * `'x'` and `''` give a `CARACTER` token with at most one character; anything else gives
   * one `Carácter no cerrado correctamente` error after consuming the opening quote and at
   * most one more character.
   */
  lemma CaracterEspec(s: string, st: Lexer)
    requires st.pos < |s| && s[st.pos] == '\''
    ensures var r := AnalizarCaracter(s, st);
      && r.fila == st.fila && r.columna == st.columna + (r.pos - st.pos)
      && (|r.tokens| > |st.tokens| <==>
          (|s| >= st.pos + 2 && s[st.pos + 1] == '\'') ||
          (|s| >= st.pos + 3 && s[st.pos + 1] != '\'' && s[st.pos + 2] == '\''))
    ensures var r := AnalizarCaracter(s, st);
      |r.tokens| > |st.tokens| ==>
        && r.pos - st.pos in {2, 3}
        && UnToken(st, r, Token(Caracter, s[st.pos + 1..r.pos - 1], st.fila, st.columna))
        && |s[st.pos + 1..r.pos - 1]| <= 1 && '\'' !in s[st.pos + 1..r.pos - 1]
    ensures var r := AnalizarCaracter(s, st);
      |r.tokens| == |st.tokens| ==>
        r.pos - st.pos in {1, 2} && UnError(st, r, LexError(st.fila, st.columna, "'", CaracterNoCerrado))
  {
  }

  // ---------------------------------------------------------------- comments

  /** The loop of `analizarComentarioLinea`: up to the next line break. */
  function FinLinea(s: string, i: nat): (j: nat)
    requires i <= |s|
    ensures i <= j <= |s|
    ensures forall k :: i <= k < j ==> !EsSaltoLinea(s[k])
    ensures j == |s| || EsSaltoLinea(s[j])
    decreases |s| - i
  {
    if i < |s| && !EsSaltoLinea(s[i]) then FinLinea(s, i + 1) else i
  }

  /** `analizarComentarioLinea`: the rest of the line after `//`, trimmed; the break stays. */
  function AnalizarComentarioLinea(s: string, st: Lexer): (r: Lexer)
    requires st.pos + 1 < |s| && s[st.pos] == '/' && s[st.pos + 1] == '/'
    ensures Avance(s, st, r) && |r.tokens| == |st.tokens| + 1
  {
    var j := FinLinea(s, st.pos + 2);
    var t := Token(ComentarioLinea, Trim(s[st.pos + 2..j]), st.fila, st.columna);
    st.(pos := j, columna := st.columna + (j - st.pos), tokens := st.tokens + [t])
  }

  /** A line comment runs up to, not over, the next line break and holds the trimmed text. */
  lemma ComentarioLineaEspec(s: string, st: Lexer)
    requires st.pos + 1 < |s| && s[st.pos] == '/' && s[st.pos + 1] == '/'
    ensures var r := AnalizarComentarioLinea(s, st);
      && r.fila == st.fila && r.columna == st.columna + (r.pos - st.pos)
      && (r.pos == |s| || EsSaltoLinea(s[r.pos]))
      && (forall k :: st.pos <= k < r.pos ==> !EsSaltoLinea(s[k]))
      && UnToken(st, r, Token(ComentarioLinea, Trim(s[st.pos + 2..r.pos]), st.fila, st.columna))
  {
  }

  /** Whether the two characters at `k` close a block comment. */
  predicate CierraEn(s: string, k: int) {
    0 <= k && k + 1 < |s| && s[k] == '*' && s[k + 1] == '/'
  }

  /**
   * The loop of `analizarComentarioBloque`: it stops at the first `*\/` or when only one
   * character is left.  A line break moves to the next line with the column set to 1 and
   * NOT incremented.
   */
  function CuerpoBloque(s: string, i: nat, fila: nat, col: nat): (r: (nat, nat, nat))
    requires i <= |s|
    ensures i <= r.0 <= |s| && r.1 >= fila
    ensures forall k :: i <= k < r.0 ==> k + 1 < |s| && !CierraEn(s, k)
    ensures CierraEn(s, r.0) || r.0 == (if i + 1 >= |s| then i else |s| - 1)
    decreases |s| - i
  {
    if i + 1 < |s| && !CierraEn(s, i) then
      if EsSaltoLinea(s[i]) then CuerpoBloque(s, i + 1, fila + 1, 1)
      else CuerpoBloque(s, i + 1, fila, col + 1)
    else
      (i, fila, col)
  }

  /** `analizarComentarioBloque`: a token up to the first `*\/`, else one error. */
  function AnalizarComentarioBloque(s: string, st: Lexer): (r: Lexer)
    requires st.pos + 1 < |s| && s[st.pos] == '/' && s[st.pos + 1] == '*'
    ensures Avance(s, st, r)
  {
    var (j, fila, col) := CuerpoBloque(s, st.pos + 2, st.fila, st.columna + 2);
    if CierraEn(s, j) then
      var t := Token(ComentarioBloque, Trim(s[st.pos + 2..j]), st.fila, st.columna);
      st.(pos := j + 2, fila := fila, columna := col + 2, tokens := st.tokens + [t])
    else
      st.(pos := j, fila := fila, columna := col,
          errores := st.errores + [LexError(st.fila, st.columna, "/*", ComentarioNoCerrado)])
  }

  /**
   * A block comment is a token at the opening line and column holding the trimmed text up
   * to the first `*\/`; without one there is one error at the opening line and column, and
   * the cursor stops BEFORE the last character, which is left out of the comment and scanned
   * by the main loop as a token.
   */
  lemma ComentarioBloqueEspec(s: string, st: Lexer)
    requires st.pos + 1 < |s| && s[st.pos] == '/' && s[st.pos + 1] == '*'
    ensures var r := AnalizarComentarioBloque(s, st);
      (exists k :: st.pos + 2 <= k && CierraEn(s, k)) <==> |r.tokens| > |st.tokens|
    ensures var r := AnalizarComentarioBloque(s, st);
      |r.tokens| > |st.tokens| ==>
        && r.pos >= st.pos + 4 && CierraEn(s, r.pos - 2)
        && (forall k :: st.pos + 2 <= k < r.pos - 2 ==> !CierraEn(s, k))
        && UnToken(st, r, Token(ComentarioBloque, Trim(s[st.pos + 2..r.pos - 2]), st.fila, st.columna))
    ensures var r := AnalizarComentarioBloque(s, st);
      |r.tokens| == |st.tokens| ==>
        && r.pos == (if st.pos + 2 == |s| then |s| else |s| - 1)
        && UnError(st, r, LexError(st.fila, st.columna, "/*", ComentarioNoCerrado))
  {
    var (j, fila, col) := CuerpoBloque(s, st.pos + 2, st.fila, st.columna + 2);
    if !CierraEn(s, j) {
      forall k | st.pos + 2 <= k ensures !CierraEn(s, k) {
        if k >= j { assert k + 1 >= |s|; }
      }
    }
  }

  // ---------------------------------------------------------------- operators and symbols

  /** `analizarOperador`: one of the six two-character operators when it is there, else one character. */
  function AnalizarOperador(s: string, st: Lexer): (r: Lexer)
    requires st.pos < |s| && EsOperador(s[st.pos])
    ensures Avance(s, st, r) && |r.tokens| == |st.tokens| + 1
  {
    var n := if st.pos + 1 < |s| && EsDoble(s[st.pos], s[st.pos + 1]) then 2 else 1;
    st.(pos := st.pos + n, columna := st.columna + n,
        tokens := st.tokens + [Token(Operador, s[st.pos..st.pos + n], st.fila, st.columna)])
  }

  /**
   * The six two-character operators take priority; any other operator character, a lone
   * `!` included, is a one-character `OPERADOR`.
   */
  lemma OperadorEspec(s: string, st: Lexer)
    requires st.pos < |s| && EsOperador(s[st.pos])
    ensures var r := AnalizarOperador(s, st);
      && r.fila == st.fila && r.columna == st.columna + (r.pos - st.pos)
      && (r.pos == st.pos + 2 <==> st.pos + 1 < |s| && EsDoble(s[st.pos], s[st.pos + 1]))
      && (r.pos == st.pos + 1 || r.pos == st.pos + 2)
      && UnToken(st, r, Token(Operador, s[st.pos..r.pos], st.fila, st.columna))
  {
  }

  /** `analizarSimbolo`: one punctuation token for one character. */
  function AnalizarSimbolo(s: string, st: Lexer): (r: Lexer)
    requires st.pos < |s| && EsSimbolo(s[st.pos])
    ensures Avance(s, st, r) && |r.tokens| == |st.tokens| + 1
    ensures r.tokens[|st.tokens|].tipo == SimboloDe(s[st.pos]).value
    ensures r.tokens[|st.tokens|].valor == [s[st.pos]]
  {
    Avanzar(st).(tokens := st.tokens + [Token(SimboloDe(s[st.pos]).value, [s[st.pos]], st.fila, st.columna)])
  }

  // ---------------------------------------------------------------- main loop

  /** A character none of the dispatch branches of `analizar` accepts. */
  predicate Desconocido(c: char) {
    !EsEspacio(c) && !EsSaltoLinea(c) && !EsDigito(c) && !EsLetra(c) && c != '"' && c != '\''
    && !EsOperador(c) && !EsSimbolo(c)
  }

  predicate TodosBienFormados(ts: seq<Token>) {
    forall i :: 0 <= i < |ts| ==> BienFormado(ts[i])
  }

  /** Whether the text at `i` opens a line comment or a block comment. */
  predicate AbreComentario(s: string, i: nat, segundo: char) {
    i + 1 < |s| && s[i] == '/' && s[i + 1] == segundo
  }

  /** One iteration of the loop of `analizar`, dispatching on the current character. */
  function Paso(s: string, st: Lexer): (r: Lexer)
    requires st.pos < |s|
    ensures Avance(s, st, r)
  {
    var c := s[st.pos];
    if EsEspacio(c) then Avanzar(st)
    else if EsSaltoLinea(c) then Avanzar(st.(fila := st.fila + 1, columna := 1))
    else if EsDigito(c) then AnalizarNumero(s, st)
    else if EsLetra(c) then AnalizarIdentificador(s, st)
    else if c == '"' then AnalizarCadena(s, st)
    else if c == '\'' then AnalizarCaracter(s, st)
    else if AbreComentario(s, st.pos, '/') then AnalizarComentarioLinea(s, st)
    else if AbreComentario(s, st.pos, '*') then AnalizarComentarioBloque(s, st)
    else if EsOperador(c) then AnalizarOperador(s, st)
    else if EsSimbolo(c) then AnalizarSimbolo(s, st)
    else Avanzar(st).(errores := st.errores + [LexError(st.fila, st.columna, [c], CaracterDesconocido)])
  }

  // The dispatch order of the loop, one lemma per branch of `Paso`: blanks advance, a line
  // break moves to the next line with the column set to 1 and then advanced (so the first
  // character of a line after the first is at column 2), and a character outside the
  // alphabet gives exactly one error carrying it and the current position, after which
  // scanning resumes at the next character.
  lemma PasoEspacio(s: string, st: Lexer)
    requires st.pos < |s| && EsEspacio(s[st.pos])
    ensures Paso(s, st) == Avanzar(st)
  {}

  lemma PasoSalto(s: string, st: Lexer)
    requires st.pos < |s| && EsSaltoLinea(s[st.pos])
    ensures Paso(s, st) == st.(pos := st.pos + 1, fila := st.fila + 1, columna := 2)
  {}

  lemma PasoNumero(s: string, st: Lexer)
    requires st.pos < |s| && EsDigito(s[st.pos])
    ensures Paso(s, st) == AnalizarNumero(s, st)
  {}

  lemma PasoIdentificador(s: string, st: Lexer)
    requires st.pos < |s| && EsLetra(s[st.pos])
    ensures Paso(s, st) == AnalizarIdentificador(s, st)
  {}

  lemma PasoCadena(s: string, st: Lexer)
    requires st.pos < |s| && s[st.pos] == '"'
    ensures Paso(s, st) == AnalizarCadena(s, st)
  {}

  lemma PasoCaracter(s: string, st: Lexer)
    requires st.pos < |s| && s[st.pos] == '\''
    ensures Paso(s, st) == AnalizarCaracter(s, st)
  {}

  lemma PasoComentarioLinea(s: string, st: Lexer)
    requires st.pos < |s| && AbreComentario(s, st.pos, '/')
    ensures Paso(s, st) == AnalizarComentarioLinea(s, st)
  {}

  lemma PasoComentarioBloque(s: string, st: Lexer)
    requires st.pos < |s| && AbreComentario(s, st.pos, '*')
    ensures Paso(s, st) == AnalizarComentarioBloque(s, st)
  {}

  lemma PasoOperador(s: string, st: Lexer)
    requires st.pos < |s| && EsOperador(s[st.pos])
    requires !AbreComentario(s, st.pos, '/') && !AbreComentario(s, st.pos, '*')
    ensures Paso(s, st) == AnalizarOperador(s, st)
  {}

  lemma PasoSimbolo(s: string, st: Lexer)
    requires st.pos < |s| && EsSimbolo(s[st.pos])
    ensures Paso(s, st) == AnalizarSimbolo(s, st)
  {
    var c := s[st.pos];
    assert !EsEspacio(c) && !EsSaltoLinea(c) && !EsDigito(c) && !EsLetra(c) && c != '"' && c != '\'';
    assert c != '/' && !EsOperador(c);
  }

  lemma PasoDesconocido(s: string, st: Lexer)
    requires st.pos < |s| && Desconocido(s[st.pos])
    ensures Paso(s, st) == Avanzar(st).(errores := st.errores + [LexError(st.fila, st.columna, [s[st.pos]], CaracterDesconocido)])
  {}

  /** The loop of `analizar`, from a given state to the end of the input. */
  function Bucle(s: string, st: Lexer): (r: Lexer)
    requires st.pos <= |s|
    ensures r.pos == |s|
    ensures st.tokens <= r.tokens && st.errores <= r.errores
    ensures |r.tokens| + |r.errores| <= |st.tokens| + |st.errores| + (|s| - st.pos)
    ensures TodosBienFormados(st.tokens) ==> TodosBienFormados(r.tokens)
    decreases |s| - st.pos
  {
    if st.pos < |s| then PasoBienFormado(s, st); Bucle(s, Paso(s, st)) else st
  }

  /** Every token a step appends is well formed. */
  lemma PasoBienFormado(s: string, st: Lexer)
    requires st.pos < |s|
    ensures TodosBienFormados(st.tokens) ==> TodosBienFormados(Paso(s, st).tokens)
  {
    var c := s[st.pos];
    if EsEspacio(c) { PasoEspacio(s, st); }
    else if EsSaltoLinea(c) { PasoSalto(s, st); }
    else if EsDigito(c) { PasoNumero(s, st); NumeroBienFormado(s, st); }
    else if EsLetra(c) { PasoIdentificador(s, st); IdentificadorBienFormado(s, st); }
    else if c == '"' { PasoCadena(s, st); CadenaBienFormada(s, st); }
    else if c == '\'' { PasoCaracter(s, st); CaracterBienFormado(s, st); }
    else if AbreComentario(s, st.pos, '/') { PasoComentarioLinea(s, st); LineaBienFormada(s, st); }
    else if AbreComentario(s, st.pos, '*') { PasoComentarioBloque(s, st); BloqueBienFormado(s, st); }
    else if EsOperador(c) { PasoOperador(s, st); OperadorBienFormado(s, st); }
    else if EsSimbolo(c) { PasoSimbolo(s, st); SimboloBienFormado(s, st); }
    else { PasoDesconocido(s, st); }
  }

  lemma NumeroBienFormado(s: string, st: Lexer)
    requires st.pos < |s| && EsDigito(s[st.pos])
    ensures TodosBienFormados(st.tokens) ==> TodosBienFormados(AnalizarNumero(s, st).tokens)
  {
    var r := AnalizarNumero(s, st);
    NumeroEspec(s, st);
    assert r.tokens == st.tokens + [r.tokens[|st.tokens|]];
    AgregarNumero(st.tokens, r.tokens[|st.tokens|]);
  }

  lemma IdentificadorBienFormado(s: string, st: Lexer)
    requires st.pos < |s| && EsLetra(s[st.pos])
    ensures TodosBienFormados(st.tokens) ==> TodosBienFormados(AnalizarIdentificador(s, st).tokens)
  {
    var r := AnalizarIdentificador(s, st);
    IdentificadorEspec(s, st);
    assert r.tokens == st.tokens + [r.tokens[|st.tokens|]];
    AgregarPalabra(st.tokens, r.tokens[|st.tokens|]);
  }

  lemma CadenaBienFormada(s: string, st: Lexer)
    requires st.pos < |s| && s[st.pos] == '"'
    ensures TodosBienFormados(st.tokens) ==> TodosBienFormados(AnalizarCadena(s, st).tokens)
  {
    var r := AnalizarCadena(s, st);
    CadenaEspec(s, st);
    if |r.tokens| != |st.tokens| {
      assert r.tokens == st.tokens + [r.tokens[|st.tokens|]];
      AgregarLiteral(st.tokens, r.tokens[|st.tokens|]);
    }
  }

  lemma CaracterBienFormado(s: string, st: Lexer)
    requires st.pos < |s| && s[st.pos] == '\''
    ensures TodosBienFormados(st.tokens) ==> TodosBienFormados(AnalizarCaracter(s, st).tokens)
  {
    var r := AnalizarCaracter(s, st);
    CaracterEspec(s, st);
    if |r.tokens| != |st.tokens| {
      assert r.tokens == st.tokens + [r.tokens[|st.tokens|]];
      AgregarLiteral(st.tokens, r.tokens[|st.tokens|]);
    }
  }

  lemma LineaBienFormada(s: string, st: Lexer)
    requires st.pos < |s| && AbreComentario(s, st.pos, '/')
    ensures TodosBienFormados(st.tokens) ==> TodosBienFormados(AnalizarComentarioLinea(s, st).tokens)
  {
    var r := AnalizarComentarioLinea(s, st);
    ComentarioLineaEspec(s, st);
    assert r.tokens == st.tokens + [r.tokens[|st.tokens|]];
    var x := s[st.pos + 2..r.pos];
    assert forall k :: 0 <= k < |x| ==> !EsSaltoLinea(x[k]) by {
      forall k | 0 <= k < |x| ensures !EsSaltoLinea(x[k]) { assert x[k] == s[st.pos + 2 + k]; }
    }
    AgregarComentario(st.tokens, r.tokens[|st.tokens|], x);
  }

  lemma BloqueBienFormado(s: string, st: Lexer)
    requires st.pos < |s| && AbreComentario(s, st.pos, '*')
    ensures TodosBienFormados(st.tokens) ==> TodosBienFormados(AnalizarComentarioBloque(s, st).tokens)
  {
    var r := AnalizarComentarioBloque(s, st);
    ComentarioBloqueEspec(s, st);
    if |r.tokens| != |st.tokens| {
      assert r.tokens == st.tokens + [r.tokens[|st.tokens|]];
      AgregarComentario(st.tokens, r.tokens[|st.tokens|], s[st.pos + 2..r.pos - 2]);
    }
  }

  lemma OperadorBienFormado(s: string, st: Lexer)
    requires st.pos < |s| && EsOperador(s[st.pos])
    ensures TodosBienFormados(st.tokens) ==> TodosBienFormados(AnalizarOperador(s, st).tokens)
  {
    var r := AnalizarOperador(s, st);
    OperadorEspec(s, st);
    assert r.tokens == st.tokens + [r.tokens[|st.tokens|]];
    AgregarOperador(st.tokens, r.tokens[|st.tokens|], s[st.pos..r.pos]);
  }

  lemma SimboloBienFormado(s: string, st: Lexer)
    requires st.pos < |s| && EsSimbolo(s[st.pos])
    ensures TodosBienFormados(st.tokens) ==> TodosBienFormados(AnalizarSimbolo(s, st).tokens)
  {
    var r := AnalizarSimbolo(s, st);
    assert r.tokens == st.tokens + [r.tokens[|st.tokens|]];
    AgregarSimbolo(st.tokens, r.tokens[|st.tokens|], s[st.pos]);
  }

  lemma AgregarNumero(ts: seq<Token>, t: Token)
    requires t.tipo in {Entero, Decimal} && EsNumero(t.valor)
    requires t.tipo.Decimal? <==> '.' in t.valor
    ensures TodosBienFormados(ts) ==> TodosBienFormados(ts + [t])
  {
    assert BienFormado(t);
  }

  lemma AgregarPalabra(ts: seq<Token>, t: Token)
    requires EsPalabra(t.valor) && t.tipo == TipoIdentificador(t.valor)
    ensures TodosBienFormados(ts) ==> TodosBienFormados(ts + [t])
  {
    assert BienFormado(t);
  }

  lemma AgregarLiteral(ts: seq<Token>, t: Token)
    requires (t.tipo.Cadena? && '"' !in t.valor) || (t.tipo.Caracter? && |t.valor| <= 1 && '\'' !in t.valor)
    ensures TodosBienFormados(ts) ==> TodosBienFormados(ts + [t])
  {
    assert BienFormado(t);
  }

  /** A comment token holds trimmed text, and a line comment no line break. */
  lemma AgregarComentario(ts: seq<Token>, t: Token, x: string)
    requires t.valor == Trim(x)
    requires t.tipo.ComentarioBloque? || (t.tipo.ComentarioLinea? && forall k :: 0 <= k < |x| ==> !EsSaltoLinea(x[k]))
    ensures TodosBienFormados(ts) ==> TodosBienFormados(ts + [t])
  {
    TrimEspec(x);
    assert t.tipo.ComentarioLinea? ==> '\n' !in x && '\r' !in x;
    assert BienFormado(t);
  }

  lemma AgregarOperador(ts: seq<Token>, t: Token, x: string)
    requires t.tipo.Operador? && t.valor == x
    requires (|x| == 1 && EsOperador(x[0])) || EsOperadorDoble(x)
    ensures TodosBienFormados(ts) ==> TodosBienFormados(ts + [t])
  {
    assert BienFormado(t);
  }

  lemma AgregarSimbolo(ts: seq<Token>, t: Token, c: char)
    requires EsSimbolo(c) && t.tipo == SimboloDe(c).value && t.valor == [c]
    ensures TodosBienFormados(ts) ==> TodosBienFormados(ts + [t])
  {
    assert t.valor[0] == c;
    match c
    case ';' => assert t.tipo.PuntoComa?;
    case '.' => assert t.tipo.Punto?;
    case ',' => assert t.tipo.Coma?;
    case '(' => assert t.tipo.ParentesisIzq?;
    case ')' => assert t.tipo.ParentesisDer?;
    case '{' => assert t.tipo.LlaveIzq?;
    case '}' => assert t.tipo.LlaveDer?;
    case '[' => assert t.tipo.CorcheteIzq?;
    case ']' => assert t.tipo.CorcheteDer?;
  }

  /**
   * `analizar`: the tokens and the errors of the whole text.  Every token is well formed and
   * there are never more reports than characters.
   */
  function Analizar(s: string): (r: (seq<Token>, seq<LexError>))
    ensures TodosBienFormados(r.0)
    ensures |r.0| + |r.1| <= |s|
  {
    var st := Bucle(s, Inicial);
    (st.tokens, st.errores)
  }
}
