/**
 * The recursive-descent parser of the AST-based pipeline (`AnalizadorSintactico`).  A thrown
 * exception becomes `Fail`; the state it carries is where the cursor and the error list
 * stood at the throw, since the source never rewinds either.  Only the statement-list loop
 * catches, and `analizar` catches whatever escapes it.
 */
module Sintactico {
  import opened Common
  import opened Lexico
  import opened Ast

  /** What a `consumir` call expects: one kind, or the list of the five type keywords. */
  datatype Esperado = Uno(k: Kind) | TipoDato

  /** A token of kind `k` is what `e` expects. */
  predicate Acepta(e: Esperado, k: Kind) {
    match e
    case Uno(x) => k == x
    case TipoDato => EsTipoDato(k)
  }

  /** One syntax error: where, the kind found (`None` for `EOF`), and what was expected. */
  datatype SynError = SynError(fila: nat, columna: nat, encontrado: Option<Kind>, esperado: Esperado)

  /** The cursor (`posicion`) and the errors recorded so far. */
  datatype PState = PState(pos: nat, errores: seq<SynError>)

  /** The outcome of a production: a value and the state after it, or a throw. */
  datatype Parse<+T> = Ok(value: T, st: PState) | Fail(st: PState) {
    predicate IsFailure() { Fail? }

    function PropagateFailure<U>(): Parse<U>
      requires Fail?
    {
      Fail(st)
    }

    function Extract(): (T, PState)
      requires Ok?
    {
      (value, st)
    }
  }

  /** The state only moves forward: the cursor never goes back and errors are only appended. */
  predicate Sigue(st: PState, r: PState) {
    st.pos <= r.pos && st.errores <= r.errores
  }

  /** Tokens left from `pos`; the measure every production decreases. */
  function Rem(ts: seq<Token>, pos: nat): nat {
    if pos < |ts| then |ts| - pos else 0
  }

  /** `tokenActual` exists and has kind `k`. */
  predicate Mira(ts: seq<Token>, st: PState, k: Kind) {
    st.pos < |ts| && ts[st.pos].tipo == k
  }

  /** `tokenActual` is an `OPERADOR` of level `n`. */
  predicate MiraOp(ts: seq<Token>, st: PState, n: ClaseOp) {
    Mira(ts, st, Operador) && OperadorDe(n, ts[st.pos].valor)
  }

  /** The constructor's filter: comment tokens are dropped, the others keep their order. */
  function Filtrar(ts: seq<Token>): (r: seq<Token>)
    ensures |r| <= |ts|
    ensures forall t :: t in r ==> t in ts && !t.tipo.ComentarioLinea? && !t.tipo.ComentarioBloque?
    ensures (forall i :: 0 <= i < |ts| ==> !ts[i].tipo.ComentarioLinea? && !ts[i].tipo.ComentarioBloque?) ==> r == ts
  {
    if |ts| == 0 then []
    else
      var resto := Filtrar(ts[1..]);
      if ts[0].tipo.ComentarioLinea? || ts[0].tipo.ComentarioBloque? then resto
      else [ts[0]] + resto
  }

  /** `consumir`: on a token of an expected kind, that token and one step forward; otherwise a throw. */
  function Consumir(ts: seq<Token>, st: PState, esperado: Esperado): (r: Parse<Token>)
    ensures r.Ok? <==> st.pos < |ts| && Acepta(esperado, ts[st.pos].tipo)
    ensures r.Ok? ==> r.value == ts[st.pos] && r.st == PState(st.pos + 1, st.errores)
    ensures r.Fail? ==> r.st.pos == st.pos && |r.st.errores| == |st.errores| + 1 && st.errores <= r.st.errores
  {
    if st.pos < |ts| then
      var t := ts[st.pos];
      if Acepta(esperado, t.tipo) then Ok(t, PState(st.pos + 1, st.errores))
      else Fail(st.(errores := st.errores + [SynError(t.fila, t.columna, Some(t.tipo), esperado)]))
    else
      var e := if |ts| > 0 then SynError(ts[|ts| - 1].fila, ts[|ts| - 1].columna, None, esperado)
               else SynError(1, 1, None, esperado);
      Fail(st.(errores := st.errores + [e]))
  }

  /**
   * The error a failing `consumir` records: the found token's line, column and kind; at the
   * end of input, `EOF` placed at the last token, or at line 1, column 1 when there are no
   * tokens.  Nothing else is recorded and the cursor does not move.
   */
  lemma ConsumirEspec(ts: seq<Token>, st: PState, esperado: Esperado)
    ensures var r := Consumir(ts, st, esperado);
      r.Fail? && st.pos < |ts| ==>
        r.st == st.(errores := st.errores + [SynError(ts[st.pos].fila, ts[st.pos].columna, Some(ts[st.pos].tipo), esperado)])
    ensures var r := Consumir(ts, st, esperado);
      r.Fail? && st.pos >= |ts| ==>
        && r.st.pos == st.pos && r.st.errores[..|st.errores|] == st.errores
        && var e := r.st.errores[|st.errores|];
        && e.encontrado == None && e.esperado == esperado
        && (if |ts| > 0 then e.fila == ts[|ts| - 1].fila && e.columna == ts[|ts| - 1].columna
            else e.fila == 1 && e.columna == 1)
  {
  }

  // ---------------------------------------------------------------- expressions

  /** What an expression production guarantees: forward only, no error unless it fails. */
  predicate ExprOk<T>(ts: seq<Token>, st: PState, r: Parse<T>) {
    && Sigue(st, r.st)
    && (r.Ok? ==> st.pos < r.st.pos <= |ts| && r.st.errores == st.errores)
    && (r.Fail? ==> |r.st.errores| <= |st.errores| + 1)
  }

  /** The atom a literal or identifier token stands for. */
  function Atomo(t: Token): (e: Option<Expr>)
    ensures e.Some? <==> t.tipo.Identificador? || t.tipo.Entero? || t.tipo.Decimal? || t.tipo.Caracter? || t.tipo.Cadena? || t.tipo.Boolean?
  {
    match t.tipo
    case Identificador => Some(ExpIdentificador(t.valor))
    case Entero => Some(ExpNumero(t.valor, false))
    case Decimal => Some(ExpNumero(t.valor, true))
    case Caracter => Some(ExpCaracter(t.valor))
    case Cadena => Some(ExpCadena(t.valor))
    case Boolean => Some(ExpBooleano(t.valor == "true"))
    case _ => None
  }

  /**
   * `parseFactor`: a parenthesised ADDITIVE expression (no node of its own) or one literal
   * or identifier.  End of input and any other token throw without recording an error.
   */
  function Factor(ts: seq<Token>, st: PState): (r: Parse<Expr>)
    ensures ExprOk(ts, st, r)
    ensures r.Ok? ==> Aritmetico(r.value)
    ensures st.pos >= |ts| ==> r == Fail(st)
    ensures st.pos < |ts| && !ts[st.pos].tipo.ParentesisIzq? ==>
      if Atomo(ts[st.pos]).Some? then r == Ok(Atomo(ts[st.pos]).value, PState(st.pos + 1, st.errores))
      else r == Fail(st)
    decreases Rem(ts, st.pos), 0
  {
    if st.pos >= |ts| then Fail(st)
    else if ts[st.pos].tipo.ParentesisIzq? then
      match TerminoRelacional(ts, PState(st.pos + 1, st.errores))
      case Fail(st1) => Fail(st1)
      case Ok(e, st1) =>
        match Consumir(ts, st1, Uno(ParentesisDer))
        case Fail(st2) => Fail(st2)
        case Ok(_, st2) => Ok(e, st2)
    else
      match Atomo(ts[st.pos])
      case Some(e) => Ok(e, PState(st.pos + 1, st.errores))
      case None => Fail(st)
  }

  /** `parseTermino`: factors joined left to right by `*` and `/`. */
  function Termino(ts: seq<Token>, st: PState): (r: Parse<Expr>)
    ensures ExprOk(ts, st, r)
    ensures r.Ok? ==> Aritmetico(r.value)
    decreases Rem(ts, st.pos), 2
  {
    match Factor(ts, st)
    case Fail(st1) => Fail(st1)
    case Ok(f, st1) => RestoTermino(ts, f, st1)
  }

  /** The loop of `parseTermino`, with the tree built so far. */
  function RestoTermino(ts: seq<Token>, izq: Expr, st: PState): (r: Parse<Expr>)
    requires Aritmetico(izq)
    ensures Sigue(st, r.st) && (r.Ok? ==> r.st.pos <= |ts| || r.st.pos == st.pos)
    ensures r.Ok? ==> r.st.errores == st.errores && Aritmetico(r.value)
    ensures r.Fail? ==> |r.st.errores| <= |st.errores| + 1
    ensures !MiraOp(ts, st, Multiplicativo) ==> r == Ok(izq, st)
    decreases Rem(ts, st.pos), 1
  {
    if MiraOp(ts, st, Multiplicativo) then
      match Factor(ts, PState(st.pos + 1, st.errores))
      case Fail(st1) => Fail(st1)
      case Ok(d, st1) => RestoTermino(ts, ExpAritmetica(izq, ts[st.pos].valor, d), st1)
    else
      Ok(izq, st)
  }

  /** `parseTerminoRelacional`: terms joined left to right by `+` and `-`. */
  function TerminoRelacional(ts: seq<Token>, st: PState): (r: Parse<Expr>)
    ensures ExprOk(ts, st, r)
    ensures r.Ok? ==> Aritmetico(r.value)
    decreases Rem(ts, st.pos), 4
  {
    match Termino(ts, st)
    case Fail(st1) => Fail(st1)
    case Ok(t, st1) => RestoAditivo(ts, t, st1)
  }

  /** The loop of `parseTerminoRelacional`. */
  function RestoAditivo(ts: seq<Token>, izq: Expr, st: PState): (r: Parse<Expr>)
    requires Aritmetico(izq)
    ensures Sigue(st, r.st) && (r.Ok? ==> r.st.pos <= |ts| || r.st.pos == st.pos)
    ensures r.Ok? ==> r.st.errores == st.errores && Aritmetico(r.value)
    ensures r.Fail? ==> |r.st.errores| <= |st.errores| + 1
    ensures !MiraOp(ts, st, Aditivo) ==> r == Ok(izq, st)
    decreases Rem(ts, st.pos), 3
  {
    if MiraOp(ts, st, Aditivo) then
      match Termino(ts, PState(st.pos + 1, st.errores))
      case Fail(st1) => Fail(st1)
      case Ok(d, st1) => RestoAditivo(ts, ExpAritmetica(izq, ts[st.pos].valor, d), st1)
    else
      Ok(izq, st)
  }

  /** `parseExpresion`: additive expressions joined left to right by comparisons. */
  function Expresion(ts: seq<Token>, st: PState): (r: Parse<Expr>)
    ensures ExprOk(ts, st, r)
    ensures r.Ok? ==> ExprBienFormada(r.value)
  {
    var t :- TerminoRelacional(ts, st);
    RestoRelacional(ts, t.0, t.1)
  }

  /** The loop of `parseExpresion`. */
  function RestoRelacional(ts: seq<Token>, izq: Expr, st: PState): (r: Parse<Expr>)
    requires ExprBienFormada(izq)
    ensures Sigue(st, r.st) && (r.Ok? ==> r.st.pos <= |ts| || r.st.pos == st.pos)
    ensures r.Ok? ==> r.st.errores == st.errores && ExprBienFormada(r.value)
    ensures r.Fail? ==> |r.st.errores| <= |st.errores| + 1
    ensures !MiraOp(ts, st, Relacional) ==> r == Ok(izq, st)
    decreases Rem(ts, st.pos)
  {
    if MiraOp(ts, st, Relacional) then
      var op := ts[st.pos].valor;
      var d :- TerminoRelacional(ts, PState(st.pos + 1, st.errores));
      RestoRelacional(ts, ExpRelacional(izq, op, d.0), d.1)
    else
      Ok(izq, st)
  }

  // ---------------------------------------------------------------- simple statements

  /** No token is an `IDENTIFICADOR` spelled `Console`. */
  predicate SinConsola(ts: seq<Token>) {
    forall i :: 0 <= i < |ts| ==> !(ts[i].tipo.Identificador? && ts[i].valor == "Console")
  }

  /** What a statement production guarantees. */
  predicate InstrOk(ts: seq<Token>, st: PState, r: Parse<Stmt>) {
    && Sigue(st, r.st)
    && (r.Ok? ==> st.pos < r.st.pos <= |ts|)
  }

  /**
   * The shape every parsed statement list has: each `for` starts with `DECLARACION_FOR` or
   * `ASIGNACION_FOR`, and a print appears only where the tokens hold an `IDENTIFICADOR`
   * spelled `Console`.
   */
  predicate Forma(ts: seq<Token>, ss: seq<Stmt>) {
    IniciosFor(ss) && (SinConsola(ts) ==> SinImprimir(ss))
  }

  /** `Forma` for one statement. */
  predicate FormaEn(ts: seq<Token>, s: Stmt) {
    IniciosForEn(s) && (SinConsola(ts) ==> SinImprimirEn(s))
  }

  /** `parseIdAsig`: an identifier and, after an `=` operator, its initial expression. */
  function IdAsig(ts: seq<Token>, st: PState): (r: Parse<VarDecl>)
    ensures ExprOk(ts, st, r)
    ensures r.Ok? ==> r.value.id == ts[st.pos].valor
    ensures r.Ok? ==> (r.value.expresion.Some? <==> MiraOp(ts, PState(st.pos + 1, st.errores), Igual))
  {
    var id :- Consumir(ts, st, Uno(Identificador));
    if MiraOp(ts, id.1, Igual) then
      var e :- Expresion(ts, PState(id.1.pos + 1, id.1.errores));
      Ok(VarDecl(id.0.valor, Some(e.0)), e.1)
    else
      Ok(VarDecl(id.0.valor, None), id.1)
  }

  /** The loop of `parseListaID`: more `, id [= expr]` while a comma follows. */
  function RestoListaId(ts: seq<Token>, st: PState): (r: Parse<seq<VarDecl>>)
    ensures Sigue(st, r.st) && (r.Ok? ==> r.st.pos <= |ts| || r.st.pos == st.pos)
    ensures r.Ok? ==> r.st.errores == st.errores
    ensures r.Fail? ==> |r.st.errores| <= |st.errores| + 1
    ensures !Mira(ts, st, Coma) ==> r == Ok([], st)
    decreases Rem(ts, st.pos)
  {
    if Mira(ts, st, Coma) then
      var v :- IdAsig(ts, PState(st.pos + 1, st.errores));
      var vs :- RestoListaId(ts, v.1);
      Ok([v.0] + vs.0, vs.1)
    else
      Ok([], st)
  }

  /** `parseListaID`: one or more variables, in source order. */
  function ListaId(ts: seq<Token>, st: PState): (r: Parse<seq<VarDecl>>)
    ensures ExprOk(ts, st, r)
    ensures r.Ok? ==> |r.value| >= 1
  {
    var v :- IdAsig(ts, st);
    var vs :- RestoListaId(ts, v.1);
    Ok([v.0] + vs.0, vs.1)
  }

  /** `parseDeclaracion`: a type keyword, the variables, `;`. */
  function Declaracion(ts: seq<Token>, st: PState): (r: Parse<Stmt>)
    ensures ExprOk(ts, st, r)
    ensures r.Ok? ==>
      && r.value.Declaracion? && r.value.tipoVariable == ts[st.pos].tipo
      && EsTipoDato(r.value.tipoVariable) && |r.value.variables| >= 1
  {
    var t :- Consumir(ts, st, TipoDato);
    var vs :- ListaId(ts, t.1);
    var pc :- Consumir(ts, vs.1, Uno(PuntoComa));
    Ok(Stmt.Declaracion(t.0.tipo, vs.0), pc.1)
  }

  /**
   * `parseAsignacion`: `id = expr ;`.  A token other than an `=` operator after the
   * identifier throws without recording an error.
   */
  function Asignacion(ts: seq<Token>, st: PState): (r: Parse<Stmt>)
    ensures ExprOk(ts, st, r)
    ensures r.Ok? ==> r.value.Asignacion? && r.value.id == ts[st.pos].valor
    ensures Mira(ts, st, Identificador) && !MiraOp(ts, PState(st.pos + 1, st.errores), Igual) ==>
      r == Fail(PState(st.pos + 1, st.errores))
  {
    var id :- Consumir(ts, st, Uno(Identificador));
    if !MiraOp(ts, id.1, Igual) then Fail(id.1)
    else
      var e :- Expresion(ts, PState(id.1.pos + 1, id.1.errores));
      var pc :- Consumir(ts, e.1, Uno(PuntoComa));
      Ok(Stmt.Asignacion(id.0.valor, e.0), pc.1)
  }

  /**
   * `parseImprimir`: `IDENTIFICADOR . IDENTIFICADOR ( expr ) ;` — both names are consumed as
   * identifiers, so the reserved `WriteLine` never matches.
   */
  function Imprimir(ts: seq<Token>, st: PState): (r: Parse<Stmt>)
    ensures ExprOk(ts, st, r)
    ensures r.Ok? ==> r.value.Imprimir? && st.pos + 7 <= r.st.pos && ts[st.pos + 2].tipo.Identificador?
  {
    var d :- CabeceraImprimir(ts, st);
    var arg :- Expresion(ts, d.1);
    var e :- Consumir(ts, arg.1, Uno(ParentesisDer));
    var f :- Consumir(ts, e.1, Uno(PuntoComa));
    Ok(Stmt.Imprimir(arg.0), f.1)
  }

  /** `Console . WriteLine (`: the four tokens before the argument of a print. */
  function CabeceraImprimir(ts: seq<Token>, st: PState): (r: Parse<()>)
    ensures Sigue(st, r.st) && (r.Fail? ==> |r.st.errores| == |st.errores| + 1)
    ensures r.Ok? ==> r.st == PState(st.pos + 4, st.errores) && r.st.pos <= |ts|
    ensures r.Ok? ==> ts[st.pos + 2].tipo.Identificador?
  {
    var a :- Consumir(ts, st, Uno(Identificador));
    var b :- Consumir(ts, a.1, Uno(Punto));
    var c :- Consumir(ts, b.1, Uno(Identificador));
    var d :- Consumir(ts, c.1, Uno(ParentesisIzq));
    Ok((), d.1)
  }

  /**
   * The first clause of `parseFor`: after a type keyword, `id`, ANY operator token and an
   * expression give `DECLARACION_FOR`; otherwise `id`, any operator and an expression give
   * `ASIGNACION_FOR`.  Called with a current token.
   */
  function InicioPara(ts: seq<Token>, st: PState): (r: Parse<ForInit>)
    requires st.pos < |ts|
    ensures ExprOk(ts, st, r)
    ensures r.Ok? ==> !r.value.InicioInstruccion?
    ensures r.Ok? ==> (r.value.DeclaracionFor? <==> EsTipoDato(ts[st.pos].tipo))
  {
    if EsTipoDato(ts[st.pos].tipo) then
      var t :- Consumir(ts, st, TipoDato);
      var id :- Consumir(ts, t.1, Uno(Identificador));
      var op :- Consumir(ts, id.1, Uno(Operador));
      var e :- Expresion(ts, op.1);
      Ok(DeclaracionFor(t.0.tipo, id.0.valor, e.0), e.1)
    else
      var id :- Consumir(ts, st, Uno(Identificador));
      var op :- Consumir(ts, id.1, Uno(Operador));
      var e :- Expresion(ts, op.1);
      Ok(AsignacionFor(id.0.valor, e.0), e.1)
  }

  // ---------------------------------------------------------------- statement lists

  /**
   * `parseListaInstrucciones`: statements until `}` or the end.  A statement that throws is
   * dropped, the token at the cursor where it threw is skipped, and the loop goes on unless
   * that skip reached the end.  The list itself never throws.
   */
  function ListaInstrucciones(ts: seq<Token>, st: PState): (r: (seq<Stmt>, PState))
    ensures Sigue(st, r.1)
    ensures r.1.pos >= |ts| || ts[r.1.pos].tipo.LlaveDer?
    ensures st.pos >= |ts| || ts[st.pos].tipo.LlaveDer? ==> r == ([], st)
    ensures |r.0| <= Rem(ts, st.pos)
    ensures Forma(ts, r.0)
    decreases Rem(ts, st.pos), 3
  {
    if st.pos < |ts| && !ts[st.pos].tipo.LlaveDer? then
      match Instruccion(ts, st)
      case Ok(s, st1) =>
        var (ss, st2) := ListaInstrucciones(ts, st1);
        ([s] + ss, st2)
      case Fail(st1) =>
        var st2 := PState(st1.pos + 1, st1.errores);
        if st2.pos >= |ts| then ([], st2) else ListaInstrucciones(ts, st2)
    else
      ([], st)
  }

  /** `{`, a statement list, `}` — the body of `Main`, of an `if`, of an `else` and of a `for`. */
  function Bloque(ts: seq<Token>, st: PState): (r: Parse<seq<Stmt>>)
    ensures Sigue(st, r.st)
    ensures r.Fail? ==> |r.st.errores| > |st.errores|
    ensures r.Ok? ==> st.pos + 2 <= r.st.pos <= |ts| && Forma(ts, r.value)
    decreases Rem(ts, st.pos), 3
  {
    var a :- Consumir(ts, st, Uno(LlaveIzq));
    var l := ListaInstrucciones(ts, a.1);
    var b :- Consumir(ts, l.1, Uno(LlaveDer));
    Ok(l.0, b.1)
  }

  /**
   * `parseInstruccion`: end of input throws without recording an error; otherwise the
   * statement the current token starts.
   */
  function Instruccion(ts: seq<Token>, st: PState): (r: Parse<Stmt>)
    ensures InstrOk(ts, st, r)
    ensures st.pos >= |ts| ==> r == Fail(st)
    ensures r.Ok? && r.value.Imprimir? ==> ts[st.pos].tipo.Identificador? && ts[st.pos].valor == "Console"
    ensures st.pos < |ts| && !(EsTipoDato(ts[st.pos].tipo) || ts[st.pos].tipo.Identificador? || ts[st.pos].tipo.If? || ts[st.pos].tipo.For?) ==> r == Fail(st)
    ensures r.Ok? ==> FormaEn(ts, r.value)
    decreases Rem(ts, st.pos), 2
  {
    if st.pos >= |ts| then Fail(st) else InstruccionEn(ts, st)
  }

  /**
   * The dispatch of `parseInstruccion` on the current token.  A token that does not start a
   * statement throws without recording an error; an identifier spelled `Console` starts a
   * print, any other identifier an assignment.
   */
  function InstruccionEn(ts: seq<Token>, st: PState): (r: Parse<Stmt>)
    requires st.pos < |ts|
    ensures InstrOk(ts, st, r)
    ensures r.Ok? && r.value.Imprimir? ==> ts[st.pos].tipo.Identificador? && ts[st.pos].valor == "Console"
    ensures !(EsTipoDato(ts[st.pos].tipo) || ts[st.pos].tipo.Identificador? || ts[st.pos].tipo.If? || ts[st.pos].tipo.For?) ==> r == Fail(st)
    ensures r.Ok? ==> FormaEn(ts, r.value)
    decreases Rem(ts, st.pos), 1
  {
    var t := ts[st.pos];
    if EsTipoDato(t.tipo) then Declaracion(ts, st)
    else if t.tipo.Identificador? then
      if t.valor == "Console" then Imprimir(ts, st) else Asignacion(ts, st)
    else if t.tipo.If? then InstruccionSi(ts, st)
    else if t.tipo.For? then InstruccionPara(ts, st)
    else Fail(st)
  }

  /** `if ( expr )`, the head of an `if`; the value is the condition. */
  function Condicion(ts: seq<Token>, st: PState): (r: Parse<Expr>)
    ensures ExprOk(ts, st, r)
    ensures r.Ok? ==> ExprBienFormada(r.value) && ts[st.pos].tipo.If?
  {
    var i :- Consumir(ts, st, Uno(If));
    var a :- Consumir(ts, i.1, Uno(ParentesisIzq));
    var c :- Expresion(ts, a.1);
    var d :- Consumir(ts, c.1, Uno(ParentesisDer));
    Ok(c.0, d.1)
  }

  /** `parseIf`: the `else` block is parsed exactly when `ELSE` follows the first block. */
  function InstruccionSi(ts: seq<Token>, st: PState): (r: Parse<Stmt>)
    ensures InstrOk(ts, st, r)
    ensures r.Ok? ==> r.value.Si? && ts[st.pos].tipo.If? && FormaEn(ts, r.value)
    decreases Rem(ts, st.pos), 0
  {
    var c :- Condicion(ts, st);
    var r :- CuerpoSi(ts, c.1);
    Ok(Si(c.0, r.0.0, r.0.1), r.1)
  }

  /** The first block of an `if` and its optional `else` block. */
  function CuerpoSi(ts: seq<Token>, st: PState): (r: Parse<(seq<Stmt>, Ast.Sino)>)
    ensures Sigue(st, r.st)
    ensures r.Ok? ==> st.pos + 2 <= r.st.pos <= |ts|
    ensures r.Ok? ==> Forma(ts, r.value.0) && IniciosForSino(r.value.1) && (SinConsola(ts) ==> SinImprimirSino(r.value.1))
    decreases Rem(ts, st.pos), 4
  {
    var cuerpo :- Bloque(ts, st);
    var sino :- Sino(ts, cuerpo.1);
    Ok((cuerpo.0, sino.0), sino.1)
  }

  /** The optional `else` block after the first block of an `if`. */
  function Sino(ts: seq<Token>, st: PState): (r: Parse<Ast.Sino>)
    ensures Sigue(st, r.st)
    ensures r.Ok? ==> r.st.pos <= |ts| || r.st == st
    ensures r.Ok? && r.value.ConSino? ==> r.st.pos <= |ts|
    ensures r.Ok? ==> (r.value.ConSino? <==> Mira(ts, st, Else))
    ensures !Mira(ts, st, Else) ==> r == Ok(SinSino, st)
    ensures r.Ok? ==> IniciosForSino(r.value) && (SinConsola(ts) ==> SinImprimirSino(r.value))
    decreases Rem(ts, st.pos), 3
  {
    if Mira(ts, st, Else) then
      var b :- Bloque(ts, PState(st.pos + 1, st.errores));
      Ok(ConSino(b.0), b.1)
    else
      Ok(SinSino, st)
  }

  /** The update clause of `parseFor`: `id` and an operator, which must be `++` or `--`. */
  function Actualizacion(ts: seq<Token>, st: PState): (r: Parse<(string, bool)>)
    ensures ExprOk(ts, st, r)
    ensures r.Ok? ==>
      && r.st.pos == st.pos + 2 && OperadorDe(IncDec, ts[st.pos + 1].valor)
      && r.value == (ts[st.pos].valor, ts[st.pos + 1].valor[0] == '+')
    ensures Mira(ts, st, Identificador) && MiraOp(ts, PState(st.pos + 1, st.errores), IncDec) ==> r.Ok?
    ensures Mira(ts, st, Identificador) && Mira(ts, PState(st.pos + 1, st.errores), Operador) ==>
      (r.Fail? <==> r == Fail(PState(st.pos + 2, st.errores)))
  {
    var id :- Consumir(ts, st, Uno(Identificador));
    var op :- Consumir(ts, id.1, Uno(Operador));
    if !OperadorDe(IncDec, op.0.valor) then Fail(op.1)
    else Ok((id.0.valor, op.0.valor[0] == '+'), op.1)
  }

  /** The parenthesised header of a `for`: initialiser, condition, variable, whether `++`. */
  datatype Cabecera = Cabecera(inicio: ForInit, condicion: Expr, variable: string, incremento: bool)

  /**
   * `for ( init ; cond ; id op )`.  Without a token after `(` the source reads `tipo` of
   * `null`, a TypeError that throws without recording an error.
   */
  function CabeceraPara(ts: seq<Token>, st: PState): (r: Parse<Cabecera>)
    ensures ExprOk(ts, st, r)
    ensures r.Ok? ==> ts[st.pos].tipo.For? && !r.value.inicio.InicioInstruccion?
    ensures Mira(ts, st, For) && st.pos + 2 == |ts| && ts[st.pos + 1].tipo.ParentesisIzq? ==>
      r == Fail(PState(st.pos + 2, st.errores))
  {
    var a :- Consumir(ts, st, Uno(For));
    var b :- Consumir(ts, a.1, Uno(ParentesisIzq));
    if b.1.pos >= |ts| then Fail(b.1)
    else
      var ini :- InicioPara(ts, b.1);
      var c :- Consumir(ts, ini.1, Uno(PuntoComa));
      var cond :- Expresion(ts, c.1);
      var d :- Consumir(ts, cond.1, Uno(PuntoComa));
      var act :- Actualizacion(ts, d.1);
      var e :- Consumir(ts, act.1, Uno(ParentesisDer));
      Ok(Cabecera(ini.0, cond.0, act.0.0, act.0.1), e.1)
  }

  /** `parseFor`: the header, then the body block. */
  function InstruccionPara(ts: seq<Token>, st: PState): (r: Parse<Stmt>)
    ensures InstrOk(ts, st, r)
    ensures r.Ok? ==> r.value.Para? && ts[st.pos].tipo.For? && FormaEn(ts, r.value)
    decreases Rem(ts, st.pos), 0
  {
    var c :- CabeceraPara(ts, st);
    var cuerpo :- Bloque(ts, c.1);
    Ok(Para(c.0.inicio, c.0.condicion, c.0.variable, c.0.incremento, cuerpo.0), cuerpo.1)
  }

  // ---------------------------------------------------------------- program

  /** The fixed `static void Main(string[] args)` header; the value is the parameter's name. */
  function EncabezadoMain(ts: seq<Token>, st: PState): (r: Parse<string>)
    ensures Sigue(st, r.st)
    ensures r.Fail? ==> |r.st.errores| > |st.errores|
    ensures r.Ok? ==> r.st == PState(st.pos + 9, st.errores) && r.st.pos <= |ts|
    ensures r.Ok? ==> r.value == ts[st.pos + 7].valor && ts[st.pos + 7].tipo.Identificador?
  {
    var a :- FirmaMain(ts, st);
    ParametroMain(ts, a.1)
  }

  /** `static void Main (`, the first four tokens of the header. */
  function FirmaMain(ts: seq<Token>, st: PState): (r: Parse<()>)
    ensures Sigue(st, r.st)
    ensures r.Fail? ==> |r.st.errores| > |st.errores|
    ensures r.Ok? ==> r.st == PState(st.pos + 4, st.errores) && r.st.pos <= |ts|
  {
    var a :- Consumir(ts, st, Uno(Static));
    var b :- Consumir(ts, a.1, Uno(Void));
    var c :- Consumir(ts, b.1, Uno(MainKw));
    var d :- Consumir(ts, c.1, Uno(ParentesisIzq));
    Ok((), d.1)
  }

  /** `string [ ] args )`, the parameter and the closing `)`; the value is the parameter's name. */
  function ParametroMain(ts: seq<Token>, st: PState): (r: Parse<string>)
    ensures Sigue(st, r.st)
    ensures r.Fail? ==> |r.st.errores| > |st.errores|
    ensures r.Ok? ==> r.st == PState(st.pos + 5, st.errores) && r.st.pos <= |ts|
    ensures r.Ok? ==> r.value == ts[st.pos + 3].valor && ts[st.pos + 3].tipo.Identificador?
  {
    var g :- TipoArgs(ts, st);
    var args :- Consumir(ts, g.1, Uno(Identificador));
    var h :- Consumir(ts, args.1, Uno(ParentesisDer));
    Ok(args.0.valor, h.1)
  }

  /** `string [ ]`, the parameter's type. */
  function TipoArgs(ts: seq<Token>, st: PState): (r: Parse<()>)
    ensures Sigue(st, r.st)
    ensures r.Fail? ==> |r.st.errores| > |st.errores|
    ensures r.Ok? ==> r.st == PState(st.pos + 3, st.errores) && r.st.pos <= |ts|
  {
    var e :- Consumir(ts, st, Uno(StringType));
    var f :- Consumir(ts, e.1, Uno(CorcheteIzq));
    var g :- Consumir(ts, f.1, Uno(CorcheteDer));
    Ok((), g.1)
  }

  /** `parseBlockMain`: the header, then the body block. */
  function BlockMain(ts: seq<Token>, st: PState): (r: Parse<(string, seq<Stmt>)>)
    ensures Sigue(st, r.st)
    ensures r.Fail? ==> |r.st.errores| > |st.errores|
    ensures r.Ok? ==> st.pos + 11 <= r.st.pos <= |ts|
    ensures r.Ok? ==> r.value.0 == ts[st.pos + 7].valor && Forma(ts, r.value.1)
  {
    var h :- EncabezadoMain(ts, st);
    var b :- Bloque(ts, h.1);
    Ok((h.0, b.0), b.1)
  }

  /** `parseBlockUsing`: `using System ;`. */
  function BlockUsing(ts: seq<Token>, st: PState): (r: Parse<()>)
    ensures Sigue(st, r.st)
    ensures r.Fail? ==> |r.st.errores| > |st.errores|
    ensures r.Ok? ==> r.st == PState(st.pos + 3, st.errores) && Mira(ts, st, Using)
  {
    var a :- Consumir(ts, st, Uno(Using));
    var b :- Consumir(ts, a.1, Uno(System));
    var c :- Consumir(ts, b.1, Uno(PuntoComa));
    Ok((), c.1)
  }

  /** `public class Name {`, the head of `parseClase`; the value is the class name. */
  function EncabezadoClase(ts: seq<Token>, st: PState): (r: Parse<string>)
    ensures Sigue(st, r.st)
    ensures r.Fail? ==> |r.st.errores| > |st.errores|
    ensures r.Ok? ==> r.st == PState(st.pos + 4, st.errores) && r.st.pos <= |ts|
    ensures r.Ok? ==> r.value == ts[st.pos + 2].valor && ts[st.pos + 2].tipo.Identificador?
  {
    var a :- Consumir(ts, st, Uno(Public));
    var b :- Consumir(ts, a.1, Uno(Class));
    var nombre :- Consumir(ts, b.1, Uno(Identificador));
    var c :- Consumir(ts, nombre.1, Uno(LlaveIzq));
    Ok(nombre.0.valor, c.1)
  }

  /** `parseClase`: the head, the `Main` block, `}`. */
  function Clase(ts: seq<Token>, st: PState): (r: Parse<Ast.Programa>)
    ensures Sigue(st, r.st)
    ensures r.Fail? ==> |r.st.errores| > |st.errores|
    ensures r.Ok? ==> st.pos + 16 <= r.st.pos <= |ts|
    ensures r.Ok? ==> ts[st.pos + 2].tipo.Identificador? && r.value.nombre == ts[st.pos + 2].valor
    ensures r.Ok? ==> Forma(ts, r.value.instrucciones)
  {
    var n :- EncabezadoClase(ts, st);
    var m :- BlockMain(ts, n.1);
    var d :- Consumir(ts, m.1, Uno(LlaveDer));
    Ok(Ast.Programa(n.0, m.0.0, m.0.1), d.1)
  }

  /** `parsePrograma`: `using System ;` then the class; later tokens are ignored. */
  function Programa(ts: seq<Token>, st: PState): (r: Parse<Ast.Programa>)
    ensures Sigue(st, r.st)
    ensures r.Fail? ==> |r.st.errores| > |st.errores|
    ensures r.Ok? ==> st.pos + 19 <= r.st.pos <= |ts| && Mira(ts, st, Using)
    ensures r.Ok? ==> Forma(ts, r.value.instrucciones)
  {
    var u :- BlockUsing(ts, st);
    Clase(ts, u.1)
  }

  /**
   * `analizar`: the program tree, or `None` when a throw escapes; the errors recorded up to
   * that point either way.  Comments never reach the parser.
   */
  function Analizar(tokens: seq<Token>): (r: (Option<Ast.Programa>, seq<SynError>))
    ensures r.0.Some? ==> |Filtrar(tokens)| >= 19
    ensures r.0.None? ==> |r.1| >= 1
  {
    var ts := Filtrar(tokens);
    match Programa(ts, PState(0, []))
    case Ok(p, st) => (Some(p), st.errores)
    case Fail(st) => (None, st.errores)
  }
}
