/**
 * The unused variant of the AST-based parser (`src/analizdor/sintactico.ts`).  It reads the
 * same tokens and builds the same tree as module Sintactico, but it filters no comment,
 * recovers from nothing (the first throw ends the whole analysis with no tree), records an
 * error only when a token is there and has the wrong kind, chooses among the
 * identifier-led statements by looking one token ahead, and lets the `for` initialiser
 * consume its own `;`.  The productions that can reach a `for` take a `Lectura`: the code
 * as written then expects a second `;`, the corrected reading does not.
 */
module SintacticoVariante {
  import opened Common
  import opened Lexico
  import opened Ast
  import Sintactico

  /**
   * How `parseFor` reads the `;` after its initialiser: as the code is written (a second
   * `;` is expected), or as intended (the initialiser's own `;` is the only one).
   */
  datatype Lectura = ComoEscrita | Corregida

  /**
   * The outcome of a production: a value and the cursor after it, or a throw that carries
   * the error `expect` recorded just before it, if any.  Since nothing catches below
   * `analizar`, the cursor at a throw does not matter.
   */
  datatype Intento<+T> = Ok(value: T, pos: nat) | Fail(error: Option<Sintactico.SynError>)

  /** The token at `p` exists and has kind `k`. */
  predicate Mira(ts: seq<Token>, p: nat, k: Kind) {
    p < |ts| && ts[p].tipo == k
  }

  /** The token at `p` is an `OPERADOR` of class `n`. */
  predicate MiraOp(ts: seq<Token>, p: nat, n: ClaseOp) {
    Mira(ts, p, Operador) && OperadorDe(n, ts[p].valor)
  }

  /**
   * `expect`: past the end it throws without recording anything; a token of an expected
   * kind is returned and passed; any other token is recorded as the one error, then thrown.
   */
  function Expect(ts: seq<Token>, p: nat, esperado: Sintactico.Esperado): (r: Intento<Token>)
    ensures r.Ok? <==> p < |ts| && Sintactico.Acepta(esperado, ts[p].tipo)
    ensures r.Ok? ==> r.value == ts[p] && r.pos == p + 1
    ensures p >= |ts| ==> r == Fail(None)
    ensures r.Fail? && p < |ts| ==>
      r.error == Some(Sintactico.SynError(ts[p].fila, ts[p].columna, Some(ts[p].tipo), esperado))
    ensures Avanza(ts, p, r)
  {
    if p >= |ts| then Fail(None)
    else if Sintactico.Acepta(esperado, ts[p].tipo) then Ok(ts[p], p + 1)
    else
      var e := Sintactico.SynError(ts[p].fila, ts[p].columna, Some(ts[p].tipo), esperado);
      assert ErrorEn(ts, p, e);
      Fail(Some(e))
  }

  /** `expect` of one kind. */
  function Uno(ts: seq<Token>, p: nat, k: Kind): (r: Intento<Token>)
    ensures r.Ok? <==> Mira(ts, p, k)
    ensures r.Ok? ==> r.pos == p + 1
    ensures Avanza(ts, p, r)
  {
    Expect(ts, p, Sintactico.Uno(k))
  }

  /** `e` is the error `expect` records for the token at `k`: that token is not what it wanted. */
  predicate ErrorEn(ts: seq<Token>, k: nat, e: Sintactico.SynError) {
    && k < |ts|
    && e == Sintactico.SynError(ts[k].fila, ts[k].columna, Some(ts[k].tipo), e.esperado)
    && !Sintactico.Acepta(e.esperado, ts[k].tipo)
  }

  /** `e` is recorded for some token at or after `p`. */
  predicate ErrorDesde(ts: seq<Token>, p: nat, e: Sintactico.SynError) {
    exists k :: p <= k < |ts| && ErrorEn(ts, k, e)
  }

  /** A production started at `p` that threw with an error blamed a token at or after `p`. */
  predicate Culpa<T>(ts: seq<Token>, p: nat, r: Intento<T>) {
    r.Fail? && r.error.Some? ==> ErrorDesde(ts, p, r.error.value)
  }

  /**
   * A production started at `p` that succeeded consumed at least one token and stayed within
   * them; one that threw with an error blamed a token at or after `p`.
   */
  predicate Avanza<T>(ts: seq<Token>, p: nat, r: Intento<T>) {
    && (r.Ok? ==> p < r.pos <= |ts|)
    && Culpa(ts, p, r)
  }

  // ---------------------------------------------------------------- expressions

  /**
   * `parseFactor`: a parenthesised sum (no node of its own), or one literal or identifier.
   * Past the end, or on any other token, it throws without recording an error.
   */
  function Factor(ts: seq<Token>, p: nat): (r: Intento<Expr>)
    ensures Avanza(ts, p, r) && (r.Ok? ==> Aritmetico(r.value))
    ensures p < |ts| && !ts[p].tipo.ParentesisIzq? ==>
      r == if Sintactico.Atomo(ts[p]).Some? then Ok(Sintactico.Atomo(ts[p]).value, p + 1) else Fail(None)
    decreases |ts| - p, 0
  {
    if p >= |ts| then Fail(None)
    else if ts[p].tipo.ParentesisIzq? then
      var o1 := Aritmetica(ts, p + 1);
      if o1.Fail? then Fail(o1.error) else
      var a, q := o1.value, o1.pos;
      var o2 := Uno(ts, q, ParentesisDer);
      if o2.Fail? then Fail(o2.error) else
      Ok(a, o2.pos)
    else
      match Sintactico.Atomo(ts[p])
      case Some(e) => Ok(e, p + 1)
      case None => Fail(None)
  }

  /** The loop of `parseTermino`: `* factor` and `/ factor`, folded to the left. */
  function RestoTermino(ts: seq<Token>, izq: Expr, p: nat): (r: Intento<Expr>)
    requires p <= |ts| && Aritmetico(izq)
    ensures r.Ok? ==> p <= r.pos <= |ts| && Aritmetico(r.value)
    ensures Culpa(ts, p, r)
    ensures !MiraOp(ts, p, Multiplicativo) ==> r == Ok(izq, p)
    decreases |ts| - p, 1
  {
    if MiraOp(ts, p, Multiplicativo) then
      var o1 := Factor(ts, p + 1);
      if o1.Fail? then Fail(o1.error) else
      var d, q := o1.value, o1.pos;
      RestoTermino(ts, ExpAritmetica(izq, ts[p].valor, d), q)
    else Ok(izq, p)
  }

  /** `parseTermino`. */
  function Termino(ts: seq<Token>, p: nat): (r: Intento<Expr>)
    ensures Avanza(ts, p, r) && (r.Ok? ==> Aritmetico(r.value))
    decreases |ts| - p, 2
  {
    var o1 := Factor(ts, p);
    if o1.Fail? then Fail(o1.error) else
    var f, q := o1.value, o1.pos;
    RestoTermino(ts, f, q)
  }

  /** The loop of `parseAritmetica`: `+ term` and `- term`, folded to the left. */
  function RestoAritmetica(ts: seq<Token>, izq: Expr, p: nat): (r: Intento<Expr>)
    requires p <= |ts| && Aritmetico(izq)
    ensures r.Ok? ==> p <= r.pos <= |ts| && Aritmetico(r.value)
    ensures Culpa(ts, p, r)
    ensures !MiraOp(ts, p, Aditivo) ==> r == Ok(izq, p)
    decreases |ts| - p, 3
  {
    if MiraOp(ts, p, Aditivo) then
      var o1 := Termino(ts, p + 1);
      if o1.Fail? then Fail(o1.error) else
      var d, q := o1.value, o1.pos;
      RestoAritmetica(ts, ExpAritmetica(izq, ts[p].valor, d), q)
    else Ok(izq, p)
  }

  /** `parseAritmetica`: a sum of products, with no comparison inside. */
  function Aritmetica(ts: seq<Token>, p: nat): (r: Intento<Expr>)
    ensures Avanza(ts, p, r) && (r.Ok? ==> Aritmetico(r.value))
    decreases |ts| - p, 4
  {
    var o1 := Termino(ts, p);
    if o1.Fail? then Fail(o1.error) else
    var t, q := o1.value, o1.pos;
    RestoAritmetica(ts, t, q)
  }

  /** `parseExpresion`: a sum, then at most one comparison with a second sum. */
  function Expresion(ts: seq<Token>, p: nat): (r: Intento<Expr>)
    ensures Avanza(ts, p, r)
    ensures r.Ok? ==> Aritmetico(r.value) || (r.value.ExpRelacional? && Aritmetico(r.value.izq) && Aritmetico(r.value.der))
  {
    var o1 := Aritmetica(ts, p);
    if o1.Fail? then Fail(o1.error) else
    var a, q := o1.value, o1.pos;
    if MiraOp(ts, q, Relacional) then
      var o2 := Aritmetica(ts, q + 1);
      if o2.Fail? then Fail(o2.error) else
      var b, q2 := o2.value, o2.pos;
      Ok(ExpRelacional(a, ts[q].valor, b), q2)
    else Ok(a, q)
  }

  // ---------------------------------------------------------------- declarations and assignments

  /** `parseIdAsig`: a name, and `= expression` when an `=` operator follows. */
  function IdAsig(ts: seq<Token>, p: nat): (r: Intento<VarDecl>)
    ensures Avanza(ts, p, r)
  {
    var o1 := Uno(ts, p, Identificador);
    if o1.Fail? then Fail(o1.error) else
    var id, q := o1.value, o1.pos;
    if MiraOp(ts, q, Igual) then
      var o2 := Expresion(ts, q + 1);
      if o2.Fail? then Fail(o2.error) else
      var x, q2 := o2.value, o2.pos;
      Ok(VarDecl(id.valor, Some(x)), q2)
    else Ok(VarDecl(id.valor, None), q)
  }

  /** The loop of `parseListaID`: while a comma follows, one more name. */
  function RestoListaId(ts: seq<Token>, p: nat): (r: Intento<seq<VarDecl>>)
    requires p <= |ts|
    ensures r.Ok? ==> p <= r.pos <= |ts| && !Mira(ts, r.pos, Coma)
    ensures Culpa(ts, p, r)
    decreases |ts| - p
  {
    if Mira(ts, p, Coma) then
      var o1 := IdAsig(ts, p + 1);
      if o1.Fail? then Fail(o1.error) else
      var v, q := o1.value, o1.pos;
      var o2 := RestoListaId(ts, q);
      if o2.Fail? then Fail(o2.error) else
      var vs, q2 := o2.value, o2.pos;
      Ok([v] + vs, q2)
    else Ok([], p)
  }

  /** `parseListaID`: one name, then more while commas follow. */
  function ListaId(ts: seq<Token>, p: nat): (r: Intento<seq<VarDecl>>)
    ensures Avanza(ts, p, r)
    ensures r.Ok? ==> |r.value| >= 1 && !Mira(ts, r.pos, Coma)
  {
    var o1 := IdAsig(ts, p);
    if o1.Fail? then Fail(o1.error) else
    var o2 := RestoListaId(ts, o1.pos);
    if o2.Fail? then Fail(o2.error) else
    Ok([o1.value] + o2.value, o2.pos)
  }

  /** `x` once a `;` at `p` ends it. */
  function Terminada<T>(ts: seq<Token>, p: nat, x: T): (r: Intento<T>)
    ensures Avanza(ts, p, r)
    ensures r.Ok? <==> Mira(ts, p, PuntoComa)
    ensures r.Ok? ==> r.value == x && r.pos == p + 1
    ensures r.Ok? ==> Mira(ts, r.pos - 1, PuntoComa)
  {
    var o := Uno(ts, p, PuntoComa);
    if o.Fail? then Fail(o.error) else Ok(x, o.pos)
  }

  /** `parseDeclaracion`: a type keyword, one or more names, and `;`. */
  function Declaracion(ts: seq<Token>, p: nat): (r: Intento<Stmt>)
    ensures Avanza(ts, p, r)
    ensures r.Ok? ==> r.value.Declaracion? && |r.value.variables| >= 1
    ensures r.Ok? ==> Mira(ts, r.pos - 1, PuntoComa)
  {
    var o1 := Expect(ts, p, Sintactico.TipoDato);
    if o1.Fail? then Fail(o1.error) else
    var o2 := ListaId(ts, o1.pos);
    if o2.Fail? then Fail(o2.error) else
    Terminada(ts, o2.pos, Ast.Declaracion(o1.value.tipo, o2.value))
  }

  /** `parseAsignacion`: a name, any operator, an expression and `;`. */
  function Asignacion(ts: seq<Token>, p: nat): (r: Intento<Stmt>)
    ensures Avanza(ts, p, r)
    ensures r.Ok? ==> r.value.Asignacion?
    ensures r.Ok? ==> Mira(ts, r.pos - 1, PuntoComa)
  {
    var o1 := Uno(ts, p, Identificador);
    if o1.Fail? then Fail(o1.error) else
    var id, q := o1.value, o1.pos;
    var o2 := Uno(ts, q, Operador);
    if o2.Fail? then Fail(o2.error) else
    var o3 := Expresion(ts, o2.pos);
    if o3.Fail? then Fail(o3.error) else
    var x, q2 := o3.value, o3.pos;
    Terminada(ts, q2, Ast.Asignacion(id.valor, x))
  }

  /** The head of `parseImprimir`: two identifiers around a `.`, then `(`. */
  function CabeceraImprimir(ts: seq<Token>, p: nat): (r: Intento<()>)
    ensures Avanza(ts, p, r)
  {
    var o1 := Uno(ts, p, Identificador);
    if o1.Fail? then Fail(o1.error) else
    var o2 := Uno(ts, o1.pos, Punto);
    if o2.Fail? then Fail(o2.error) else
    var o3 := Uno(ts, o2.pos, Identificador);
    if o3.Fail? then Fail(o3.error) else
    var o4 := Uno(ts, o3.pos, ParentesisIzq);
    if o4.Fail? then Fail(o4.error) else
    Ok((), o4.pos)
  }

  /** `)` and `;`, closing a call. */
  function CierreLlamada(ts: seq<Token>, p: nat): (r: Intento<()>)
    ensures Avanza(ts, p, r)
    ensures r.Ok? <==> Mira(ts, p, ParentesisDer) && Mira(ts, p + 1, PuntoComa)
  {
    var o1 := Uno(ts, p, ParentesisDer);
    if o1.Fail? then Fail(o1.error) else
    var o2 := Uno(ts, o1.pos, PuntoComa);
    if o2.Fail? then Fail(o2.error) else
    Ok((), o2.pos)
  }

  /** `parseImprimir`: the head, an expression, `)` and `;`. */
  function Imprimir(ts: seq<Token>, p: nat): (r: Intento<Stmt>)
    ensures Avanza(ts, p, r)
    ensures r.Ok? ==> r.value.Imprimir?
  {
    var o1 := CabeceraImprimir(ts, p);
    if o1.Fail? then Fail(o1.error) else
    var o2 := Expresion(ts, o1.pos);
    if o2.Fail? then Fail(o2.error) else
    var x, q1 := o2.value, o2.pos;
    var o3 := CierreLlamada(ts, q1);
    if o3.Fail? then Fail(o3.error) else
    Ok(Ast.Imprimir(x), o3.pos)
  }

  // ---------------------------------------------------------------- statement lists

  /** `parseListaInstrucciones`: statements until `}` or the end; any throw ends it. */
  function Lista(m: Lectura, ts: seq<Token>, p: nat): (r: Intento<seq<Stmt>>)
    requires p <= |ts|
    ensures r.Ok? ==> p <= r.pos <= |ts| && (r.pos == |ts| || ts[r.pos].tipo.LlaveDer?)
    ensures Culpa(ts, p, r)
    decreases |ts| - p, 2
  {
    if p < |ts| && !ts[p].tipo.LlaveDer? then
      var o1 := Instruccion(m, ts, p);
      if o1.Fail? then Fail(o1.error) else
      var s, q := o1.value, o1.pos;
      var o2 := Lista(m, ts, q);
      if o2.Fail? then Fail(o2.error) else
      var ss, q2 := o2.value, o2.pos;
      Ok([s] + ss, q2)
    else Ok([], p)
  }

  /**
   * `parseInstruction`: a type keyword declares; an identifier assigns when an `=` operator
   * follows it, and prints when it is spelled `Console` and a `.` follows; `if` and `for`
   * start their statements.  Anything else throws without recording an error.
   */
  function Instruccion(m: Lectura, ts: seq<Token>, p: nat): (r: Intento<Stmt>)
    requires p < |ts|
    ensures Avanza(ts, p, r)
    decreases |ts| - p, 1
  {
    var t := ts[p];
    if EsTipoDato(t.tipo) then Declaracion(ts, p)
    else if t.tipo.Identificador? then
      if MiraOp(ts, p + 1, Igual) then Asignacion(ts, p)
      else if t.valor == "Console" && Mira(ts, p + 1, Punto) then Imprimir(ts, p)
      else Fail(None)
    else if t.tipo.If? then Si(m, ts, p)
    else if t.tipo.For? then Para(m, ts, p)
    else Fail(None)
  }

  /** `{` statements `}`. */
  function Bloque(m: Lectura, ts: seq<Token>, p: nat): (r: Intento<seq<Stmt>>)
    requires p <= |ts|
    ensures Avanza(ts, p, r)
    decreases |ts| - p, 3
  {
    var o1 := Uno(ts, p, LlaveIzq);
    if o1.Fail? then Fail(o1.error) else
    var o2 := Lista(m, ts, o1.pos);
    if o2.Fail? then Fail(o2.error) else
    var ss, q1 := o2.value, o2.pos;
    var o3 := Uno(ts, q1, LlaveDer);
    if o3.Fail? then Fail(o3.error) else
    Ok(ss, o3.pos)
  }

  /** `if ( condition )`. */
  function CondicionSi(ts: seq<Token>, p: nat): (r: Intento<Expr>)
    ensures Avanza(ts, p, r)
  {
    var o1 := Uno(ts, p, If);
    if o1.Fail? then Fail(o1.error) else
    var o2 := Uno(ts, o1.pos, ParentesisIzq);
    if o2.Fail? then Fail(o2.error) else
    var o3 := Expresion(ts, o2.pos);
    if o3.Fail? then Fail(o3.error) else
    var c, q2 := o3.value, o3.pos;
    var o4 := Uno(ts, q2, ParentesisDer);
    if o4.Fail? then Fail(o4.error) else
    Ok(c, o4.pos)
  }

  /** `parseIf`: the condition, then its blocks. */
  function Si(m: Lectura, ts: seq<Token>, p: nat): (r: Intento<Stmt>)
    requires p < |ts| && ts[p].tipo.If?
    ensures Avanza(ts, p, r)
    ensures r.Ok? ==> r.value.Si?
    decreases |ts| - p, 0
  {
    var o1 := CondicionSi(ts, p);
    if o1.Fail? then Fail(o1.error) else
    BloquesSi(m, ts, o1.value, o1.pos)
  }

  /** The block of an `if` with condition `c`, and an `else` block when `else` follows it. */
  function BloquesSi(m: Lectura, ts: seq<Token>, c: Expr, q: nat): (r: Intento<Stmt>)
    requires q <= |ts|
    ensures Avanza(ts, q, r)
    ensures r.Ok? ==> r.value.Si? && r.value.condicion == c
    decreases |ts| - q, 4
  {
    var o2 := Bloque(m, ts, q);
    if o2.Fail? then Fail(o2.error) else
    var ss, q1 := o2.value, o2.pos;
    if Mira(ts, q1, Else) then
      var o3 := Bloque(m, ts, q1 + 1);
      if o3.Fail? then Fail(o3.error) else
      var otro, q2 := o3.value, o3.pos;
      Ok(Ast.Si(c, ss, ConSino(otro)), q2)
    else Ok(Ast.Si(c, ss, SinSino), q1)
  }

  /**
   * The first clause of `parseFor`: a declaration when the token is `int`, an assignment
   * otherwise; both consume their own `;`.  Past the end it throws without an error.
   */
  function InicioPara(ts: seq<Token>, p: nat): (r: Intento<Stmt>)
    ensures Avanza(ts, p, r)
    ensures r.Ok? ==> Mira(ts, r.pos - 1, PuntoComa)
  {
    if p >= |ts| then Fail(None)
    else if ts[p].tipo.IntType? then Declaracion(ts, p)
    else Asignacion(ts, p)
  }

  /** The third clause of `parseFor`: a name, then `++` or `--`; anything else throws. */
  function ActualizacionPara(ts: seq<Token>, p: nat): (r: Intento<(string, bool)>)
    ensures Avanza(ts, p, r)
  {
    var o1 := Uno(ts, p, Identificador);
    if o1.Fail? then Fail(o1.error) else
    var id, q := o1.value, o1.pos;
    if q >= |ts| then Fail(None)
    else if ts[q].valor == "++" || ts[q].valor == "--" then
      var o2 := Uno(ts, q, Operador);
      if o2.Fail? then Fail(o2.error) else
      Ok((id.valor, ts[q].valor == "++"), o2.pos)
    else Fail(None)
  }

  /**
   * The head of `parseFor`: `for (`, the three clauses separated by `;`, and `)`, the `;`
   * after the initialiser read as `m` says.
   */
  function CabeceraPara(m: Lectura, ts: seq<Token>, p: nat): (r: Intento<(Stmt, Expr, (string, bool))>)
    ensures Avanza(ts, p, r)
  {
    var o1 := Uno(ts, p, For);
    if o1.Fail? then Fail(o1.error) else
    var o2 := Uno(ts, o1.pos, ParentesisIzq);
    if o2.Fail? then Fail(o2.error) else
    RestoCabeceraLeida(m, ts, o2.pos)
  }

  /** The head after `for (`, in the reading `m`. */
  function RestoCabeceraLeida(m: Lectura, ts: seq<Token>, p: nat): (r: Intento<(Stmt, Expr, (string, bool))>)
    ensures Avanza(ts, p, r)
  {
    match m
    case ComoEscrita => RestoCabeceraParaComoEscrito(ts, p)
    case Corregida => RestoCabeceraPara(ts, p)
  }

  /**
   * The head of `parseFor` after `for (`, as written: the initialiser already consumed its
   * `;`, and a second `;` is expected before the condition, so a head parses only when the
   * initialiser's `;` has another `;` right after it.
   */
  function RestoCabeceraParaComoEscrito(ts: seq<Token>, p: nat): (r: Intento<(Stmt, Expr, (string, bool))>)
    ensures Avanza(ts, p, r)
  {
    var o1 := InicioPara(ts, p);
    if o1.Fail? then Fail(o1.error) else
    var o2 := Uno(ts, o1.pos, PuntoComa);
    if o2.Fail? then Fail(o2.error) else
    RestoCondicionPara(ts, o1.value, o2.pos)
  }

  /**
   * The head of `parseFor` after `for (`, as intended: the initialiser with its `;`, then
   * the condition.
   */
  function RestoCabeceraPara(ts: seq<Token>, p: nat): (r: Intento<(Stmt, Expr, (string, bool))>)
    ensures Avanza(ts, p, r)
  {
    var o1 := InicioPara(ts, p);
    if o1.Fail? then Fail(o1.error) else
    RestoCondicionPara(ts, o1.value, o1.pos)
  }

  /** The rest of the head of `parseFor` after the initialiser `i`: `condition ; update )`. */
  function RestoCondicionPara(ts: seq<Token>, i: Stmt, p: nat): (r: Intento<(Stmt, Expr, (string, bool))>)
    ensures Avanza(ts, p, r)
    ensures r.Ok? ==> r.value.0 == i
  {
    var o1 := Expresion(ts, p);
    if o1.Fail? then Fail(o1.error) else
    var o2 := Uno(ts, o1.pos, PuntoComa);
    if o2.Fail? then Fail(o2.error) else
    var o3 := ActualizacionPara(ts, o2.pos);
    if o3.Fail? then Fail(o3.error) else
    var o4 := Uno(ts, o3.pos, ParentesisDer);
    if o4.Fail? then Fail(o4.error) else
    Ok((i, o1.value, o3.value), o4.pos)
  }

  /** `parseFor`: the head and a block. */
  function Para(m: Lectura, ts: seq<Token>, p: nat): (r: Intento<Stmt>)
    requires p < |ts| && ts[p].tipo.For?
    ensures Avanza(ts, p, r)
    decreases |ts| - p, 0
  {
    var o1 := CabeceraPara(m, ts, p);
    if o1.Fail? then Fail(o1.error) else
    var h, q := o1.value, o1.pos;
    var o2 := Bloque(m, ts, q);
    if o2.Fail? then Fail(o2.error) else
    var ss, q1 := o2.value, o2.pos;
    Ok(Ast.Para(InicioInstruccion(h.0), h.1, h.2.0, h.2.1, ss), q1)
  }

  // ---------------------------------------------------------------- the program

  /** `parseBlockUsing`: `using System ;`, required. */
  function BlockUsing(ts: seq<Token>, p: nat): (r: Intento<()>)
    ensures Avanza(ts, p, r)
  {
    var o1 := Uno(ts, p, Using);
    if o1.Fail? then Fail(o1.error) else
    var o2 := Uno(ts, o1.pos, System);
    if o2.Fail? then Fail(o2.error) else
    var o3 := Uno(ts, o2.pos, PuntoComa);
    if o3.Fail? then Fail(o3.error) else
    Ok((), o3.pos)
  }

  /** `public class Name {`, giving the name. */
  function CabeceraClase(ts: seq<Token>, p: nat): (r: Intento<string>)
    ensures Avanza(ts, p, r)
  {
    var o1 := Uno(ts, p, Public);
    if o1.Fail? then Fail(o1.error) else
    var o2 := Uno(ts, o1.pos, Class);
    if o2.Fail? then Fail(o2.error) else
    var o3 := Uno(ts, o2.pos, Identificador);
    if o3.Fail? then Fail(o3.error) else
    var n, q2 := o3.value, o3.pos;
    var o4 := Uno(ts, q2, LlaveIzq);
    if o4.Fail? then Fail(o4.error) else
    Ok(n.valor, o4.pos)
  }

  /** `static void Main (`. */
  function FirmaMain(ts: seq<Token>, p: nat): (r: Intento<()>)
    ensures Avanza(ts, p, r)
  {
    var o1 := Uno(ts, p, Static);
    if o1.Fail? then Fail(o1.error) else
    var o2 := Uno(ts, o1.pos, Void);
    if o2.Fail? then Fail(o2.error) else
    var o3 := Uno(ts, o2.pos, MainKw);
    if o3.Fail? then Fail(o3.error) else
    var o4 := Uno(ts, o3.pos, ParentesisIzq);
    if o4.Fail? then Fail(o4.error) else
    Ok((), o4.pos)
  }

  /** `string [ ] args )`, giving the parameter's name, which is required. */
  function ParametroMain(ts: seq<Token>, p: nat): (r: Intento<string>)
    ensures Avanza(ts, p, r)
  {
    var o1 := Uno(ts, p, StringType);
    if o1.Fail? then Fail(o1.error) else
    var o2 := Uno(ts, o1.pos, CorcheteIzq);
    if o2.Fail? then Fail(o2.error) else
    var o3 := Uno(ts, o2.pos, CorcheteDer);
    if o3.Fail? then Fail(o3.error) else
    var o4 := Uno(ts, o3.pos, Identificador);
    if o4.Fail? then Fail(o4.error) else
    var a, q3 := o4.value, o4.pos;
    var o5 := Uno(ts, q3, ParentesisDer);
    if o5.Fail? then Fail(o5.error) else
    Ok(a.valor, o5.pos)
  }

  /** `parseBlockMain`: the signature, the parameter, and a block. */
  function BlockMain(m: Lectura, ts: seq<Token>, p: nat): (r: Intento<(string, seq<Stmt>)>)
    ensures Avanza(ts, p, r)
  {
    var o1 := FirmaMain(ts, p);
    if o1.Fail? then Fail(o1.error) else
    var o2 := ParametroMain(ts, o1.pos);
    if o2.Fail? then Fail(o2.error) else
    var a, q1 := o2.value, o2.pos;
    var o3 := Bloque(m, ts, q1);
    if o3.Fail? then Fail(o3.error) else
    var ss, q2 := o3.value, o3.pos;
    Ok((a, ss), q2)
  }

  /** `parseProgram`: the using block, the class header, `Main`, and the class's `}`. */
  function Programa(m: Lectura, ts: seq<Token>): (r: Intento<Ast.Programa>)
    ensures Avanza(ts, 0, r)
  {
    var o1 := BlockUsing(ts, 0);
    if o1.Fail? then Fail(o1.error) else
    var o2 := CabeceraClase(ts, o1.pos);
    if o2.Fail? then Fail(o2.error) else
    var n, q1 := o2.value, o2.pos;
    var o3 := BlockMain(m, ts, q1);
    if o3.Fail? then Fail(o3.error) else
    var m, q2 := o3.value, o3.pos;
    var o4 := Uno(ts, q2, LlaveDer);
    if o4.Fail? then Fail(o4.error) else
    Ok(Ast.Programa(n, m.0, m.1), o4.pos)
  }

  /**
   * `analizar`: the tree and no error, or no tree and the one error recorded before the
   * throw, if any.
   */
  function Analizar(m: Lectura, ts: seq<Token>): (r: (Option<Ast.Programa>, seq<Sintactico.SynError>))
    ensures r.0.Some? ==> r.1 == []
    ensures |r.1| <= 1
    ensures |r.1| == 1 ==> ErrorDesde(ts, 0, r.1[0])
  {
    match Programa(m, ts)
    case Ok(prog, _) => (Some(prog), [])
    case Fail(e) => (None, if e.Some? then [e.value] else [])
  }
}
