/** Properties of the unused variant of the AST-based parser. */
module SintacticoVarianteProps {
  import opened Common
  import opened Lexico
  import Ast
  import Sintactico
  import opened SintacticoVariante

  // ---------------------------------------------------------------- errors and the tree

  /** With no tokens at all the first `expect` throws at the end: no tree and no error. */
  lemma {:induction false} SinTokens(m: Lectura)
    ensures SintacticoVariante.Analizar(m, []) == (None, [])
  {
  }

  /** There is a tree exactly when the program parses, and then no error. */
  lemma {:induction false} ArbolSiParsea(m: Lectura, ts: seq<Token>)
    ensures SintacticoVariante.Analizar(m, ts).0.Some? <==> Programa(m, ts).Ok?
    ensures Programa(m, ts).Ok? ==> SintacticoVariante.Analizar(m, ts) == (Some(Programa(m, ts).value), [])
  {
  }

  /**
   * A token of the wrong kind is recorded as the one error, naming its line, column and
   * kind; past the end nothing is recorded.
   */
  lemma {:induction false} ExpectRegistraUno(ts: seq<Token>, p: nat, k: Kind)
    requires !Mira(ts, p, k)
    ensures p < |ts| ==> Uno(ts, p, k) == Fail(Some(Sintactico.SynError(ts[p].fila, ts[p].columna, Some(ts[p].tipo), Sintactico.Uno(k))))
    ensures p >= |ts| ==> Uno(ts, p, k) == Fail(None)
  {
  }

  /** A program cut short after `using System ;` ends with no tree and no error. */
  lemma {:induction false} CortadoSinError(m: Lectura, ts: seq<Token>)
    requires |ts| == 3 && ts[0].tipo.Using? && ts[1].tipo.System? && ts[2].tipo.PuntoComa?
    ensures SintacticoVariante.Analizar(m, ts) == (None, [])
  {
    assert BlockUsing(ts, 0) == Ok((), 3);
    assert CabeceraClase(ts, 3) == Fail(None);
  }

  /** A program that does not start with `using` ends with that token as the one error. */
  lemma {:induction false} SinUsing(m: Lectura, ts: seq<Token>)
    requires |ts| > 0 && !ts[0].tipo.Using?
    ensures SintacticoVariante.Analizar(m, ts) == (None, [Sintactico.SynError(ts[0].fila, ts[0].columna, Some(ts[0].tipo), Sintactico.Uno(Using))])
  {
    assert BlockUsing(ts, 0).Fail?;
  }

  // ---------------------------------------------------------------- statements

  /** No filter runs first: a comment where a statement should start ends the analysis. */
  lemma {:induction false} ComentarioDetiene(m: Lectura, ts: seq<Token>, p: nat)
    requires p < |ts| && (ts[p].tipo.ComentarioLinea? || ts[p].tipo.ComentarioBloque?)
    ensures Instruccion(m, ts, p) == Fail(None)
    ensures Lista(m, ts, p) == Fail(None)
  {
  }

  /** An identifier followed by an `=` operator starts an assignment. */
  lemma {:induction false} IdentificadorAsigna(m: Lectura, ts: seq<Token>, p: nat)
    requires p < |ts| && ts[p].tipo.Identificador? && MiraOp(ts, p + 1, Ast.Igual)
    ensures Instruccion(m, ts, p) == Asignacion(ts, p)
  {
  }

  /** An identifier spelled `Console` followed by `.` (and no `=`) starts a print. */
  lemma {:induction false} IdentificadorImprime(m: Lectura, ts: seq<Token>, p: nat)
    requires p < |ts| && ts[p].tipo.Identificador? && ts[p].valor == "Console" && Mira(ts, p + 1, Punto)
    ensures Instruccion(m, ts, p) == Imprimir(ts, p)
  {
  }

  /** Any other identifier-led statement throws without recording an error. */
  lemma {:induction false} IdentificadorRechazado(m: Lectura, ts: seq<Token>, p: nat)
    requires p < |ts| && ts[p].tipo.Identificador? && !MiraOp(ts, p + 1, Ast.Igual)
    requires ts[p].valor != "Console" || !Mira(ts, p + 1, Punto)
    ensures Instruccion(m, ts, p) == Fail(None)
  {
  }

  /**
   * `Console` scanned as its own keyword kind, as the AST pipeline's scanner does, starts no
   * statement: the print is only recognised as an identifier spelled `Console`.
   */
  lemma {:induction false} ConsolePalabraReservada(m: Lectura, ts: seq<Token>, p: nat)
    requires p < |ts| && ts[p].tipo.Console?
    ensures Instruccion(m, ts, p) == Fail(None)
    ensures Lista(m, ts, p) == Fail(None)
  {
  }

  /** `T x ;` declares `x` with no value. */
  lemma {:induction false} DeclaraSinValor(m: Lectura, ts: seq<Token>, p: nat)
    requires p + 2 < |ts| && Ast.EsTipoDato(ts[p].tipo) && ts[p + 1].tipo.Identificador? && ts[p + 2].tipo.PuntoComa?
    ensures Instruccion(m, ts, p) == Ok(Ast.Declaracion(ts[p].tipo, [Ast.VarDecl(ts[p + 1].valor, None)]), p + 3)
  {
    assert !MiraOp(ts, p + 2, Ast.Igual);
    assert IdAsig(ts, p + 1) == Ok(Ast.VarDecl(ts[p + 1].valor, None), p + 2);
    assert RestoListaId(ts, p + 2) == Ok([], p + 2);
    assert [Ast.VarDecl(ts[p + 1].valor, None)] + [] == [Ast.VarDecl(ts[p + 1].valor, None)];
    assert ListaId(ts, p + 1) == Ok([Ast.VarDecl(ts[p + 1].valor, None)], p + 2);
  }

  /** `parseIf` is its condition followed by its blocks. */
  lemma {:induction false} SiPaso(m: Lectura, ts: seq<Token>, p: nat)
    requires p < |ts| && ts[p].tipo.If? && CondicionSi(ts, p).Ok?
    ensures Si(m, ts, p) == BloquesSi(m, ts, CondicionSi(ts, p).value, CondicionSi(ts, p).pos)
  {
  }

  /** `if (c) { ... }` with no `else` after it has no `else` block. */
  lemma {:induction false} SiSinElse(m: Lectura, ts: seq<Token>, p: nat)
    requires p < |ts| && ts[p].tipo.If?
    requires CondicionSi(ts, p).Ok? && Bloque(m, ts, CondicionSi(ts, p).pos).Ok?
    requires !Mira(ts, Bloque(m, ts, CondicionSi(ts, p).pos).pos, Else)
    ensures Si(m, ts, p).Ok? && Si(m, ts, p).value.sino == Ast.SinSino
    ensures Si(m, ts, p).value.condicion == CondicionSi(ts, p).value
  {
  }

  /**
   * After the first block of an `if`, an `else` must be followed by a whole block of its
   * own; the `if` then has that block as its `else` part.
   */
  lemma {:induction false} SiConElse(m: Lectura, ts: seq<Token>, c: Ast.Expr, q: nat)
    requires q <= |ts| && Bloque(m, ts, q).Ok? && Mira(ts, Bloque(m, ts, q).pos, Else)
    ensures BloquesSi(m, ts, c, q).Ok? <==> Bloque(m, ts, Bloque(m, ts, q).pos + 1).Ok?
    ensures BloquesSi(m, ts, c, q).Ok? ==>
      BloquesSi(m, ts, c, q).value.sino == Ast.ConSino(Bloque(m, ts, Bloque(m, ts, q).pos + 1).value)
  {
  }

  // ---------------------------------------------------------------- expressions

  /** A parsed expression has at most one comparison, at its top, over two sums. */
  lemma {:induction false} UnaComparacion(ts: seq<Token>, p: nat)
    requires Expresion(ts, p).Ok?
    ensures Ast.ExprBienFormada(Expresion(ts, p).value)
    ensures Expresion(ts, p).value.ExpRelacional? ==> !Expresion(ts, p).value.izq.ExpRelacional?
  {
    var e := Expresion(ts, p).value;
    if !e.ExpRelacional? {
      AritmeticoBienFormado(e);
    } else {
      AritmeticoBienFormado(e.izq);
    }
  }

  /** A sum is well formed. */
  lemma {:induction false} AritmeticoBienFormado(e: Ast.Expr)
    requires Ast.Aritmetico(e)
    ensures Ast.ExprBienFormada(e)
  {
  }

  /** A number keeps its lexeme, and is decimal exactly when it was scanned as `DECIMAL`. */
  lemma {:induction false} NumeroConservado(ts: seq<Token>, p: nat)
    requires p < |ts| && (ts[p].tipo.Entero? || ts[p].tipo.Decimal?)
    ensures Factor(ts, p) == Ok(Ast.ExpNumero(ts[p].valor, ts[p].tipo.Decimal?), p + 1)
  {
  }

  /** Anything that is not a literal, an identifier or `(` throws without recording an error. */
  lemma {:induction false} FactorDesconocido(ts: seq<Token>, p: nat)
    requires p < |ts| && Sintactico.Atomo(ts[p]).None? && !ts[p].tipo.ParentesisIzq?
    ensures Factor(ts, p) == Fail(None)
  {
  }

  // ---------------------------------------------------------------- the for header

  /**
   * As written, a `for` whose initialiser is not followed by a second `;` is rejected at the
   * token after the initialiser.
   */
  lemma {:induction false} ParaComoEscritoRechaza(ts: seq<Token>, p: nat)
    requires InicioPara(ts, p).Ok?
    requires var q := InicioPara(ts, p).pos; q < |ts| && !ts[q].tipo.PuntoComa?
    ensures var q := InicioPara(ts, p).pos;
      RestoCabeceraParaComoEscrito(ts, p)
      == Fail(Some(Sintactico.SynError(ts[q].fila, ts[q].columna, Some(ts[q].tipo), Sintactico.Uno(PuntoComa))))
  {
  }

  /**
   * As written, a head parses only when the initialiser's own `;` has a second `;` right
   * after it.
   */
  lemma DosPuntoComa(ts: seq<Token>, p: nat)
    requires RestoCabeceraParaComoEscrito(ts, p).Ok?
    ensures InicioPara(ts, p).Ok?
    ensures Mira(ts, InicioPara(ts, p).pos - 1, PuntoComa) && Mira(ts, InicioPara(ts, p).pos, PuntoComa)
  {
  }

  /** As intended, the condition comes straight after the initialiser and its `;`. */
  lemma {:induction false} ParaCorregidoAcepta(ts: seq<Token>, p: nat)
    requires InicioPara(ts, p).Ok?
    ensures RestoCabeceraPara(ts, p) == RestoCondicionPara(ts, InicioPara(ts, p).value, InicioPara(ts, p).pos)
  {
  }

  /** No operator of any class the expression levels look for at `p`. */
  predicate SinOperador(ts: seq<Token>, p: nat) {
    !MiraOp(ts, p, Ast.Multiplicativo) && !MiraOp(ts, p, Ast.Aditivo) && !MiraOp(ts, p, Ast.Relacional)
  }

  /** A lone literal or identifier is a whole expression. */
  lemma {:induction false} AtomoSolo(ts: seq<Token>, p: nat)
    requires p < |ts| && Sintactico.Atomo(ts[p]).Some? && SinOperador(ts, p + 1)
    ensures Expresion(ts, p) == Ok(Sintactico.Atomo(ts[p]).value, p + 1)
  {
    assert Aritmetica(ts, p) == Ok(Sintactico.Atomo(ts[p]).value, p + 1) by {
      assert Termino(ts, p) == Ok(Sintactico.Atomo(ts[p]).value, p + 1);
    }
  }

  /** Two lone atoms around a comparison operator are one comparison. */
  lemma {:induction false} ComparacionSimple(ts: seq<Token>, p: nat)
    requires p + 2 < |ts| && Sintactico.Atomo(ts[p]).Some? && Sintactico.Atomo(ts[p + 2]).Some?
    requires MiraOp(ts, p + 1, Ast.Relacional) && !MiraOp(ts, p + 1, Ast.Multiplicativo) && !MiraOp(ts, p + 1, Ast.Aditivo)
    requires !MiraOp(ts, p + 3, Ast.Multiplicativo) && !MiraOp(ts, p + 3, Ast.Aditivo)
    ensures Expresion(ts, p)
      == Ok(Ast.ExpRelacional(Sintactico.Atomo(ts[p]).value, ts[p + 1].valor, Sintactico.Atomo(ts[p + 2]).value), p + 3)
  {
    assert Aritmetica(ts, p) == Ok(Sintactico.Atomo(ts[p]).value, p + 1) by {
      assert Termino(ts, p) == Ok(Sintactico.Atomo(ts[p]).value, p + 1);
    }
    assert Aritmetica(ts, p + 2) == Ok(Sintactico.Atomo(ts[p + 2]).value, p + 3) by {
      assert Termino(ts, p + 2) == Ok(Sintactico.Atomo(ts[p + 2]).value, p + 3);
    }
  }

  /** The shape of `int i = 0; i < 3; i++)` from `p`: the kinds, and the operator texts. */
  predicate Estandar(ts: seq<Token>, p: nat) {
    && p + 12 <= |ts|
    && ts[p].tipo.IntType? && ts[p + 1].tipo.Identificador? && ts[p + 2].tipo.Operador? && ts[p + 2].valor == "="
    && ts[p + 3].tipo.Entero? && ts[p + 4].tipo.PuntoComa? && ts[p + 5].tipo.Identificador?
    && ts[p + 6].tipo.Operador? && ts[p + 6].valor == "<" && ts[p + 7].tipo.Entero? && ts[p + 8].tipo.PuntoComa?
    && ts[p + 9].tipo.Identificador? && ts[p + 10].tipo.Operador? && ts[p + 10].valor == "++"
    && ts[p + 11].tipo.ParentesisDer?
  }

  /** The initialiser `int i = 0` of the usual header. */
  function InicioEstandarEn(ts: seq<Token>, p: nat): Ast.Stmt
    requires Estandar(ts, p)
  {
    Ast.Declaracion(IntType, [Ast.VarDecl(ts[p + 1].valor, Some(Ast.ExpNumero(ts[p + 3].valor, false)))])
  }

  /** The initialiser `int i = 0;` is one declaration with its value, and takes its `;`. */
  lemma {:induction false} InicioEstandar(ts: seq<Token>, p: nat)
    requires Estandar(ts, p)
    ensures InicioPara(ts, p) == Ok(InicioEstandarEn(ts, p), p + 5)
  {
    var v := Ast.VarDecl(ts[p + 1].valor, Some(Ast.ExpNumero(ts[p + 3].valor, false)));
    AtomoSolo(ts, p + 3);
    assert IdAsig(ts, p + 1) == Ok(v, p + 4);
    assert RestoListaId(ts, p + 4) == Ok([], p + 4);
    assert [v] + [] == [v];
    assert ListaId(ts, p + 1) == Ok([v], p + 4);
  }

  /** The condition `i < 3` of the usual header. */
  function CondicionEstandarEn(ts: seq<Token>, p: nat): Ast.Expr
    requires Estandar(ts, p)
  {
    Ast.ExpRelacional(Ast.ExpIdentificador(ts[p + 5].valor), "<", Ast.ExpNumero(ts[p + 7].valor, false))
  }

  /** The rest `i < 3; i++)` of the usual header: that condition, counting `i` upwards. */
  lemma {:induction false} CondicionEstandar(ts: seq<Token>, p: nat, i: Ast.Stmt)
    requires Estandar(ts, p)
    ensures RestoCondicionPara(ts, i, p + 5) == Ok((i, CondicionEstandarEn(ts, p), (ts[p + 9].valor, true)), p + 12)
  {
    ComparacionSimple(ts, p + 5);
    assert ActualizacionPara(ts, p + 9) == Ok((ts[p + 9].valor, true), p + 11);
  }

  /**
   * The usual `for` header: as written it is rejected at the identifier that starts the
   * condition, where a `;` is expected; as intended it parses, counting upwards.
   */
  lemma {:induction false} EstandarRechazada(ts: seq<Token>, p: nat)
    requires Estandar(ts, p)
    ensures RestoCabeceraParaComoEscrito(ts, p)
      == Fail(Some(Sintactico.SynError(ts[p + 5].fila, ts[p + 5].columna, Some(Identificador), Sintactico.Uno(PuntoComa))))
    ensures RestoCabeceraPara(ts, p)
      == Ok((InicioEstandarEn(ts, p), CondicionEstandarEn(ts, p), (ts[p + 9].valor, true)), p + 12)
  {
    InicioEstandar(ts, p);
    ParaComoEscritoRechaza(ts, p);
    ParaCorregidoAcepta(ts, p);
    CondicionEstandar(ts, p, InicioEstandarEn(ts, p));
  }

  /** Hand-listed tokens for `int i = 0; i < 3; i++)` on line 1, one column per token. */
  function CabeceraEstandar(): (ts: seq<Token>)
    ensures Estandar(ts, 0)
  {
    [ Token(IntType, "int", 1, 0), Token(Identificador, "i", 1, 1), Token(Operador, "=", 1, 2),
      Token(Entero, "0", 1, 3), Token(PuntoComa, ";", 1, 4), Token(Identificador, "i", 1, 5),
      Token(Operador, "<", 1, 6), Token(Entero, "3", 1, 7), Token(PuntoComa, ";", 1, 8),
      Token(Identificador, "i", 1, 9), Token(Operador, "++", 1, 10), Token(ParentesisDer, ")", 1, 11) ]
  }

  /** On the concrete tokens: rejected at line 1, column 5, where `i` stands. */
  lemma {:induction false} CabeceraEstandarRechazada()
    ensures RestoCabeceraParaComoEscrito(CabeceraEstandar(), 0)
      == Fail(Some(Sintactico.SynError(1, 5, Some(Identificador), Sintactico.Uno(PuntoComa))))
    ensures RestoCabeceraPara(CabeceraEstandar(), 0).Ok?
  {
    EstandarRechazada(CabeceraEstandar(), 0);
  }

  // ---------------------------------------------------------------- a whole program with a for

  /**
   * The shape of `using System; public class P { static void Main(string[] a) { for (int i
   * = 0; i < 3; i++) { } } }`: the `for` starts at 17, its header's initialiser at 19.
   */
  predicate ProgramaPara(ts: seq<Token>) {
    |ts| == 35 && PrefijoPara(ts) && Estandar(ts, 19) && CierrePara(ts)
  }

  /** `using System; public class P { static void Main(string[] a) { for (`. */
  predicate PrefijoPara(ts: seq<Token>) {
    && |ts| >= 19
    && ts[0].tipo.Using? && ts[1].tipo.System? && ts[2].tipo.PuntoComa?
    && ts[3].tipo.Public? && ts[4].tipo.Class? && ts[5].tipo.Identificador? && ts[6].tipo.LlaveIzq?
    && ts[7].tipo.Static? && ts[8].tipo.Void? && ts[9].tipo.MainKw? && ts[10].tipo.ParentesisIzq?
    && ts[11].tipo.StringType? && ts[12].tipo.CorcheteIzq? && ts[13].tipo.CorcheteDer?
    && ts[14].tipo.Identificador? && ts[15].tipo.ParentesisDer? && ts[16].tipo.LlaveIzq?
    && ts[17].tipo.For? && ts[18].tipo.ParentesisIzq?
  }

  /** `{ } } }` after the header: the empty body of the `for`, then `Main` and the class close. */
  predicate CierrePara(ts: seq<Token>) {
    && |ts| == 35
    && ts[31].tipo.LlaveIzq? && ts[32].tipo.LlaveDer? && ts[33].tipo.LlaveDer? && ts[34].tipo.LlaveDer?
  }

  /** Everything before the body of `Main`: `using`, the class header and the signature. */
  lemma {:induction false} ProgramaParaPrefijo(ts: seq<Token>)
    requires ProgramaPara(ts)
    ensures BlockUsing(ts, 0) == Ok((), 3)
    ensures CabeceraClase(ts, 3) == Ok(ts[5].valor, 7)
    ensures FirmaMain(ts, 7) == Ok((), 11)
    ensures ParametroMain(ts, 11) == Ok(ts[14].valor, 16)
  {
  }

  /** The head of the `for` at 17, in either reading. */
  lemma {:induction false} ProgramaParaCabecera(m: Lectura, ts: seq<Token>)
    requires ProgramaPara(ts)
    ensures CabeceraPara(m, ts, 17) == (match m
      case ComoEscrita => RestoCabeceraParaComoEscrito(ts, 19)
      case Corregida => RestoCabeceraPara(ts, 19))
  {
    assert Uno(ts, 17, For) == Ok(ts[17], 18);
    assert Uno(ts, 18, ParentesisIzq) == Ok(ts[18], 19);
  }

  /**
   * The whole program, as the code is written: the one error is the `i` that starts the
   * condition, where a second `;` is expected, and there is no tree.
   */
  lemma {:induction false} ProgramaParaComoEscrito(ts: seq<Token>)
    requires ProgramaPara(ts)
    ensures SintacticoVariante.Analizar(ComoEscrita, ts)
      == (None, [Sintactico.SynError(ts[24].fila, ts[24].columna, Some(Identificador), Sintactico.Uno(PuntoComa))])
  {
    var e := Sintactico.SynError(ts[24].fila, ts[24].columna, Some(Identificador), Sintactico.Uno(PuntoComa));
    ProgramaParaPrefijo(ts);
    ProgramaParaCabecera(ComoEscrita, ts);
    EstandarRechazada(ts, 19);
    assert Para(ComoEscrita, ts, 17) == Fail(Some(e));
    assert Instruccion(ComoEscrita, ts, 17) == Fail(Some(e));
    assert Lista(ComoEscrita, ts, 17) == Fail(Some(e));
    assert Bloque(ComoEscrita, ts, 16) == Fail(Some(e));
    assert BlockMain(ComoEscrita, ts, 7) == Fail(Some(e));
    assert Programa(ComoEscrita, ts) == Fail(Some(e));
  }

  /** The `for` of the program as intended, with an empty body. */
  function ParaDelPrograma(ts: seq<Token>): Ast.Stmt
    requires ProgramaPara(ts)
  {
    Ast.Para(Ast.InicioInstruccion(InicioEstandarEn(ts, 19)), CondicionEstandarEn(ts, 19), ts[28].valor, true, [])
  }

  /** The tree of the program as intended: `Main` holds the one `for`. */
  function ArbolPara(ts: seq<Token>): Ast.Programa
    requires ProgramaPara(ts)
  {
    Ast.Programa(ts[5].valor, ts[14].valor, [ParaDelPrograma(ts)])
  }

  /** As intended, the `for` statement at 17 runs up to the `}` that closes `Main`. */
  lemma {:induction false} ParaDelProgramaCorregido(ts: seq<Token>)
    requires ProgramaPara(ts)
    ensures Para(Corregida, ts, 17) == Ok(ParaDelPrograma(ts), 33)
  {
    var h := (InicioEstandarEn(ts, 19), CondicionEstandarEn(ts, 19), (ts[28].valor, true));
    CabeceraDelProgramaCorregida(ts);
    CuerpoVacio(Corregida, ts, 31);
    ParaPaso(Corregida, ts, 17, h, 31, [], 33);
  }

  /** As intended, the head of the `for` at 17 runs to its `)` at 30. */
  lemma {:induction false} CabeceraDelProgramaCorregida(ts: seq<Token>)
    requires ProgramaPara(ts)
    ensures CabeceraPara(Corregida, ts, 17)
      == Ok((InicioEstandarEn(ts, 19), CondicionEstandarEn(ts, 19), (ts[28].valor, true)), 31)
  {
    ProgramaParaCabecera(Corregida, ts);
    EstandarRechazada(ts, 19);
  }

  /** `parseFor` is its head followed by its block. */
  lemma {:induction false} ParaPaso(m: Lectura, ts: seq<Token>, p: nat, h: (Ast.Stmt, Ast.Expr, (string, bool)), q: nat, ss: seq<Ast.Stmt>, q1: nat)
    requires p < |ts| && ts[p].tipo.For?
    requires CabeceraPara(m, ts, p) == Ok(h, q) && Bloque(m, ts, q) == Ok(ss, q1)
    ensures Para(m, ts, p) == Ok(Ast.Para(Ast.InicioInstruccion(h.0), h.1, h.2.0, h.2.1, ss), q1)
  {
  }

  /** `{ }` is an empty block. */
  lemma {:induction false} CuerpoVacio(m: Lectura, ts: seq<Token>, p: nat)
    requires p + 1 < |ts| && ts[p].tipo.LlaveIzq? && ts[p + 1].tipo.LlaveDer?
    ensures Bloque(m, ts, p) == Ok([], p + 2)
  {
    assert Lista(m, ts, p + 1) == Ok([], p + 1);
  }

  /** The whole program, as intended: the tree with the `for` in `Main`, and no error. */
  lemma {:induction false} ProgramaParaCorregido(ts: seq<Token>)
    requires ProgramaPara(ts)
    ensures SintacticoVariante.Analizar(Corregida, ts) == (Some(ArbolPara(ts)), [])
  {
    var para := ParaDelPrograma(ts);
    ProgramaParaPrefijo(ts);
    ParaDelProgramaCorregido(ts);
    assert Instruccion(Corregida, ts, 17) == Ok(para, 33);
    assert Lista(Corregida, ts, 33) == Ok([], 33);
    assert [para] + [] == [para];
    assert Lista(Corregida, ts, 17) == Ok([para], 33);
    assert Bloque(Corregida, ts, 16) == Ok([para], 34);
    assert BlockMain(Corregida, ts, 7) == Ok((ts[14].valor, [para]), 34);
  }

  /**
   * Hand-listed tokens for `using System; public class P { static void Main(string[] a) { for
   * (int i = 0; i < 3; i++) { } } }`, with the line and columns the scanner gives them (line
   * 1, the column where each starts).
   */
  function ProgramaParaTokens(): (ts: seq<Token>)
    ensures |ts| == 35
  {
    seq(35, k => TokenDelPrograma(k))
  }

  /** Those tokens have the shape of the program. */
  lemma {:induction false} FormaDelPrograma()
    ensures ProgramaPara(ProgramaParaTokens())
  {
    PrefijoDelPrograma();
    CabeceraDelPrograma();
    CierreDelPrograma();
  }

  lemma {:induction false} PrefijoDelPrograma()
    ensures PrefijoPara(ProgramaParaTokens())
  {
  }

  lemma {:induction false} CabeceraDelPrograma()
    ensures Estandar(ProgramaParaTokens(), 19)
  {
  }

  lemma {:induction false} CierreDelPrograma()
    ensures CierrePara(ProgramaParaTokens())
  {
  }

  /** The `k`-th of those tokens. */
  function TokenDelPrograma(k: int): Token {
    if k < 19 then TokenDelPrefijo(k)
    else if k < 31 then TokenDeLaCabecera(k - 19)
    else TokenDelCierre(k - 31)
  }

  /** The tokens up to `for (`. */
  function TokenDelPrefijo(k: int): Token {
    match k
    case 0 => Token(Using, "using", 1, 1)
    case 1 => Token(System, "System", 1, 7)
    case 2 => Token(PuntoComa, ";", 1, 13)
    case 3 => Token(Public, "public", 1, 15)
    case 4 => Token(Class, "class", 1, 22)
    case 5 => Token(Identificador, "P", 1, 28)
    case 6 => Token(LlaveIzq, "{", 1, 30)
    case 7 => Token(Static, "static", 1, 32)
    case 8 => Token(Void, "void", 1, 39)
    case 9 => Token(MainKw, "Main", 1, 44)
    case 10 => Token(ParentesisIzq, "(", 1, 48)
    case 11 => Token(StringType, "string", 1, 49)
    case 12 => Token(CorcheteIzq, "[", 1, 55)
    case 13 => Token(CorcheteDer, "]", 1, 56)
    case 14 => Token(Identificador, "a", 1, 58)
    case 15 => Token(ParentesisDer, ")", 1, 59)
    case 16 => Token(LlaveIzq, "{", 1, 61)
    case 17 => Token(For, "for", 1, 63)
    case _ => Token(ParentesisIzq, "(", 1, 67)
  }

  /** The tokens of the header after `for (`. */
  function TokenDeLaCabecera(k: int): Token {
    match k
    case 0 => Token(IntType, "int", 1, 68)
    case 1 => Token(Identificador, "i", 1, 72)
    case 2 => Token(Operador, "=", 1, 74)
    case 3 => Token(Entero, "0", 1, 76)
    case 4 => Token(PuntoComa, ";", 1, 77)
    case 5 => Token(Identificador, "i", 1, 79)
    case 6 => Token(Operador, "<", 1, 81)
    case 7 => Token(Entero, "3", 1, 83)
    case 8 => Token(PuntoComa, ";", 1, 84)
    case 9 => Token(Identificador, "i", 1, 86)
    case 10 => Token(Operador, "++", 1, 87)
    case _ => Token(ParentesisDer, ")", 1, 89)
  }

  /** The tokens after the header. */
  function TokenDelCierre(k: int): Token {
    match k
    case 0 => Token(LlaveIzq, "{", 1, 91)
    case 1 => Token(LlaveDer, "}", 1, 93)
    case 2 => Token(LlaveDer, "}", 1, 95)
    case _ => Token(LlaveDer, "}", 1, 97)
  }

  /**
   * On those tokens, `analizar` as written gives no tree and the one error at line 1,
   * column 79, the `i` of `i < 3`; the corrected reading gives the tree.
   */
  lemma {:induction false} ProgramaParaRechazado()
    ensures SintacticoVariante.Analizar(ComoEscrita, ProgramaParaTokens())
      == (None, [Sintactico.SynError(1, 79, Some(Identificador), Sintactico.Uno(PuntoComa))])
    ensures SintacticoVariante.Analizar(Corregida, ProgramaParaTokens()).0.Some?
  {
    FormaDelPrograma();
    ProgramaParaComoEscrito(ProgramaParaTokens());
    ProgramaParaCorregido(ProgramaParaTokens());
  }
}
