/** Properties of the tree-to-TypeScript emitter. */
module TranspiladorProps {
  import opened Common
  import opened Lexico
  import opened Ast
  import opened Transpilador

  // ---------------------------------------------------------------- expressions

  /**
   * An expression prints as its leaves and operators, left to right, separated by single
   * spaces: no parentheses are added and the operator text is copied as it is.
   */
  lemma {:induction false} ExpresionEsInorden(e: Expr)
    ensures Expresion(e) == Join(Inorden(e), " ")
  {
    if e.ExpRelacional? || e.ExpAritmetica? {
      ExpresionEsInorden(e.izq);
      ExpresionEsInorden(e.der);
      JoinConcat(Inorden(e.izq), [e.op], " ");
      JoinConcat(Inorden(e.izq) + [e.op], Inorden(e.der), " ");
    }
  }

  /**
   * Grouping is lost: `(a o1 b) o2 c` and `a o1 (b o2 c)` print the same text, so the
   * emitted `a + b * c` of a source `(a + b) * c` means something else in TypeScript.
   */
  lemma {:induction false} PrecedenciaPerdida(a: Expr, b: Expr, c: Expr, o1: string, o2: string)
    ensures Expresion(ExpAritmetica(ExpAritmetica(a, o1, b), o2, c)) == Expresion(ExpAritmetica(a, o1, ExpAritmetica(b, o2, c)))
    ensures ExpAritmetica(ExpAritmetica(a, o1, b), o2, c) != ExpAritmetica(a, o1, ExpAritmetica(b, o2, c))
  {
    var x, y, z := Expresion(a), Expresion(b), Expresion(c);
    assert (x + " " + o1 + " " + y) + " " + o2 + " " + z == x + " " + o1 + " " + (y + " " + o2 + " " + z);
  }

  // ---------------------------------------------------------------- declarations

  /** `int a = 10, b = 5;` becomes `let a: number = 10, b: number = 5;`. */
  lemma DeclaracionDosVariables()
    ensures DeclaracionTs(IntType, [VarDecl("a", Some(ExpNumero("10", false))), VarDecl("b", Some(ExpNumero("5", false)))])
      == "let " + "a: number = 10" + ", " + "b: number = 5" + ";"
  {
    var vs := [VarDecl("a", Some(ExpNumero("10", false))), VarDecl("b", Some(ExpNumero("5", false)))];
    var a, b := VariableTs("number", vs[0]), VariableTs("number", vs[1]);
    assert a == "a: number = 10";
    assert b == "b: number = 5";
    var r := VariablesTs("number", vs);
    assert r[0] == a && r[1] == b;
    assert r == [a, b];
    assert [a, b][1..] == [b];
  }

  /** A variable without an initialiser gets no value in the output, whatever its type. */
  lemma {:induction false} DeclaracionSinValor(t: Kind, x: string)
    ensures DeclaracionTs(t, [VarDecl(x, None)]) == "let " + x + ": " + TipoTs(t) + ";"
  {
    var r := VariablesTs(TipoTs(t), [VarDecl(x, None)]);
    assert r[0] == x + ": " + TipoTs(t) + "";
    assert x + ": " + TipoTs(t) + "" == x + ": " + TipoTs(t);
    assert r == [x + ": " + TipoTs(t)];
  }

  // ---------------------------------------------------------------- statement lists

  /** The output of a list is the outputs of its parts, in order. */
  lemma {:induction false} ListaConcat(c: Copia, a: seq<Stmt>, b: seq<Stmt>, sangria: string)
    ensures Lista(c, a + b, sangria) == Lista(c, a, sangria) + Lista(c, b, sangria)
    decreases |a|
  {
    if |a| == 0 {
      assert a + b == b;
    } else {
      assert (a + b)[0] == a[0];
      assert (a + b)[1..] == a[1..] + b;
      ListaConcat(c, a[1..], b, sangria);
    }
  }

  /** A one-statement list is the prefix and the statement's text. */
  lemma {:induction false} ListaUno(c: Copia, x: Stmt, sangria: string)
    ensures Lista(c, [x], sangria) == sangria + Instruccion(c, x)
  {
    assert [x][0] == x && [x][1..] == [];
    assert Lista(c, [], sangria) == "";
  }

  /**
   * Only the first line of a nested statement is indented: the body statement's own text is
   * put in unchanged after the four spaces, so its later lines (a nested `}`) start the line.
   */
  lemma {:induction false} SangriaSoloPrimeraLinea(c: Copia, k: Expr, x: Stmt)
    ensures Lista(c, [Si(k, [x], SinSino)], "") == "if (" + Expresion(k) + ") {\n" + (Sangria + Instruccion(c, x)) + "}" + "\n"
  {
    ListaUno(c, x, Sangria);
    ListaUno(c, Si(k, [x], SinSino), "");
    assert SinoTs(c, SinSino) == "";
  }

  // ---------------------------------------------------------------- line count

  /** Lines by statement shape: one per simple statement, a header and a closing line per block. */
  function Lineas(s: Stmt): nat
    decreases s
  {
    match s
    case Si(_, ss, o) => 2 + LineasLista(ss) + LineasSino(o)
    case Para(_, _, _, _, ss) => 2 + LineasLista(ss)
    case _ => 1
  }

  function LineasSino(o: Sino): nat
    decreases o
  {
    match o
    case SinSino => 0
    case ConSino(ss) => 1 + LineasLista(ss)
  }

  function LineasLista(ss: seq<Stmt>): nat
    decreases ss
  {
    if |ss| == 0 then 0 else Lineas(ss[0]) + LineasLista(ss[1..])
  }

  /** No name, expression or initialiser of the statement contains a line break. */
  predicate UnaLinea(c: Copia, s: Stmt)
    decreases s
  {
    match s
    case Declaracion(t, vs) => '\n' !in DeclaracionTs(t, vs)
    case Asignacion(id, e) => '\n' !in id && '\n' !in Expresion(e)
    case Imprimir(e) => '\n' !in Expresion(e)
    case Si(k, ss, o) => '\n' !in Expresion(k) && UnaLineaLista(c, ss) && UnaLineaSino(c, o)
    case Para(ini, k, v, _, ss) =>
      '\n' !in InicioTs(c, ini) && '\n' !in Expresion(k) && '\n' !in v && UnaLineaLista(c, ss)
  }

  predicate UnaLineaSino(c: Copia, o: Sino)
    decreases o
  {
    match o
    case SinSino => true
    case ConSino(ss) => UnaLineaLista(c, ss)
  }

  predicate UnaLineaLista(c: Copia, ss: seq<Stmt>)
    decreases ss
  {
    forall i :: 0 <= i < |ss| ==> UnaLinea(c, ss[i])
  }

  /**
   * Each statement ends in exactly one line break and each block adds one for its header
   * (and its `else`): the output has exactly as many line breaks as `Lineas` counts.
   */
  lemma {:induction false} LineasEspec(c: Copia, s: Stmt)
    requires UnaLinea(c, s)
    ensures Count(Instruccion(c, s), '\n') == Lineas(s)
    decreases s, 1
  {
    match s
    case Declaracion(t, vs) =>
      CabeceraUnaLinea(DeclaracionTs(t, vs), "\n");
    case Asignacion(id, e) =>
      Sin3(id, " = ", Expresion(e));
      CabeceraUnaLinea(id + " = " + Expresion(e), ";\n");
    case Imprimir(e) =>
      Sin3("console.log(", Expresion(e), "");
      CabeceraUnaLinea("console.log(" + Expresion(e), ");\n");
    case Si(k, ss, o) => LineasSi(c, k, ss, o);
    case Para(ini, k, v, inc, ss) => LineasPara(c, ini, k, v, inc, ss);
  }

  lemma {:induction false} LineasSi(c: Copia, k: Expr, ss: seq<Stmt>, o: Sino)
    requires UnaLinea(c, Si(k, ss, o))
    ensures Count(Instruccion(c, Si(k, ss, o)), '\n') == Lineas(Si(k, ss, o))
    decreases Si(k, ss, o), 0
  {
    var h := "if (" + Expresion(k) + ") {\n";
    Sin3("if (", Expresion(k), "");
    CabeceraUnaLinea("if (" + Expresion(k), ") {\n");
    LineasListaEspec(c, ss, Sangria);
    LineasSinoEspec(c, o);
    Count5(h, Lista(c, ss, Sangria), "}", SinoTs(c, o), "\n");
  }

  lemma {:induction false} LineasPara(c: Copia, ini: ForInit, k: Expr, v: string, inc: bool, ss: seq<Stmt>)
    requires UnaLinea(c, Para(ini, k, v, inc, ss))
    ensures Count(Instruccion(c, Para(ini, k, v, inc, ss)), '\n') == Lineas(Para(ini, k, v, inc, ss))
    decreases Para(ini, k, v, inc, ss), 0
  {
    var u := if inc then "++" else "--";
    var a := "for (" + InicioTs(c, ini) + "; ";
    var b := a + Expresion(k) + "; ";
    var p := b + v + u;
    Sin3("for (", InicioTs(c, ini), "; ");
    Sin3(a, Expresion(k), "; ");
    Sin3(b, v, u);
    CabeceraUnaLinea(p, ") {\n");
    LineasListaEspec(c, ss, Sangria);
    Count3(p + ") {\n", Lista(c, ss, Sangria), "}\n");
    assert Count("}\n", '\n') == 1;
  }

  lemma {:induction false} LineasSinoEspec(c: Copia, o: Sino)
    requires UnaLineaSino(c, o)
    ensures Count(SinoTs(c, o), '\n') == LineasSino(o)
    decreases o
  {
    match o
    case SinSino =>
    case ConSino(ss) =>
      LineasListaEspec(c, ss, Sangria);
      CountConcat(" else {\n", Lista(c, ss, Sangria), '\n');
      CountConcat(" else {\n" + Lista(c, ss, Sangria), "}", '\n');
  }

  lemma {:induction false} LineasListaEspec(c: Copia, ss: seq<Stmt>, sangria: string)
    requires UnaLineaLista(c, ss) && '\n' !in sangria
    ensures Count(Lista(c, ss, sangria), '\n') == LineasLista(ss)
    decreases ss
  {
    if |ss| > 0 {
      LineasEspec(c, ss[0]);
      LineasListaEspec(c, ss[1..], sangria);
      CountAusente(sangria, '\n');
      CountConcat(sangria, Instruccion(c, ss[0]), '\n');
      CountConcat(sangria + Instruccion(c, ss[0]), Lista(c, ss[1..], sangria), '\n');
    }
  }

  /** Three texts without a line break joined have none. */
  lemma Sin3(a: string, b: string, d: string)
    requires '\n' !in a && '\n' !in b && '\n' !in d
    ensures '\n' !in a + b + d
  {
  }

  /** A header line: a text without a line break, then a closing text with exactly one. */
  lemma {:induction false} CabeceraUnaLinea(a: string, b: string)
    requires '\n' !in a && Count(b, '\n') == 1
    ensures Count(a + b, '\n') == 1
  {
    CountAusente(a, '\n');
    CountConcat(a, b, '\n');
  }

  lemma {:induction false} Count3(a: string, b: string, d: string)
    ensures Count(a + b + d, '\n') == Count(a, '\n') + Count(b, '\n') + Count(d, '\n')
  {
    CountConcat(a, b, '\n');
    CountConcat(a + b, d, '\n');
  }

  lemma {:induction false} Count5(a: string, b: string, d: string, e: string, f: string)
    ensures Count(a + b + d + e + f, '\n') == Count(a, '\n') + Count(b, '\n') + Count(d, '\n') + Count(e, '\n') + Count(f, '\n')
  {
    CountConcat(a, b, '\n');
    CountConcat(a + b, d, '\n');
    CountConcat(a + b + d, e, '\n');
    CountConcat(a + b + d + e, f, '\n');
  }

  // ---------------------------------------------------------------- the two copies

  /**
   * Two statements that differ only in their `for` initialisers, all of the kinds the
   * AST-based parser builds (`DECLARACION_FOR`/`ASIGNACION_FOR`).
   */
  predicate SalvoInicios(a: Stmt, b: Stmt)
    decreases a
  {
    match a
    case Si(k, ss, o) => b.Si? && b.condicion == k && ListasSalvoInicios(ss, b.instrucciones) && SinosSalvoInicios(o, b.sino)
    case Para(i, k, v, n, ss) =>
      && b.Para? && !i.InicioInstruccion? && !b.inicio.InicioInstruccion?
      && b.condicion == k && b.variable == v && b.incremento == n && ListasSalvoInicios(ss, b.instrucciones)
    case _ => a == b
  }

  predicate SinosSalvoInicios(o: Sino, p: Sino)
    decreases o
  {
    match o
    case SinSino => p.SinSino?
    case ConSino(ss) => p.ConSino? && ListasSalvoInicios(ss, p.bloque)
  }

  predicate ListasSalvoInicios(a: seq<Stmt>, b: seq<Stmt>)
    decreases a
  {
    |a| == |b| && forall i :: 0 <= i < |a| ==> SalvoInicios(a[i], b[i])
  }

  /**
   * The server copy ignores the initialisers the parser builds: trees that differ only in
   * them print the same text, in which every `for` starts `for (; `.
   */
  lemma {:induction false} ServidorIgnoraInicios(a: seq<Stmt>, b: seq<Stmt>, sangria: string)
    requires ListasSalvoInicios(a, b)
    ensures Lista(Servidor, a, sangria) == Lista(Servidor, b, sangria)
    decreases a
  {
    if |a| > 0 {
      InstruccionIgnoraInicios(a[0], b[0]);
      ServidorIgnoraInicios(a[1..], b[1..], sangria);
    }
  }

  lemma {:induction false} InstruccionIgnoraInicios(a: Stmt, b: Stmt)
    requires SalvoInicios(a, b)
    ensures Instruccion(Servidor, a) == Instruccion(Servidor, b)
    decreases a
  {
    match a
    case Si(k, ss, o) =>
      ServidorIgnoraInicios(ss, b.instrucciones, Sangria);
      if o.ConSino? {
        ServidorIgnoraInicios(o.bloque, b.sino.bloque, Sangria);
      }
    case Para(i, k, v, n, ss) =>
      ServidorIgnoraInicios(ss, b.instrucciones, Sangria);
    case _ =>
  }

  /** A `for` with an empty body. */
  lemma {:induction false} ParaVacio(c: Copia, ini: ForInit, k: Expr, v: string, inc: bool)
    ensures Instruccion(c, Para(ini, k, v, inc, []))
      == "for (" + InicioTs(c, ini) + "; " + Expresion(k) + "; " + v + (if inc then "++" else "--") + ") {\n" + "}\n"
  {
    var p := "for (" + InicioTs(c, ini) + "; " + Expresion(k) + "; " + v + (if inc then "++" else "--") + ") {\n";
    assert Lista(c, [], Sangria) == "";
    assert p + "" == p;
  }

  /**
   * `for (int i = 0; c; i++) { }` as the parser builds it: the browser copy writes the
   * initialiser `let i: number = 0` ...
   */
  lemma {:induction false} ParaNavegador(k: Expr)
    ensures Instruccion(Navegador, Para(DeclaracionFor(IntType, "i", ExpNumero("0", false)), k, "i", true, []))
      == "for (" + "let i: number = 0" + "; " + Expresion(k) + "; " + "i" + "++" + ") {\n" + "}\n"
  {
    InicioNavegador();
    ParaVacio(Navegador, DeclaracionFor(IntType, "i", ExpNumero("0", false)), k, "i", true);
  }

  /** The browser copy writes a `DECLARACION_FOR` as a `let` declaration with its type. */
  lemma InicioNavegador()
    ensures InicioTs(Navegador, DeclaracionFor(IntType, "i", ExpNumero("0", false))) == "let i: number = 0"
  {
  }

  /** ... and the server copy leaves the clause empty. */
  lemma {:induction false} ParaServidor(k: Expr)
    ensures Instruccion(Servidor, Para(DeclaracionFor(IntType, "i", ExpNumero("0", false)), k, "i", true, []))
      == "for (" + "; " + Expresion(k) + "; " + "i" + "++" + ") {\n" + "}\n"
  {
    ParaVacio(Servidor, DeclaracionFor(IntType, "i", ExpNumero("0", false)), k, "i", true);
    assert "for (" + "" == "for (";
  }
}
