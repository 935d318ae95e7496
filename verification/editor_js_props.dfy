/** Properties of the in-browser editor's preview and pipeline, and how it differs from the server's. */
module EditorJsProps {
  import opened Common
  import opened Lexico
  import opened Ast
  import opened Simbolos
  import opened EditorJs
  import Editor
  import EditorProps
  import SimbolosProps
  import Sintactico

  // ---------------------------------------------------------------- the walk

  lemma {:induction false} MapaConcat(m: Mapa, a: seq<Stmt>, b: seq<Stmt>)
    ensures ActualizarMapa(m, a + b) == ActualizarMapa(ActualizarMapa(m, a), b)
    decreases |a|
  {
    if |a| == 0 {
      assert a + b == b;
    } else {
      assert (a + b)[0] == a[0];
      assert (a + b)[1..] == a[1..] + b;
      MapaConcat(Visitar(m, a[0]), a[1..], b);
    }
  }

  lemma UnaInstruccion(m: Mapa, s: Stmt)
    ensures ActualizarMapa(m, [s]) == Visitar(m, s)
  {
    assert [s][1..] == [];
  }

  /** A declaration overwrites: the entry is the last declaration's type and value. */
  lemma UltimaDeclaracionGana(m: Mapa, ss: seq<Stmt>, k: Kind, x: string, e: Option<Expr>)
    ensures var u := ActualizarMapa(m, ss);
      ActualizarMapa(m, ss + [Declaracion(k, [VarDecl(x, e)])]) == u[x := EntradaDe(u, k, VarDecl(x, e))]
  {
    var u := ActualizarMapa(m, ss);
    MapaConcat(m, ss, [Declaracion(k, [VarDecl(x, e)])]);
    UnaInstruccion(u, Declaracion(k, [VarDecl(x, e)]));
    assert Declarar(u, k, [VarDecl(x, e)]) == Declarar(u[x := EntradaDe(u, k, VarDecl(x, e))], k, [VarDecl(x, e)][1..]);
    assert [VarDecl(x, e)][1..] == [];
  }

  /** An assignment to a name neither in the map nor declared before it changes nothing. */
  lemma AsignacionIgnorada(m: Mapa, ss: seq<Stmt>, x: string, e: Expr)
    requires x !in m && x !in Editor.Declarados(ss)
    ensures ActualizarMapa(m, ss + [Asignacion(x, e)]) == ActualizarMapa(m, ss)
  {
    MapaConcat(m, ss, [Asignacion(x, e)]);
    UnaInstruccion(ActualizarMapa(m, ss), Asignacion(x, e));
  }

  /** An assignment to a known name replaces its value and keeps its type. */
  lemma AsignacionReemplaza(m: Mapa, ss: seq<Stmt>, x: string, e: Expr)
    requires x in ActualizarMapa(m, ss)
    ensures var u := ActualizarMapa(m, ss);
      ActualizarMapa(m, ss + [Asignacion(x, e)]) == u[x := Entrada(u[x].tipo, EvaluarExpr(u, e))]
  {
    MapaConcat(m, ss, [Asignacion(x, e)]);
    UnaInstruccion(ActualizarMapa(m, ss), Asignacion(x, e));
  }

  // ---------------------------------------------------------------- against the server's preview

  /** Both previews, started empty, end with the same names. */
  lemma MismosNombres(ss: seq<Stmt>)
    ensures ActualizarMapa(map[], ss).Keys == Nombres(Editor.ActualizarTabla(Nueva(), ss).simbolos)
  {
    EditorProps.TablaNombres(Nueva(), ss);
    assert Nombres(Nueva().simbolos) == {};
  }

  /** On an expression with no identifier and no comparison, the two previews show the same value. */
  lemma {:induction false} MismaEvaluacion(t: Tabla, m: Mapa, e: Expr)
    requires Aritmetico(e) && Editor.SinIdentificadores(e)
    ensures Editor.EvaluarExpr(t, e) == EvaluarExpr(m, e)
    decreases e
  {
    if e.ExpAritmetica? {
      MismaEvaluacion(t, m, e.izq);
      MismaEvaluacion(t, m, e.der);
    }
  }

  /** `int x; string x;`: the server keeps the first declaration, the browser the last. */
  lemma RedeclaracionDifiere()
    ensures var ss := [Declaracion(IntType, [VarDecl("x", None)]), Declaracion(StringType, [VarDecl("x", None)])];
      && Buscar(Editor.ActualizarTabla(Nueva(), ss), "x") == Some(Simbolo("x", TsNumber, VNumero("0"), Global))
      && ActualizarMapa(map[], ss)["x"] == Entrada(TsString, Indefinido)
  {
    var a := Declaracion(IntType, [VarDecl("x", None)]);
    var b := Declaracion(StringType, [VarDecl("x", None)]);
    var ss := [a, b];
    assert ss == [a] + [b];
    // server
    EditorProps.TablaConcat(Nueva(), [a], [b]);
    var t1 := Editor.Visitar(Nueva(), a);
    assert Editor.ActualizarTabla(Nueva(), [a]) == t1 by { assert [a][1..] == []; }
    EditorProps.SinValorPorDefecto(Nueva(), IntType, "x");
    assert Editor.ActualizarTabla(t1, [b]) == Editor.Visitar(t1, b) by { assert [b][1..] == []; }
    EditorProps.DeclararConservaTipo(t1, StringType, [VarDecl("x", None)], "x");
    SimbolosProps.BuscarTrasAgregar(t1, "x", TsString, None);
    assert [VarDecl("x", None)][1..] == [];
    // browser
    UltimaDeclaracionGana(map[], [a], StringType, "x", None);
  }

  // ---------------------------------------------------------------- the whole analysis

  /** Blanks around the text make no difference to anything the page shows. */
  lemma AnalizarTrasRecortar(s: string)
    ensures AnalizarCodigo(Trim(s)) == AnalizarCodigo(s)
  {
    TrimIdempotente(s);
  }
}
