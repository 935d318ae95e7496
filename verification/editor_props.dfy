/** Properties of the server-backed editor's symbol-table preview. */
module EditorProps {
  import opened Common
  import opened Lexico
  import opened Ast
  import opened Simbolos
  import opened Editor
  import SimbolosProps
  import Transpilador

  // ---------------------------------------------------------------- the walk

  /** Walking two lists is walking the first and then the second from where it left the table. */
  lemma {:induction false} TablaConcat(t: Tabla, a: seq<Stmt>, b: seq<Stmt>)
    ensures ActualizarTabla(t, a + b) == ActualizarTabla(ActualizarTabla(t, a), b)
    decreases |a|
  {
    if |a| == 0 {
      assert a + b == b;
    } else {
      assert (a + b)[0] == a[0];
      assert (a + b)[1..] == a[1..] + b;
      TablaConcat(Visitar(t, a[0]), a[1..], b);
    }
  }

  /** Only declarations and assignments matter: the walk gives the same table without the rest. */
  lemma {:induction false} SoloNivelSuperior(t: Tabla, ss: seq<Stmt>)
    ensures ActualizarTabla(t, ss) == ActualizarTabla(t, Visitables(ss))
    decreases |ss|
  {
    if |ss| > 0 {
      SoloNivelSuperior(Visitar(t, ss[0]), ss[1..]);
      if ss[0].Declaracion? || ss[0].Asignacion? {
        assert Visitables(ss) == [ss[0]] + Visitables(ss[1..]);
        assert ([ss[0]] + Visitables(ss[1..]))[1..] == Visitables(ss[1..]);
      } else {
        assert Visitar(t, ss[0]) == t;
        assert Visitables(ss) == Visitables(ss[1..]);
      }
    }
  }

  /** The top-level declarations and assignments, in order. */
  function Visitables(ss: seq<Stmt>): seq<Stmt>
    decreases |ss|
  {
    if |ss| == 0 then []
    else (if ss[0].Declaracion? || ss[0].Asignacion? then [ss[0]] else []) + Visitables(ss[1..])
  }

  // ---------------------------------------------------------------- the invariant

  lemma {:induction false} DeclararUnicos(t: Tabla, k: Kind, vs: seq<VarDecl>)
    requires Unicos(t.simbolos)
    ensures Unicos(Declarar(t, k, vs).simbolos)
    decreases |vs|
  {
    if |vs| > 0 {
      var v := if vs[0].expresion.Some? then Some(EvaluarExpr(t, vs[0].expresion.value)) else None;
      SimbolosProps.AgregarPreservaUnicos(t, vs[0].id, ConvertirTipo(k), v);
      DeclararUnicos(Agregar(t, vs[0].id, ConvertirTipo(k), v), k, vs[1..]);
    }
  }

  lemma VisitarUnicos(t: Tabla, s: Stmt)
    requires Unicos(t.simbolos)
    ensures Unicos(Visitar(t, s).simbolos)
  {
    if s.Declaracion? {
      DeclararUnicos(t, s.tipoVariable, s.variables);
    } else if s.Asignacion? && Buscar(t, s.id).Some? {
      SimbolosProps.ActualizarPreservaUnicos(t, s.id, EvaluarExpr(t, s.expresion));
    }
  }

  /** The preview keeps at most one symbol per name and scope. */
  lemma {:induction false} TablaUnicos(t: Tabla, ss: seq<Stmt>)
    requires Unicos(t.simbolos)
    ensures Unicos(ActualizarTabla(t, ss).simbolos)
    decreases |ss|
  {
    if |ss| > 0 {
      VisitarUnicos(t, ss[0]);
      TablaUnicos(Visitar(t, ss[0]), ss[1..]);
    }
  }

  // ---------------------------------------------------------------- the names

  lemma NombresEn(ss: seq<Simbolo>, s: Simbolo)
    requires s in ss
    ensures s.nombre in Nombres(ss)
  {
  }

  lemma {:induction false} AgregarNombres(t: Tabla, n: string, tipo: TipoTs, v: Option<Valor>)
    ensures Nombres(Agregar(t, n, tipo, v).simbolos) == Nombres(t.simbolos) + {n}
  {
    var r := Agregar(t, n, tipo, v);
    if Indice(t.simbolos, n, t.ambitoActual).Some? {
      var i := Indice(t.simbolos, n, t.ambitoActual).value;
      NombresEn(t.simbolos, t.simbolos[i]);
    } else {
      var x := r.simbolos[|t.simbolos|];
      assert r.simbolos == t.simbolos + [x];
      NombresEn(r.simbolos, x);
      forall m | m in Nombres(t.simbolos) ensures m in Nombres(r.simbolos) {
        var s :| s in t.simbolos && s.nombre == m;
        NombresEn(r.simbolos, s);
      }
      forall m | m in Nombres(r.simbolos) ensures m in Nombres(t.simbolos) + {n} {
        var s :| s in r.simbolos && s.nombre == m;
        if s != x { NombresEn(t.simbolos, s); }
      }
    }
  }

  lemma IdsCons(vs: seq<VarDecl>)
    requires |vs| > 0
    ensures Ids(vs) == {vs[0].id} + Ids(vs[1..])
  {
    forall m | m in Ids(vs) ensures m in {vs[0].id} + Ids(vs[1..]) {
      var w :| w in vs && w.id == m;
      if w != vs[0] {
        var i :| 0 <= i < |vs| && vs[i] == w;
        assert vs[1..][i - 1] == w;
      }
    }
    forall m | m in Ids(vs[1..]) ensures m in Ids(vs) {
      var w :| w in vs[1..] && w.id == m;
      assert w in vs;
    }
    assert vs[0] in vs;
  }

  lemma {:induction false} DeclararNombres(t: Tabla, k: Kind, vs: seq<VarDecl>)
    ensures Nombres(Declarar(t, k, vs).simbolos) == Nombres(t.simbolos) + Ids(vs)
    decreases |vs|
  {
    if |vs| == 0 {
      assert Ids(vs) == {};
    } else {
      var v := if vs[0].expresion.Some? then Some(EvaluarExpr(t, vs[0].expresion.value)) else None;
      var u := Agregar(t, vs[0].id, ConvertirTipo(k), v);
      assert Declarar(t, k, vs) == Declarar(u, k, vs[1..]);
      AgregarNombres(t, vs[0].id, ConvertirTipo(k), v);
      DeclararNombres(u, k, vs[1..]);
      IdsCons(vs);
    }
  }

  lemma VisitarNombres(t: Tabla, s: Stmt)
    ensures Nombres(Visitar(t, s).simbolos) == Nombres(t.simbolos) + (if s.Declaracion? then Ids(s.variables) else {})
  {
    if s.Declaracion? {
      DeclararNombres(t, s.tipoVariable, s.variables);
    } else if s.Asignacion? {
      SimbolosProps.NadaSeBorra(t, s.id, TsAny, None, EvaluarExpr(t, s.expresion));
    }
  }

  /** The preview's names are the names it started with and the top-level declared ones. */
  lemma {:induction false} TablaNombres(t: Tabla, ss: seq<Stmt>)
    ensures Nombres(ActualizarTabla(t, ss).simbolos) == Nombres(t.simbolos) + Declarados(ss)
    decreases |ss|
  {
    if |ss| > 0 {
      VisitarNombres(t, ss[0]);
      TablaNombres(Visitar(t, ss[0]), ss[1..]);
    }
  }

  // ---------------------------------------------------------------- first declaration wins

  lemma {:induction false} DeclararConservaTipo(t: Tabla, k: Kind, vs: seq<VarDecl>, n: string)
    requires Buscar(t, n).Some?
    ensures Buscar(Declarar(t, k, vs), n).Some? && Buscar(Declarar(t, k, vs), n).value.tipo == Buscar(t, n).value.tipo
    decreases |vs|
  {
    if |vs| > 0 {
      var v := if vs[0].expresion.Some? then Some(EvaluarExpr(t, vs[0].expresion.value)) else None;
      if vs[0].id == n {
        SimbolosProps.BuscarTrasAgregar(t, n, ConvertirTipo(k), v);
      } else {
        SimbolosProps.AgregarNoTocaOtros(t, vs[0].id, ConvertirTipo(k), v, n);
      }
      DeclararConservaTipo(Agregar(t, vs[0].id, ConvertirTipo(k), v), k, vs[1..], n);
    }
  }

  lemma VisitarConservaTipo(t: Tabla, s: Stmt, n: string)
    requires Buscar(t, n).Some?
    ensures Buscar(Visitar(t, s), n).Some? && Buscar(Visitar(t, s), n).value.tipo == Buscar(t, n).value.tipo
  {
    if s.Declaracion? {
      DeclararConservaTipo(t, s.tipoVariable, s.variables, n);
    } else if s.Asignacion? && Buscar(t, s.id).Some? {
      if s.id == n {
        SimbolosProps.BuscarTrasActualizar(t, n, EvaluarExpr(t, s.expresion));
      } else {
        SimbolosProps.ActualizarNoTocaOtros(t, s.id, EvaluarExpr(t, s.expresion), n);
      }
    }
  }

  /**
   * A symbol, once in the table, stays and keeps its type: a redeclaration (even with another
   * type) is ignored, and assignments change only the value.
   */
  lemma {:induction false} PrimeraDeclaracionGana(t: Tabla, ss: seq<Stmt>, n: string)
    requires Buscar(t, n).Some?
    ensures Buscar(ActualizarTabla(t, ss), n).Some?
    ensures Buscar(ActualizarTabla(t, ss), n).value.tipo == Buscar(t, n).value.tipo
    decreases |ss|
  {
    if |ss| > 0 {
      VisitarConservaTipo(t, ss[0], n);
      PrimeraDeclaracionGana(Visitar(t, ss[0]), ss[1..], n);
    }
  }

  /** A variable declared without a value gets its type's default: `0`, `''`, `false` or `null`. */
  lemma {:induction false} SinValorPorDefecto(t: Tabla, k: Kind, x: string)
    requires Buscar(t, x).None?
    ensures Buscar(Declarar(t, k, [VarDecl(x, None)]), x) ==
      Some(Simbolo(x, ConvertirTipo(k), ValorPorDefecto(ConvertirTipo(k)), t.ambitoActual))
  {
    SimbolosProps.BuscarTrasAgregar(t, x, ConvertirTipo(k), None);
    assert [VarDecl(x, None)][1..] == [];
  }

  // ---------------------------------------------------------------- assignments

  lemma BuscarNombrado(t: Tabla, x: string)
    ensures Buscar(t, x).Some? ==> x in Nombres(t.simbolos)
  {
    if Buscar(t, x).Some? {
      NombresEn(t.simbolos, Buscar(t, x).value);
    }
  }

  /** An assignment to a name neither in the table nor declared before it changes nothing. */
  lemma {:induction false} AsignacionIgnorada(t: Tabla, ss: seq<Stmt>, x: string, e: Expr)
    requires x !in Nombres(t.simbolos) && x !in Declarados(ss)
    ensures ActualizarTabla(t, ss + [Asignacion(x, e)]) == ActualizarTabla(t, ss)
  {
    var u := ActualizarTabla(t, ss);
    TablaConcat(t, ss, [Asignacion(x, e)]);
    TablaNombres(t, ss);
    BuscarNombrado(u, x);
    assert [Asignacion(x, e)][1..] == [];
  }

  /** An assignment to a known name replaces its value by the evaluated expression, and nothing else. */
  lemma {:induction false} AsignacionReemplaza(t: Tabla, ss: seq<Stmt>, x: string, e: Expr)
    requires Buscar(ActualizarTabla(t, ss), x).Some?
    ensures var u := ActualizarTabla(t, ss);
      Buscar(ActualizarTabla(t, ss + [Asignacion(x, e)]), x) == Some(Buscar(u, x).value.(valor := EvaluarExpr(u, e)))
  {
    var u := ActualizarTabla(t, ss);
    TablaConcat(t, ss, [Asignacion(x, e)]);
    assert [Asignacion(x, e)][1..] == [];
    SimbolosProps.BuscarTrasActualizar(u, x, EvaluarExpr(u, e));
  }

  // ---------------------------------------------------------------- against the emitter

  lemma {:induction false} SinParentesisConcat(a: string, b: string)
    ensures SinParentesis(a + b) == SinParentesis(a) + SinParentesis(b)
    decreases |a|
  {
    if |a| == 0 {
      assert a + b == b;
    } else {
      assert (a + b)[0] == a[0];
      assert (a + b)[1..] == a[1..] + b;
      SinParentesisConcat(a[1..], b);
    }
  }

  lemma {:induction false} SinParentesisNada(s: string)
    requires '(' !in s && ')' !in s
    ensures SinParentesis(s) == s
    decreases |s|
  {
    if |s| > 0 {
      assert s[0] in s;
      assert forall c :: c in s[1..] ==> c in s;
      SinParentesisNada(s[1..]);
    }
  }

  /** No leaf or operator text of the expression contains a parenthesis. */
  predicate SinParentesisEn(e: Expr) {
    forall w :: w in Transpilador.Inorden(e) ==> '(' !in w && ')' !in w
  }

  /** Taking the parentheses out of a wrapped binary node leaves the operands' texts joined by the operator. */
  lemma SinParentesisNodo(a: string, op: string, b: string)
    requires '(' !in op && ')' !in op
    ensures SinParentesis("(" + a + " " + op + " " + b + ")") == SinParentesis(a) + " " + op + " " + SinParentesis(b)
  {
    var sa, sb := SinParentesis(a), SinParentesis(b);
    assert SinParentesis("(") == "" && SinParentesis(")") == "" && SinParentesis(" ") == " ";
    var p1 := "(" + a;
    assert SinParentesis(p1) == sa by { SinParentesisConcat("(", a); }
    var p2 := p1 + " ";
    assert SinParentesis(p2) == sa + " " by { SinParentesisConcat(p1, " "); }
    var p3 := p2 + op;
    assert SinParentesis(p3) == sa + " " + op by { SinParentesisConcat(p2, op); SinParentesisNada(op); }
    var p4 := p3 + " ";
    assert SinParentesis(p4) == sa + " " + op + " " by { SinParentesisConcat(p3, " "); }
    var p5 := p4 + b;
    assert SinParentesis(p5) == sa + " " + op + " " + sb by { SinParentesisConcat(p4, b); }
    assert SinParentesis(p5 + ")") == SinParentesis(p5) by { SinParentesisConcat(p5, ")"); }
  }

  /**
   * The preview shows an identifier-free arithmetic expression as the emitted TypeScript
   * text, fully parenthesised: taking the parentheses out gives the emitter's text back.
   */
  lemma {:induction false} EvaluarComoEmisor(t: Tabla, e: Expr)
    requires Aritmetico(e) && SinIdentificadores(e) && SinParentesisEn(e)
    ensures SinParentesis(Interpolar(EvaluarExpr(t, e))) == Transpilador.Expresion(e)
    decreases e
  {
    if e.ExpAritmetica? {
      var l, op, d := e.izq, e.op, e.der;
      var il, id := Transpilador.Inorden(l), Transpilador.Inorden(d);
      assert Transpilador.Inorden(e) == il + [op] + id;
      assert forall w :: w in il ==> w in Transpilador.Inorden(e);
      assert forall w :: w in id ==> w in Transpilador.Inorden(e);
      assert op in Transpilador.Inorden(e);
      EvaluarComoEmisor(t, l);
      EvaluarComoEmisor(t, d);
      SinParentesisNodo(Interpolar(EvaluarExpr(t, l)), op, Interpolar(EvaluarExpr(t, d)));
    } else {
      assert Transpilador.Literal(e) in Transpilador.Inorden(e);
      SinParentesisNada(Transpilador.Literal(e));
    }
  }
}
