/**
 * Properties of the expression productions of the AST-based parser: one-step equations for
 * each loop, and the trees they build for precedence, associativity and parentheses.
 */
module ExpresionProps {
  import opened Common
  import opened Lexico
  import opened Ast
  import opened Sintactico
  import Transpilador

  // ---------------------------------------------------------------- one step of each level

  /** `parseTermino` is its first factor followed by the multiplicative loop. */
  lemma {:induction false} TerminoPaso(ts: seq<Token>, st: PState, f: Expr, st1: PState)
    requires Factor(ts, st) == Ok(f, st1)
    ensures Aritmetico(f)
    ensures Termino(ts, st) == RestoTermino(ts, f, st1)
  {
  }

  /** One turn of the multiplicative loop: the next factor becomes the right operand. */
  lemma {:induction false} RestoTerminoPaso(ts: seq<Token>, izq: Expr, st: PState, d: Expr, st1: PState)
    requires Aritmetico(izq) && MiraOp(ts, st, Multiplicativo)
    requires Factor(ts, PState(st.pos + 1, st.errores)) == Ok(d, st1)
    ensures Aritmetico(ExpAritmetica(izq, ts[st.pos].valor, d))
    ensures RestoTermino(ts, izq, st) == RestoTermino(ts, ExpAritmetica(izq, ts[st.pos].valor, d), st1)
  {
  }

  /** `parseTerminoRelacional` is its first term followed by the additive loop. */
  lemma {:induction false} TerminoRelacionalPaso(ts: seq<Token>, st: PState, t: Expr, st1: PState)
    requires Termino(ts, st) == Ok(t, st1)
    ensures Aritmetico(t)
    ensures TerminoRelacional(ts, st) == RestoAditivo(ts, t, st1)
  {
  }

  /** One turn of the additive loop: the next term becomes the right operand. */
  lemma {:induction false} RestoAditivoPaso(ts: seq<Token>, izq: Expr, st: PState, d: Expr, st1: PState)
    requires Aritmetico(izq) && MiraOp(ts, st, Aditivo)
    requires Termino(ts, PState(st.pos + 1, st.errores)) == Ok(d, st1)
    ensures Aritmetico(ExpAritmetica(izq, ts[st.pos].valor, d))
    ensures RestoAditivo(ts, izq, st) == RestoAditivo(ts, ExpAritmetica(izq, ts[st.pos].valor, d), st1)
  {
  }

  /** `parseExpresion` is its first additive expression followed by the relational loop. */
  lemma {:induction false} ExpresionPaso(ts: seq<Token>, st: PState, t: Expr, st1: PState)
    requires TerminoRelacional(ts, st) == Ok(t, st1)
    ensures ExprBienFormada(t)
    ensures Expresion(ts, st) == RestoRelacional(ts, t, st1)
  {
  }

  /** One turn of the relational loop: the next additive expression becomes the right operand. */
  lemma {:induction false} RestoRelacionalPaso(ts: seq<Token>, izq: Expr, st: PState, d: Expr, st1: PState)
    requires ExprBienFormada(izq) && MiraOp(ts, st, Relacional)
    requires TerminoRelacional(ts, PState(st.pos + 1, st.errores)) == Ok(d, st1)
    ensures ExprBienFormada(ExpRelacional(izq, ts[st.pos].valor, d))
    ensures RestoRelacional(ts, izq, st) == RestoRelacional(ts, ExpRelacional(izq, ts[st.pos].valor, d), st1)
  {
  }

  /**
   * A literal or identifier with no operator after it is a whole expression on its own, at
   * every level: one token read, no error.
   */
  lemma {:induction false} AtomoSolo(ts: seq<Token>, st: PState)
    requires st.pos < |ts| && Atomo(ts[st.pos]).Some?
    requires !Mira(ts, PState(st.pos + 1, st.errores), Operador)
    ensures Expresion(ts, st) == Ok(Atomo(ts[st.pos]).value, PState(st.pos + 1, st.errores))
  {
    var a := Atomo(ts[st.pos]).value;
    var q := PState(st.pos + 1, st.errores);
    assert Factor(ts, st) == Ok(a, q);
    TerminoPaso(ts, st, a, q);
    TerminoRelacionalPaso(ts, st, a, q);
    ExpresionPaso(ts, st, a, q);
  }

  // ---------------------------------------------------------------- the trees built

  /** The atom of the token at `p`. */
  function AtomoEn(ts: seq<Token>, p: nat): Expr
    requires p < |ts| && Atomo(ts[p]).Some?
  {
    Atomo(ts[p]).value
  }

  /** Five tokens from the cursor: atom, operator of class `o1`, atom, operator of class `o2`, atom, then no operator. */
  predicate Cinco(ts: seq<Token>, st: PState, o1: ClaseOp, o2: ClaseOp) {
    && st.pos + 5 <= |ts|
    && Atomo(ts[st.pos]).Some? && Atomo(ts[st.pos + 2]).Some? && Atomo(ts[st.pos + 4]).Some?
    && MiraOp(ts, PState(st.pos + 1, st.errores), o1)
    && MiraOp(ts, PState(st.pos + 3, st.errores), o2)
    && !Mira(ts, PState(st.pos + 5, st.errores), Operador)
  }

  /** An atom with no multiplicative operator after it is a whole term. */
  lemma {:induction false} TerminoAtomo(ts: seq<Token>, st: PState)
    requires st.pos < |ts| && Atomo(ts[st.pos]).Some?
    requires !MiraOp(ts, PState(st.pos + 1, st.errores), Multiplicativo)
    ensures Termino(ts, st) == Ok(AtomoEn(ts, st.pos), PState(st.pos + 1, st.errores))
  {
    TerminoPaso(ts, st, AtomoEn(ts, st.pos), PState(st.pos + 1, st.errores));
  }

  /** `a * b` with no multiplicative operator after it is one term. */
  lemma {:induction false} TerminoProducto(ts: seq<Token>, st: PState)
    requires st.pos + 3 <= |ts| && Atomo(ts[st.pos]).Some? && Atomo(ts[st.pos + 2]).Some?
    requires MiraOp(ts, PState(st.pos + 1, st.errores), Multiplicativo)
    requires !MiraOp(ts, PState(st.pos + 3, st.errores), Multiplicativo)
    ensures Termino(ts, st) ==
      Ok(ExpAritmetica(AtomoEn(ts, st.pos), ts[st.pos + 1].valor, AtomoEn(ts, st.pos + 2)), PState(st.pos + 3, st.errores))
  {
    var s1, s3 := PState(st.pos + 1, st.errores), PState(st.pos + 3, st.errores);
    var a, b := AtomoEn(ts, st.pos), AtomoEn(ts, st.pos + 2);
    assert Factor(ts, PState(st.pos + 2, st.errores)) == Ok(b, s3);
    TerminoPaso(ts, st, a, s1);
    RestoTerminoPaso(ts, a, s1, b, s3);
  }

  /** `a + b * c`, at the additive level. */
  lemma {:induction false} SumaDeProducto(ts: seq<Token>, st: PState)
    requires Cinco(ts, st, Aditivo, Multiplicativo)
    ensures TerminoRelacional(ts, st) ==
      Ok(ExpAritmetica(AtomoEn(ts, st.pos), ts[st.pos + 1].valor,
           ExpAritmetica(AtomoEn(ts, st.pos + 2), ts[st.pos + 3].valor, AtomoEn(ts, st.pos + 4))),
         PState(st.pos + 5, st.errores))
  {
    var s1, s5 := PState(st.pos + 1, st.errores), PState(st.pos + 5, st.errores);
    var a := AtomoEn(ts, st.pos);
    var bc := ExpAritmetica(AtomoEn(ts, st.pos + 2), ts[st.pos + 3].valor, AtomoEn(ts, st.pos + 4));
    TerminoAtomo(ts, st);
    TerminoProducto(ts, PState(st.pos + 2, st.errores));
    TerminoRelacionalPaso(ts, st, a, s1);
    RestoAditivoPaso(ts, a, s1, bc, s5);
  }

  /** `a - b - c`, at the additive level. */
  lemma {:induction false} RestaIzquierda(ts: seq<Token>, st: PState)
    requires Cinco(ts, st, Aditivo, Aditivo)
    ensures TerminoRelacional(ts, st) ==
      Ok(ExpAritmetica(ExpAritmetica(AtomoEn(ts, st.pos), ts[st.pos + 1].valor, AtomoEn(ts, st.pos + 2)),
           ts[st.pos + 3].valor, AtomoEn(ts, st.pos + 4)),
         PState(st.pos + 5, st.errores))
  {
    var s1, s3, s5 := PState(st.pos + 1, st.errores), PState(st.pos + 3, st.errores), PState(st.pos + 5, st.errores);
    var a, b, c := AtomoEn(ts, st.pos), AtomoEn(ts, st.pos + 2), AtomoEn(ts, st.pos + 4);
    TerminoAtomo(ts, st);
    TerminoAtomo(ts, PState(st.pos + 2, st.errores));
    TerminoAtomo(ts, PState(st.pos + 4, st.errores));
    TerminoRelacionalPaso(ts, st, a, s1);
    RestoAditivoPaso(ts, a, s1, b, s3);
    RestoAditivoPaso(ts, ExpAritmetica(a, ts[st.pos + 1].valor, b), s3, c, s5);
  }

  /** An atom with no operator after it, at the additive level. */
  lemma {:induction false} SumandoAtomo(ts: seq<Token>, st: PState)
    requires st.pos < |ts| && Atomo(ts[st.pos]).Some?
    requires !MiraOp(ts, PState(st.pos + 1, st.errores), Multiplicativo)
    requires !MiraOp(ts, PState(st.pos + 1, st.errores), Aditivo)
    ensures TerminoRelacional(ts, st) == Ok(AtomoEn(ts, st.pos), PState(st.pos + 1, st.errores))
  {
    TerminoAtomo(ts, st);
    TerminoRelacionalPaso(ts, st, AtomoEn(ts, st.pos), PState(st.pos + 1, st.errores));
  }

  /** `a + b * c`: multiplication binds tighter. */
  lemma {:induction false} PrecedenciaMultiplicativa(ts: seq<Token>, st: PState)
    requires Cinco(ts, st, Aditivo, Multiplicativo)
    ensures Expresion(ts, st) ==
      Ok(ExpAritmetica(AtomoEn(ts, st.pos), ts[st.pos + 1].valor,
           ExpAritmetica(AtomoEn(ts, st.pos + 2), ts[st.pos + 3].valor, AtomoEn(ts, st.pos + 4))),
         PState(st.pos + 5, st.errores))
  {
    SumaDeProducto(ts, st);
    var x := ExpAritmetica(AtomoEn(ts, st.pos), ts[st.pos + 1].valor,
               ExpAritmetica(AtomoEn(ts, st.pos + 2), ts[st.pos + 3].valor, AtomoEn(ts, st.pos + 4)));
    ExpresionPaso(ts, st, x, PState(st.pos + 5, st.errores));
  }

  /** `a - b - c`: additive operators associate to the left. */
  lemma {:induction false} AsociatividadIzquierda(ts: seq<Token>, st: PState)
    requires Cinco(ts, st, Aditivo, Aditivo)
    ensures Expresion(ts, st) ==
      Ok(ExpAritmetica(ExpAritmetica(AtomoEn(ts, st.pos), ts[st.pos + 1].valor, AtomoEn(ts, st.pos + 2)),
           ts[st.pos + 3].valor, AtomoEn(ts, st.pos + 4)),
         PState(st.pos + 5, st.errores))
  {
    RestaIzquierda(ts, st);
    var x := ExpAritmetica(ExpAritmetica(AtomoEn(ts, st.pos), ts[st.pos + 1].valor, AtomoEn(ts, st.pos + 2)),
               ts[st.pos + 3].valor, AtomoEn(ts, st.pos + 4));
    ExpresionPaso(ts, st, x, PState(st.pos + 5, st.errores));
  }

  /** `a < b == c`: comparisons chain to the left at the top. */
  lemma {:induction false} CadenaRelacional(ts: seq<Token>, st: PState)
    requires Cinco(ts, st, Relacional, Relacional)
    ensures Expresion(ts, st) ==
      Ok(ExpRelacional(ExpRelacional(AtomoEn(ts, st.pos), ts[st.pos + 1].valor, AtomoEn(ts, st.pos + 2)),
           ts[st.pos + 3].valor, AtomoEn(ts, st.pos + 4)),
         PState(st.pos + 5, st.errores))
  {
    var s1, s3, s5 := PState(st.pos + 1, st.errores), PState(st.pos + 3, st.errores), PState(st.pos + 5, st.errores);
    var a, b, c := AtomoEn(ts, st.pos), AtomoEn(ts, st.pos + 2), AtomoEn(ts, st.pos + 4);
    SumandoAtomo(ts, st);
    SumandoAtomo(ts, PState(st.pos + 2, st.errores));
    SumandoAtomo(ts, PState(st.pos + 4, st.errores));
    ExpresionPaso(ts, st, a, s1);
    RestoRelacionalPaso(ts, a, s1, b, s3);
    RestoRelacionalPaso(ts, ExpRelacional(a, ts[st.pos + 1].valor, b), s3, c, s5);
  }

  /**
   * `( x )`: a parenthesised factor is exactly the additive expression inside, with no node
   * of its own, and the cursor after the `)`.
   */
  lemma {:induction false} ParentesisSinNodo(ts: seq<Token>, st: PState, x: Expr, q: nat)
    requires Mira(ts, st, ParentesisIzq)
    requires TerminoRelacional(ts, PState(st.pos + 1, st.errores)) == Ok(x, PState(q, st.errores))
    requires Mira(ts, PState(q, st.errores), ParentesisDer)
    ensures Factor(ts, st) == Ok(x, PState(q + 1, st.errores))
  {
  }

  /**
   * `( a < b )`: a comparison cannot be parenthesised — the factor reads `a`, then expects
   * `)` at the comparison operator and throws with that error.
   */
  lemma {:induction false} ParentesisSinComparacion(ts: seq<Token>, st: PState)
    requires Mira(ts, st, ParentesisIzq)
    requires st.pos + 2 < |ts| && Atomo(ts[st.pos + 1]).Some?
    requires MiraOp(ts, PState(st.pos + 2, st.errores), Relacional)
    ensures Factor(ts, st) ==
      Fail(PState(st.pos + 2, st.errores + [SynError(ts[st.pos + 2].fila, ts[st.pos + 2].columna, Some(Operador), Uno(ParentesisDer))]))
  {
    var s1, s2 := PState(st.pos + 1, st.errores), PState(st.pos + 2, st.errores);
    SumandoAtomo(ts, s1);
    ConsumirEspec(ts, s2, Uno(ParentesisDer));
  }

  // ---------------------------------------------------------------- the tokens read, in order

  /**
   * The text a token contributes to an expression: a character between single quotes, a
   * string between double quotes, `true` for the lexeme `true` and `false` for any other
   * boolean lexeme, and the lexeme itself otherwise.
   */
  function Hoja(t: Token): string {
    match t.tipo
    case Caracter => "'" + t.valor + "'"
    case Cadena => "\"" + t.valor + "\""
    case Boolean => if t.valor == "true" then "true" else "false"
    case _ => t.valor
  }

  /** The texts of the tokens `i` to `j`, with the parentheses left out. */
  function Plano(ts: seq<Token>, i: nat, j: nat): (r: seq<string>)
    requires i <= j <= |ts|
    ensures |r| <= j - i
    decreases j - i
  {
    if i == j then []
    else (if ts[i].tipo.ParentesisIzq? || ts[i].tipo.ParentesisDer? then [] else [Hoja(ts[i])]) + Plano(ts, i + 1, j)
  }

  /** The texts of two adjacent runs are the texts of the whole run. */
  lemma {:induction false} PlanoConcat(ts: seq<Token>, i: nat, j: nat, k: nat)
    requires i <= j <= k <= |ts|
    ensures Plano(ts, i, k) == Plano(ts, i, j) + Plano(ts, j, k)
    decreases j - i
  {
    if i < j {
      PlanoConcat(ts, i + 1, j, k);
    }
  }

  /**
   * One turn of a loop: when the operator at `p` and the operand read after it give the node
   * `e`, the texts from `p` extend the tree built before the turn.
   */
  lemma {:induction false} Anexar(ts: seq<Token>, e: Expr, p: nat, q: nat, k: nat, res: seq<string>)
    requires p < q <= k <= |ts| && ts[p].tipo.Operador?
    requires e.ExpRelacional? || e.ExpAritmetica?
    requires e.op == ts[p].valor && Transpilador.Inorden(e.der) == Plano(ts, p + 1, q)
    requires res == Transpilador.Inorden(e) + Plano(ts, q, k)
    ensures res == Transpilador.Inorden(e.izq) + Plano(ts, p, k)
  {
    var a, b, c := Transpilador.Inorden(e.izq), Plano(ts, p + 1, q), Plano(ts, q, k);
    PlanoOperador(ts, p, q);
    PlanoConcat(ts, p, q, k);
    assert (a + [e.op] + b) + c == a + (([e.op] + b) + c);
  }

  /** An operator token contributes its own text. */
  lemma {:induction false} PlanoOperador(ts: seq<Token>, p: nat, q: nat)
    requires p < q <= |ts| && ts[p].tipo.Operador?
    ensures Plano(ts, p, q) == [ts[p].valor] + Plano(ts, p + 1, q)
  {
  }

  /** A leaf prints as the text of the token it was read from. */
  lemma {:induction false} HojaAtomo(t: Token)
    requires Atomo(t).Some?
    ensures Transpilador.Inorden(Atomo(t).value) == [Hoja(t)]
  {
  }

  /**
   * A factor's leaves and operators, left to right, are the tokens it read with the
   * parentheses dropped.
   */
  lemma {:induction false} FactorPlano(ts: seq<Token>, st: PState)
    ensures var r := Factor(ts, st);
      r.Ok? ==> Transpilador.Inorden(r.value) == Plano(ts, st.pos, r.st.pos)
    decreases Rem(ts, st.pos), 1
  {
    if Mira(ts, st, ParentesisIzq) {
      ParentesisPlano(ts, st);
    } else if st.pos < |ts| && Atomo(ts[st.pos]).Some? {
      HojaAtomo(ts[st.pos]);
    }
  }

  /** A parenthesised factor: the texts inside, the parentheses themselves giving none. */
  lemma {:induction false} ParentesisPlano(ts: seq<Token>, st: PState)
    requires Mira(ts, st, ParentesisIzq)
    ensures var r := Factor(ts, st);
      r.Ok? ==> Transpilador.Inorden(r.value) == Plano(ts, st.pos, r.st.pos)
    decreases Rem(ts, st.pos), 0
  {
    var s1 := PState(st.pos + 1, st.errores);
    var t := TerminoRelacional(ts, s1);
    var r := Factor(ts, st);
    if t.Ok? && r.Ok? {
      assert r.value == t.value && r.st.pos == t.st.pos + 1 && ts[t.st.pos].tipo.ParentesisDer?;
      assert Transpilador.Inorden(t.value) == Plano(ts, st.pos + 1, t.st.pos) by {
        TerminoRelacionalPlano(ts, s1);
      }
      assert Plano(ts, st.pos, r.st.pos) == Plano(ts, st.pos + 1, t.st.pos) by {
        PlanoConcat(ts, st.pos + 1, t.st.pos, r.st.pos);
      }
    }
  }

  /** The same for a term. */
  lemma {:induction false} TerminoPlano(ts: seq<Token>, st: PState)
    ensures var r := Termino(ts, st);
      r.Ok? ==> Transpilador.Inorden(r.value) == Plano(ts, st.pos, r.st.pos)
    decreases Rem(ts, st.pos), 2
  {
    var f := Factor(ts, st);
    if f.Ok? {
      FactorPlano(ts, st);
      RestoTerminoPlano(ts, f.value, f.st);
      var r := Termino(ts, st);
      if r.Ok? {
        PlanoConcat(ts, st.pos, f.st.pos, r.st.pos);
      }
    }
  }

  /** The multiplicative loop appends the tokens it reads to the tree built so far. */
  lemma {:induction false} RestoTerminoPlano(ts: seq<Token>, izq: Expr, st: PState)
    requires Aritmetico(izq) && st.pos <= |ts|
    ensures var r := RestoTermino(ts, izq, st);
      r.Ok? ==> st.pos <= r.st.pos <= |ts| && Transpilador.Inorden(r.value) == Transpilador.Inorden(izq) + Plano(ts, st.pos, r.st.pos)
    decreases Rem(ts, st.pos), 1
  {
    if MiraOp(ts, st, Multiplicativo) {
      var d := Factor(ts, PState(st.pos + 1, st.errores));
      if d.Ok? {
        VueltaRestoTerminoPlano(ts, izq, st, d.value, d.st);
      }
    } else {
      assert Plano(ts, st.pos, st.pos) == [];
    }
  }

  /** One turn of the multiplicative loop that reads its factor. */
  lemma {:induction false} VueltaRestoTerminoPlano(ts: seq<Token>, izq: Expr, st: PState, d: Expr, sd: PState)
    requires Aritmetico(izq) && MiraOp(ts, st, Multiplicativo)
    requires Factor(ts, PState(st.pos + 1, st.errores)) == Ok(d, sd)
    ensures var r := RestoTermino(ts, izq, st);
      r.Ok? ==> st.pos <= r.st.pos <= |ts| && Transpilador.Inorden(r.value) == Transpilador.Inorden(izq) + Plano(ts, st.pos, r.st.pos)
    decreases Rem(ts, st.pos), 0
  {
    var e := ExpAritmetica(izq, ts[st.pos].valor, d);
    var r := RestoTermino(ts, e, sd);
    assert Aritmetico(e) && RestoTermino(ts, izq, st) == r by {
      RestoTerminoPaso(ts, izq, st, d, sd);
    }
    if r.Ok? {
      assert Transpilador.Inorden(d) == Plano(ts, st.pos + 1, sd.pos) by {
        FactorPlano(ts, PState(st.pos + 1, st.errores));
      }
      assert sd.pos <= r.st.pos <= |ts| && Transpilador.Inorden(r.value) == Transpilador.Inorden(e) + Plano(ts, sd.pos, r.st.pos) by {
        RestoTerminoPlano(ts, e, sd);
      }
      Anexar(ts, e, st.pos, sd.pos, r.st.pos, Transpilador.Inorden(r.value));
    }
  }

  /** The same for an additive expression. */
  lemma {:induction false} TerminoRelacionalPlano(ts: seq<Token>, st: PState)
    ensures var r := TerminoRelacional(ts, st);
      r.Ok? ==> Transpilador.Inorden(r.value) == Plano(ts, st.pos, r.st.pos)
    decreases Rem(ts, st.pos), 4
  {
    var t := Termino(ts, st);
    if t.Ok? {
      TerminoPlano(ts, st);
      RestoAditivoPlano(ts, t.value, t.st);
      var r := TerminoRelacional(ts, st);
      if r.Ok? {
        PlanoConcat(ts, st.pos, t.st.pos, r.st.pos);
      }
    }
  }

  /** The additive loop appends the tokens it reads to the tree built so far. */
  lemma {:induction false} RestoAditivoPlano(ts: seq<Token>, izq: Expr, st: PState)
    requires Aritmetico(izq) && st.pos <= |ts|
    ensures var r := RestoAditivo(ts, izq, st);
      r.Ok? ==> st.pos <= r.st.pos <= |ts| && Transpilador.Inorden(r.value) == Transpilador.Inorden(izq) + Plano(ts, st.pos, r.st.pos)
    decreases Rem(ts, st.pos), 3
  {
    if MiraOp(ts, st, Aditivo) {
      var d := Termino(ts, PState(st.pos + 1, st.errores));
      if d.Ok? {
        VueltaRestoAditivoPlano(ts, izq, st, d.value, d.st);
      }
    } else {
      assert Plano(ts, st.pos, st.pos) == [];
    }
  }

  /** One turn of the additive loop that reads its term. */
  lemma {:induction false} VueltaRestoAditivoPlano(ts: seq<Token>, izq: Expr, st: PState, d: Expr, sd: PState)
    requires Aritmetico(izq) && MiraOp(ts, st, Aditivo)
    requires Termino(ts, PState(st.pos + 1, st.errores)) == Ok(d, sd)
    ensures var r := RestoAditivo(ts, izq, st);
      r.Ok? ==> st.pos <= r.st.pos <= |ts| && Transpilador.Inorden(r.value) == Transpilador.Inorden(izq) + Plano(ts, st.pos, r.st.pos)
    decreases Rem(ts, st.pos), 0
  {
    var e := ExpAritmetica(izq, ts[st.pos].valor, d);
    var r := RestoAditivo(ts, e, sd);
    assert Aritmetico(e) && RestoAditivo(ts, izq, st) == r by {
      RestoAditivoPaso(ts, izq, st, d, sd);
    }
    if r.Ok? {
      assert Transpilador.Inorden(d) == Plano(ts, st.pos + 1, sd.pos) by {
        TerminoPlano(ts, PState(st.pos + 1, st.errores));
      }
      assert sd.pos <= r.st.pos <= |ts| && Transpilador.Inorden(r.value) == Transpilador.Inorden(e) + Plano(ts, sd.pos, r.st.pos) by {
        RestoAditivoPlano(ts, e, sd);
      }
      Anexar(ts, e, st.pos, sd.pos, r.st.pos, Transpilador.Inorden(r.value));
    }
  }

  /** The relational loop appends the tokens it reads to the tree built so far. */
  lemma {:induction false} RestoRelacionalPlano(ts: seq<Token>, izq: Expr, st: PState)
    requires ExprBienFormada(izq) && st.pos <= |ts|
    ensures var r := RestoRelacional(ts, izq, st);
      r.Ok? ==> st.pos <= r.st.pos <= |ts| && Transpilador.Inorden(r.value) == Transpilador.Inorden(izq) + Plano(ts, st.pos, r.st.pos)
    decreases Rem(ts, st.pos), 1
  {
    if MiraOp(ts, st, Relacional) {
      var d := TerminoRelacional(ts, PState(st.pos + 1, st.errores));
      if d.Ok? {
        VueltaRestoRelacionalPlano(ts, izq, st, d.value, d.st);
      }
    } else {
      assert Plano(ts, st.pos, st.pos) == [];
    }
  }

  /** One turn of the relational loop that reads its additive expression. */
  lemma {:induction false} VueltaRestoRelacionalPlano(ts: seq<Token>, izq: Expr, st: PState, d: Expr, sd: PState)
    requires ExprBienFormada(izq) && MiraOp(ts, st, Relacional)
    requires TerminoRelacional(ts, PState(st.pos + 1, st.errores)) == Ok(d, sd)
    ensures var r := RestoRelacional(ts, izq, st);
      r.Ok? ==> st.pos <= r.st.pos <= |ts| && Transpilador.Inorden(r.value) == Transpilador.Inorden(izq) + Plano(ts, st.pos, r.st.pos)
    decreases Rem(ts, st.pos), 0
  {
    var e := ExpRelacional(izq, ts[st.pos].valor, d);
    var r := RestoRelacional(ts, e, sd);
    assert ExprBienFormada(e) && RestoRelacional(ts, izq, st) == r by {
      RestoRelacionalPaso(ts, izq, st, d, sd);
    }
    if r.Ok? {
      assert Transpilador.Inorden(d) == Plano(ts, st.pos + 1, sd.pos) by {
        TerminoRelacionalPlano(ts, PState(st.pos + 1, st.errores));
      }
      assert sd.pos <= r.st.pos <= |ts| && Transpilador.Inorden(r.value) == Transpilador.Inorden(e) + Plano(ts, sd.pos, r.st.pos) by {
        RestoRelacionalPlano(ts, e, sd);
      }
      Anexar(ts, e, st.pos, sd.pos, r.st.pos, Transpilador.Inorden(r.value));
    }
  }

  /**
   * `parseExpresion` loses nothing and reorders nothing: the tree's leaves and operators, left
   * to right, are exactly the tokens it read, less the parentheses, whose grouping lives only
   * in the shape of the tree.
   */
  lemma {:induction false} ExpresionPlano(ts: seq<Token>, st: PState)
    ensures var r := Expresion(ts, st);
      r.Ok? ==> Transpilador.Inorden(r.value) == Plano(ts, st.pos, r.st.pos)
  {
    var t := TerminoRelacional(ts, st);
    if t.Ok? {
      TerminoRelacionalPlano(ts, st);
      RestoRelacionalPlano(ts, t.value, t.st);
      var r := Expresion(ts, st);
      if r.Ok? {
        PlanoConcat(ts, st.pos, t.st.pos, r.st.pos);
      }
    }
  }

  // ---------------------------------------------------------------- the grammar of the trees

  /** A leaf: a literal or an identifier. */
  predicate EsHoja(e: Expr) {
    !e.ExpRelacional? && !e.ExpAritmetica?
  }

  /** `producto := hoja | producto ('*' | '/') hoja`. */
  predicate Producto(e: Expr) {
    EsHoja(e) || (e.ExpAritmetica? && OperadorDe(Multiplicativo, e.op) && Producto(e.izq) && EsHoja(e.der))
  }

  /** `suma := producto | suma ('+' | '-') producto`. */
  predicate Suma(e: Expr) {
    Producto(e) || (e.ExpAritmetica? && OperadorDe(Aditivo, e.op) && Suma(e.izq) && Producto(e.der))
  }

  /** `relacion := suma | relacion comparacion suma`. */
  predicate Relacion(e: Expr) {
    Suma(e) || (e.ExpRelacional? && OperadorDe(Relacional, e.op) && Relacion(e.izq) && Suma(e.der))
  }

  /** No `(` among the tokens `i` to `j`. */
  predicate SinParentesis(ts: seq<Token>, i: nat, j: nat) {
    forall k :: i <= k < j && k < |ts| ==> !ts[k].tipo.ParentesisIzq?
  }

  /** The multiplicative loop, over tokens with no `(`, keeps a product a product. */
  lemma {:induction false} RestoTerminoForma(ts: seq<Token>, izq: Expr, st: PState)
    requires Aritmetico(izq) && Producto(izq)
    ensures var r := RestoTermino(ts, izq, st);
      r.Ok? && SinParentesis(ts, st.pos, r.st.pos) ==> Producto(r.value)
    decreases Rem(ts, st.pos), 1
  {
    if MiraOp(ts, st, Multiplicativo) && Factor(ts, PState(st.pos + 1, st.errores)).Ok? {
      VueltaRestoTerminoForma(ts, izq, st);
    }
  }

  /** One turn of it: the factor after the operator is a leaf. */
  lemma {:induction false} VueltaRestoTerminoForma(ts: seq<Token>, izq: Expr, st: PState)
    requires Aritmetico(izq) && Producto(izq) && MiraOp(ts, st, Multiplicativo)
    requires Factor(ts, PState(st.pos + 1, st.errores)).Ok?
    ensures var r := RestoTermino(ts, izq, st);
      r.Ok? && SinParentesis(ts, st.pos, r.st.pos) ==> Producto(r.value)
    decreases Rem(ts, st.pos), 0
  {
    var s1 := PState(st.pos + 1, st.errores);
    var d := Factor(ts, s1);
    var e := ExpAritmetica(izq, ts[st.pos].valor, d.value);
    RestoTerminoPaso(ts, izq, st, d.value, d.st);
    var r := RestoTermino(ts, izq, st);
    if r.Ok? && SinParentesis(ts, st.pos, r.st.pos) {
      RestoTerminoForma(ts, e, d.st);
    }
  }

  /** A term read over tokens with no `(` is a product. */
  lemma {:induction false} TerminoForma(ts: seq<Token>, st: PState)
    ensures var r := Termino(ts, st);
      r.Ok? && SinParentesis(ts, st.pos, r.st.pos) ==> Producto(r.value)
  {
    var f := Factor(ts, st);
    var r := Termino(ts, st);
    if f.Ok? && r.Ok? && SinParentesis(ts, st.pos, r.st.pos) {
      assert !ts[st.pos].tipo.ParentesisIzq?;
      RestoTerminoForma(ts, f.value, f.st);
    }
  }

  /** The additive loop, over tokens with no `(`, keeps a sum a sum. */
  lemma {:induction false} RestoAditivoForma(ts: seq<Token>, izq: Expr, st: PState)
    requires Aritmetico(izq) && Suma(izq)
    ensures var r := RestoAditivo(ts, izq, st);
      r.Ok? && SinParentesis(ts, st.pos, r.st.pos) ==> Suma(r.value)
    decreases Rem(ts, st.pos), 1
  {
    if MiraOp(ts, st, Aditivo) && Termino(ts, PState(st.pos + 1, st.errores)).Ok? {
      VueltaRestoAditivoForma(ts, izq, st);
    }
  }

  /** One turn of it: the term after the operator is a product. */
  lemma {:induction false} VueltaRestoAditivoForma(ts: seq<Token>, izq: Expr, st: PState)
    requires Aritmetico(izq) && Suma(izq) && MiraOp(ts, st, Aditivo)
    requires Termino(ts, PState(st.pos + 1, st.errores)).Ok?
    ensures var r := RestoAditivo(ts, izq, st);
      r.Ok? && SinParentesis(ts, st.pos, r.st.pos) ==> Suma(r.value)
    decreases Rem(ts, st.pos), 0
  {
    var s1 := PState(st.pos + 1, st.errores);
    var d := Termino(ts, s1);
    var e := ExpAritmetica(izq, ts[st.pos].valor, d.value);
    RestoAditivoPaso(ts, izq, st, d.value, d.st);
    var r := RestoAditivo(ts, izq, st);
    if r.Ok? && SinParentesis(ts, st.pos, r.st.pos) {
      TerminoForma(ts, s1);
      RestoAditivoForma(ts, e, d.st);
    }
  }

  /** An additive expression read over tokens with no `(` is a sum. */
  lemma {:induction false} TerminoRelacionalForma(ts: seq<Token>, st: PState)
    ensures var r := TerminoRelacional(ts, st);
      r.Ok? && SinParentesis(ts, st.pos, r.st.pos) ==> Suma(r.value)
  {
    var t := Termino(ts, st);
    var r := TerminoRelacional(ts, st);
    if t.Ok? && r.Ok? && SinParentesis(ts, st.pos, r.st.pos) {
      TerminoForma(ts, st);
      RestoAditivoForma(ts, t.value, t.st);
    }
  }

  /** The relational loop, over tokens with no `(`, keeps a comparison chain one. */
  lemma {:induction false} RestoRelacionalForma(ts: seq<Token>, izq: Expr, st: PState)
    requires ExprBienFormada(izq) && Relacion(izq)
    ensures var r := RestoRelacional(ts, izq, st);
      r.Ok? && SinParentesis(ts, st.pos, r.st.pos) ==> Relacion(r.value)
    decreases Rem(ts, st.pos), 1
  {
    if MiraOp(ts, st, Relacional) && TerminoRelacional(ts, PState(st.pos + 1, st.errores)).Ok? {
      VueltaRestoRelacionalForma(ts, izq, st);
    }
  }

  /** One turn of it: the additive expression after the operator is a sum. */
  lemma {:induction false} VueltaRestoRelacionalForma(ts: seq<Token>, izq: Expr, st: PState)
    requires ExprBienFormada(izq) && Relacion(izq) && MiraOp(ts, st, Relacional)
    requires TerminoRelacional(ts, PState(st.pos + 1, st.errores)).Ok?
    ensures var r := RestoRelacional(ts, izq, st);
      r.Ok? && SinParentesis(ts, st.pos, r.st.pos) ==> Relacion(r.value)
    decreases Rem(ts, st.pos), 0
  {
    var s1 := PState(st.pos + 1, st.errores);
    var d := TerminoRelacional(ts, s1);
    var e := ExpRelacional(izq, ts[st.pos].valor, d.value);
    RestoRelacionalPaso(ts, izq, st, d.value, d.st);
    var r := RestoRelacional(ts, izq, st);
    if r.Ok? && SinParentesis(ts, st.pos, r.st.pos) {
      TerminoRelacionalForma(ts, s1);
      RestoRelacionalForma(ts, e, d.st);
    }
  }

  /**
   * Without parentheses the tree follows the grammar `relacion / suma / producto`: `*` and
   * `/` bind tighter than `+` and `-`, which bind tighter than the comparisons, and every
   * level leans to the left.
   */
  lemma {:induction false} ExpresionForma(ts: seq<Token>, st: PState)
    ensures var r := Expresion(ts, st);
      r.Ok? && SinParentesis(ts, st.pos, r.st.pos) ==> Relacion(r.value)
  {
    var t := TerminoRelacional(ts, st);
    var r := Expresion(ts, st);
    if t.Ok? && r.Ok? && SinParentesis(ts, st.pos, r.st.pos) {
      TerminoRelacionalForma(ts, st);
      RestoRelacionalForma(ts, t.value, t.st);
    }
  }

  // ---------------------------------------------------------------- for initialisers

  /**
   * The initialiser of a `for` checks only the KIND of the token in the `=` position, so
   * `int i + 0` parses as `DECLARACION_FOR` of `i` with `0`.
   */
  lemma {:induction false} InicioAceptaCualquierOperador(ts: seq<Token>, st: PState)
    requires st.pos + 4 < |ts|
    requires EsTipoDato(ts[st.pos].tipo) && ts[st.pos + 1].tipo.Identificador?
    requires ts[st.pos + 2].tipo.Operador? && ts[st.pos + 3].tipo.Entero?
    requires ts[st.pos + 4].tipo.PuntoComa?
    ensures InicioPara(ts, st) ==
      Ok(DeclaracionFor(ts[st.pos].tipo, ts[st.pos + 1].valor, ExpNumero(ts[st.pos + 3].valor, false)),
         PState(st.pos + 4, st.errores))
  {
    AtomoSolo(ts, PState(st.pos + 3, st.errores));
  }
}
