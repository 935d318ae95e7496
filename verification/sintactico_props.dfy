/** Properties of the AST-based parser, alone and fed by the scanner. */
module SintacticoProps {
  import opened Common
  import opened Lexico
  import opened Ast
  import opened Sintactico
  import LexicoProps

  // ---------------------------------------------------------------- the comment filter

  /** The filter commutes with concatenation, so it keeps the other tokens in their order. */
  lemma {:induction false} FiltrarConcat(a: seq<Token>, b: seq<Token>)
    ensures Filtrar(a + b) == Filtrar(a) + Filtrar(b)
    decreases |a|
  {
    if |a| > 0 {
      assert (a + b)[1..] == a[1..] + b;
      FiltrarConcat(a[1..], b);
    } else {
      assert a + b == b;
    }
  }

  /** Filtering twice is filtering once. */
  lemma {:induction false} FiltrarIdempotente(ts: seq<Token>)
    ensures Filtrar(Filtrar(ts)) == Filtrar(ts)
  {
    var f := Filtrar(ts);
    forall i | 0 <= i < |f| ensures !f[i].tipo.ComentarioLinea? && !f[i].tipo.ComentarioBloque? {
      assert f[i] in f;
    }
  }

  /** The parse of a token list is the parse of its comment-free part. */
  lemma {:induction false} ComentariosIgnorados(tokens: seq<Token>)
    ensures Sintactico.Analizar(tokens) == Sintactico.Analizar(Filtrar(tokens))
  {
    FiltrarIdempotente(tokens);
  }

  // ---------------------------------------------------------------- the statement-list loop

  /** One turn of the statement-list loop on a parsed statement: it is kept, in order. */
  lemma {:induction false} ListaPasoOk(ts: seq<Token>, st: PState, s: Stmt, st1: PState)
    requires st.pos < |ts| && !ts[st.pos].tipo.LlaveDer?
    requires Instruccion(ts, st) == Ok(s, st1)
    ensures ListaInstrucciones(ts, st) == ([s] + ListaInstrucciones(ts, st1).0, ListaInstrucciones(ts, st1).1)
  {
  }

  /** One turn on a throw with tokens left after it: the token at the throw is skipped. */
  lemma {:induction false} ListaPasoSalta(ts: seq<Token>, st: PState, st1: PState)
    requires st.pos < |ts| && !ts[st.pos].tipo.LlaveDer?
    requires Instruccion(ts, st) == Fail(st1) && st1.pos + 1 < |ts|
    ensures ListaInstrucciones(ts, st) == ListaInstrucciones(ts, PState(st1.pos + 1, st1.errores))
  {
  }

  /** One turn on a throw at the last token: the list ends, past the end, with no statement. */
  lemma {:induction false} ListaPasoFin(ts: seq<Token>, st: PState, st1: PState)
    requires st.pos < |ts| && !ts[st.pos].tipo.LlaveDer?
    requires Instruccion(ts, st) == Fail(st1) && st1.pos + 1 >= |ts|
    ensures ListaInstrucciones(ts, st) == ([], PState(st1.pos + 1, st1.errores))
  {
  }

  // ---------------------------------------------------------------- recovery

  /** A `CONSOLE` token starts no statement: it fails without an error and recovery skips it. */
  lemma {:induction false} ConsolaSeSalta(ts: seq<Token>, st: PState)
    requires st.pos < |ts| && ts[st.pos].tipo.Console?
    ensures Instruccion(ts, st) == Fail(st)
    ensures ListaInstrucciones(ts, st) ==
      if st.pos + 1 < |ts| then ListaInstrucciones(ts, PState(st.pos + 1, st.errores))
      else ([], PState(st.pos + 1, st.errores))
  {
  }

  /** A token that cannot start a statement and is not `}`. */
  predicate NoInicia(t: Token) {
    !(EsTipoDato(t.tipo) || t.tipo.Identificador? || t.tipo.If? || t.tipo.For? || t.tipo.LlaveDer?)
  }

  /**
   * A run of `n` tokens none of which starts a statement is skipped one token at a time by
   * recovery, and records no error.
   */
  lemma {:induction false} SaltaNoInicios(ts: seq<Token>, st: PState, n: nat)
    requires st.pos + n < |ts|
    requires forall k :: st.pos <= k < st.pos + n ==> NoInicia(ts[k])
    ensures ListaInstrucciones(ts, st) == ListaInstrucciones(ts, PState(st.pos + n, st.errores))
    decreases n
  {
    if n > 0 {
      SaltaUno(ts, st);
      SaltaNoInicios(ts, PState(st.pos + 1, st.errores), n - 1);
    }
  }

  /** One such token, with more after it: recovery steps over it. */
  lemma {:induction false} SaltaUno(ts: seq<Token>, st: PState)
    requires st.pos + 1 < |ts| && NoInicia(ts[st.pos])
    ensures ListaInstrucciones(ts, st) == ListaInstrucciones(ts, PState(st.pos + 1, st.errores))
  {
    assert Instruccion(ts, st) == Fail(st);
    ListaPasoSalta(ts, st, st);
  }

  /**
   * `Console.WriteLine("texto");` as the scanner tokenises it — `CONSOLE`, `PUNTO`,
   * `WRITELINE`, `(`, `CADENA`, `)`, `;` — vanishes from a statement list without a node
   * and without an error.
   */
  lemma {:induction false} ImprimirDesaparece(ts: seq<Token>, st: PState)
    requires st.pos + 7 < |ts|
    requires ts[st.pos].tipo.Console? && ts[st.pos + 1].tipo.Punto? && ts[st.pos + 2].tipo.WriteLine?
    requires ts[st.pos + 3].tipo.ParentesisIzq? && ts[st.pos + 4].tipo.Cadena?
    requires ts[st.pos + 5].tipo.ParentesisDer? && ts[st.pos + 6].tipo.PuntoComa?
    ensures ListaInstrucciones(ts, st) == ListaInstrucciones(ts, PState(st.pos + 7, st.errores))
  {
    SaltaNoInicios(ts, st, 7);
  }

  /**
   * Recovery can swallow a closing brace: in `{ x } }`, the statement `x` throws at the first
   * `}` without an error, recovery skips that `}`, and the block closes at the second one.
   * One `}` short later on, the enclosing class then throws at the end of input.
   */
  lemma {:induction false} RecuperacionComeLlave(ts: seq<Token>, st: PState)
    requires st.pos + 3 < |ts|
    requires ts[st.pos].tipo.LlaveIzq? && ts[st.pos + 1].tipo.Identificador? && ts[st.pos + 1].valor != "Console"
    requires ts[st.pos + 2].tipo.LlaveDer? && ts[st.pos + 3].tipo.LlaveDer?
    ensures Bloque(ts, st) == Ok([], PState(st.pos + 4, st.errores))
  {
    var s1, s2, s3 := PState(st.pos + 1, st.errores), PState(st.pos + 2, st.errores), PState(st.pos + 3, st.errores);
    assert Instruccion(ts, s1) == Fail(s2) by {
      assert Sintactico.Asignacion(ts, s1) == Fail(s2);
    }
    ListaPasoSalta(ts, s1, s2);
    assert ListaInstrucciones(ts, s1) == ([], s3);
  }

  /**
   * When the `Main` block ends at the end of input, the class's own `}` is missing: the class
   * throws, with an `EOF` error placed at the last token.
   */
  lemma {:induction false} ClaseSinCierre(ts: seq<Token>, st: PState, m: (string, seq<Stmt>), s: PState)
    requires EncabezadoClase(ts, st).Ok? && BlockMain(ts, EncabezadoClase(ts, st).st) == Ok(m, s)
    requires s.pos >= |ts|
    ensures |ts| > 0
    ensures Clase(ts, st) ==
      Fail(s.(errores := s.errores + [SynError(ts[|ts| - 1].fila, ts[|ts| - 1].columna, None, Uno(LlaveDer))]))
  {
    ConsumirEspec(ts, s, Uno(LlaveDer));
  }

  /** A program that does not start with `using` throws at once, with the one error for it. */
  lemma {:induction false} ProgramaSinUsing(ts: seq<Token>, st: PState)
    requires st.pos < |ts| && !ts[st.pos].tipo.Using?
    ensures Sintactico.Programa(ts, st) ==
      Fail(st.(errores := st.errores + [SynError(ts[st.pos].fila, ts[st.pos].columna, Some(ts[st.pos].tipo), Uno(Using))]))
  {
    ConsumirEspec(ts, st, Uno(Using));
    var u := BlockUsing(ts, st);
    assert u == Fail(Consumir(ts, st, Uno(Using)).st);
  }

  /** Without `using` first, the first `consumir` throws and nothing catches it: no tree, one error. */
  lemma {:induction false} SinUsingArbolNulo(tokens: seq<Token>)
    requires |Filtrar(tokens)| > 0 && !Filtrar(tokens)[0].tipo.Using?
    ensures var t := Filtrar(tokens)[0];
      Sintactico.Analizar(tokens) == (None, [SynError(t.fila, t.columna, Some(t.tipo), Uno(Using))])
  {
    var ts := Filtrar(tokens);
    ProgramaSinUsing(ts, PState(0, []));
    var e := SynError(ts[0].fila, ts[0].columna, Some(ts[0].tipo), Uno(Using));
    assert [] + [e] == [e];
  }

  // ---------------------------------------------------------------- the fixed headers

  /** `parseBlockUsing` succeeds exactly on `using System ;`, and then moves three tokens. */
  lemma {:induction false} BlockUsingAcepta(ts: seq<Token>, st: PState)
    ensures BlockUsing(ts, st).Ok? <==>
      && st.pos + 3 <= |ts|
      && ts[st.pos].tipo.Using? && ts[st.pos + 1].tipo.System? && ts[st.pos + 2].tipo.PuntoComa?
  {
  }

  /** The `Main` header succeeds exactly on its nine tokens, `static void Main ( string [ ] id )`. */
  lemma {:induction false} EncabezadoMainAcepta(ts: seq<Token>, st: PState)
    ensures EncabezadoMain(ts, st).Ok? <==>
      && st.pos + 9 <= |ts|
      && ts[st.pos].tipo.Static? && ts[st.pos + 1].tipo.Void? && ts[st.pos + 2].tipo.MainKw?
      && ts[st.pos + 3].tipo.ParentesisIzq? && ts[st.pos + 4].tipo.StringType?
      && ts[st.pos + 5].tipo.CorcheteIzq? && ts[st.pos + 6].tipo.CorcheteDer?
      && ts[st.pos + 7].tipo.Identificador? && ts[st.pos + 8].tipo.ParentesisDer?
  {
  }

  // ---------------------------------------------------------------- fed by the scanner

  /**
   * Fed by the scanner, the parser never builds a print statement: the scanner gives
   * `Console` the kind `CONSOLE`, and the parser starts a print only at an `IDENTIFICADOR`
   * spelled `Console`.  Every `for` it builds has a `DECLARACION_FOR`/`ASIGNACION_FOR`
   * initialiser.
   */
  lemma {:induction false} TextoNuncaImprime(s: string)
    ensures var ast := Sintactico.Analizar(Lexico.Analizar(s).0).0;
      ast.Some? ==> SinImprimir(ast.value.instrucciones) && IniciosFor(ast.value.instrucciones)
  {
    var tokens := Lexico.Analizar(s).0;
    var ts := Filtrar(tokens);
    LexicoProps.ConsoleNuncaEsIdentificador(s);
    forall i | 0 <= i < |ts| ensures !(ts[i].tipo.Identificador? && ts[i].valor == "Console") {
      assert ts[i] in ts;
    }
  }
}
