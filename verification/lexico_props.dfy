/** Properties of the AST pipeline's scanner over whole inputs. */
module LexicoProps {
  import opened Common
  import opened Lexico

  // ---------------------------------------------------------------- reserved-word lookup as written

  /**
   * What `this.palabrasReservadas[valor] || 'IDENTIFICADOR'` yields in JavaScript: the table
   * is a plain object literal, so a key it does not own is still looked up along the
   * prototype chain, and the inherited methods of `Object.prototype` are truthy.
   */
  datatype TipoJs = Propio(k: Kind) | FuncionHeredada(nombre: string)

  /** The inherited `Object.prototype` members whose names an identifier can spell. */
  const Heredadas: set<string> := {
    "constructor", "hasOwnProperty", "isPrototypeOf", "propertyIsEnumerable",
    "toLocaleString", "toString", "valueOf"}

  /** The lookup of `lexico.ts` as written: own keys, then inherited ones, then the fallback. */
  function TipoIdentificadorComoEscrito(w: string): (t: TipoJs)
    ensures t.FuncionHeredada? <==> w in Heredadas
    ensures w !in Heredadas ==> t == Propio(TipoIdentificador(w))
  {
    if w in Reservadas then Propio(Reservadas[w])
    else if w in Heredadas then FuncionHeredada(w)
    else Propio(Identificador)
  }

  /**
   * The word `constructor` scans as an identifier-shaped lexeme, yet the lookup as written
   * gives it a function as its kind, so no parser rule can accept it; the corrected lookup
   * gives `IDENTIFICADOR`.
   */
  lemma ConstructorRecibeFuncionComoTipo()
    ensures EsPalabra("constructor")
    ensures TipoIdentificadorComoEscrito("constructor") == FuncionHeredada("constructor")
    ensures TipoIdentificador("constructor") == Identificador
  {
    assert "constructor" !in Reservadas;
    assert "constructor"[0] == 'c';
  }

  /**
   * The corrected lookup agrees with the code as written on every identifier-shaped word
   * except the seven inherited names, and on those it gives `IDENTIFICADOR`.
   */
  lemma {:induction false} LookupCorregidoDifiereSoloEnHeredadas(w: string)
    ensures TipoIdentificadorComoEscrito(w) != Propio(TipoIdentificador(w)) <==> w in Heredadas
    ensures w in Heredadas ==> TipoIdentificador(w) == Identificador
  {
    if w in Heredadas {
      assert w !in Reservadas;
    }
  }

  // ---------------------------------------------------------------- loop properties

  /** The errors that a run of unrecognised characters from `st` produces, one per character. */
  function ErroresDesconocidos(s: string, st: Lexer, n: nat): (es: seq<LexError>)
    requires st.pos + n <= |s|
    ensures |es| == n
    ensures forall k :: 0 <= k < n ==>
      es[k] == LexError(st.fila, st.columna + k, [s[st.pos + k]], CaracterDesconocido)
  {
    seq(n, k requires 0 <= k < n => LexError(st.fila, st.columna + k, [s[st.pos + k]], CaracterDesconocido))
  }

  /**
   * From a position where every remaining character is one the scanner does not recognise,
   * the loop reports exactly one error per character, each carrying the character, the
   * current line and its own column, and no token.
   */
  lemma {:induction false} BucleSoloDesconocidos(s: string, st: Lexer)
    requires st.pos <= |s|
    requires forall k :: st.pos <= k < |s| ==> Desconocido(s[k])
    ensures Bucle(s, st).tokens == st.tokens
    ensures Bucle(s, st).errores == st.errores + ErroresDesconocidos(s, st, |s| - st.pos)
    decreases |s| - st.pos
  {
    if st.pos < |s| {
      PasoDesconocido(s, st);
      var st' := Paso(s, st);
      BucleSoloDesconocidos(s, st');
      var a := ErroresDesconocidos(s, st, |s| - st.pos);
      var b := ErroresDesconocidos(s, st', |s| - st'.pos);
      assert a == [a[0]] + b;
    }
  }

  /** A text made only of unrecognised characters: one error per character at column k + 1. */
  lemma TextoDesconocido(s: string)
    requires forall k :: 0 <= k < |s| ==> Desconocido(s[k])
    ensures Analizar(s).0 == []
    ensures |Analizar(s).1| == |s|
    ensures forall k :: 0 <= k < |s| ==>
      Analizar(s).1[k] == LexError(1, k + 1, [s[k]], CaracterDesconocido)
  {
    BucleSoloDesconocidos(s, Inicial);
    var es := ErroresDesconocidos(s, Inicial, |s|);
    assert Analizar(s).1 == [] + es;
  }

  /** The scanner never produces an `IDENTIFICADOR` spelled `Console`: that word is reserved. */
  lemma ConsoleNuncaEsIdentificador(s: string)
    ensures forall t :: t in Analizar(s).0 ==> !(t.tipo.Identificador? && t.valor == "Console")
  {
    var ts := Analizar(s).0;
    forall t | t in ts ensures !(t.tipo.Identificador? && t.valor == "Console") {
      var i :| 0 <= i < |ts| && ts[i] == t;
      assert BienFormado(ts[i]);
    }
  }

  // ---------------------------------------------------------------- worked inputs

  lemma Desplegar(s: string, st: Lexer)
    requires st.pos < |s|
    ensures Bucle(s, st) == Bucle(s, Paso(s, st))
  {
  }

  lemma Terminar(s: string, st: Lexer)
    requires st.pos == |s|
    ensures Bucle(s, st) == st
  {
  }

  /** A line break: next line, column 1, then the usual increment. */
  lemma Salto(s: string, st: Lexer)
    requires st.pos < |s| && EsSaltoLinea(s[st.pos])
    ensures Bucle(s, st) == Bucle(s, st.(pos := st.pos + 1, fila := st.fila + 1, columna := 2))
  {
    PasoSalto(s, st);
    Desplegar(s, st);
  }

  /** Every reserved word has at least two letters. */
  lemma UnaLetraNoReservada(c: char)
    ensures [c] !in Reservadas
  {
  }

  /** A letter followed by a character that cannot continue a word is an identifier of its own. */
  lemma IdentificadorDeUnaLetra(s: string, st: Lexer)
    requires st.pos < |s| && EsLetra(s[st.pos]) && (st.pos + 1 == |s| || !EsCaracterIdentificador(s[st.pos + 1]))
    ensures AnalizarIdentificador(s, st) == Avanzar(st).(tokens := st.tokens + [Token(Identificador, [s[st.pos]], st.fila, st.columna)])
  {
    var j := FinIdentificador(s, st.pos + 1);
    assert j == st.pos + 1;
    assert s[st.pos..j] == [s[st.pos]];
    UnaLetraNoReservada(s[st.pos]);
  }

  lemma LetraSola(s: string, st: Lexer)
    requires st.pos < |s| && EsLetra(s[st.pos]) && (st.pos + 1 == |s| || !EsCaracterIdentificador(s[st.pos + 1]))
    ensures Bucle(s, st) == Bucle(s, Avanzar(st).(tokens := st.tokens + [Token(Identificador, [s[st.pos]], st.fila, st.columna)]))
  {
    IdentificadorDeUnaLetra(s, st);
    PasoIdentificador(s, st);
    Desplegar(s, st);
  }

  /** A number step, given where `FinNumero` stops. */
  lemma BucleNumero(s: string, st: Lexer, j: nat, dec: bool)
    requires st.pos < |s| && EsDigito(s[st.pos]) && FinNumero(s, st.pos, false) == (j, dec)
    ensures Bucle(s, st) == Bucle(s, st.(pos := j, columna := st.columna + (j - st.pos),
      tokens := st.tokens + [Token(if dec then Decimal else Entero, s[st.pos..j], st.fila, st.columna)]))
  {
    var r := st.(pos := j, columna := st.columna + (j - st.pos),
      tokens := st.tokens + [Token(if dec then Decimal else Entero, s[st.pos..j], st.fila, st.columna)]);
    assert AnalizarNumero(s, st) == r;
    PasoNumero(s, st);
    Desplegar(s, st);
  }

  /** A punctuation step. */
  lemma BucleSimbolo(s: string, st: Lexer)
    requires st.pos < |s| && EsSimbolo(s[st.pos])
    ensures Bucle(s, st) == Bucle(s, Avanzar(st).(tokens := st.tokens + [Token(SimboloDe(s[st.pos]).value, [s[st.pos]], st.fila, st.columna)]))
  {
    PasoSimbolo(s, st);
    Desplegar(s, st);
  }

  /**
   * Digit, dot, digit, dot, digit: a `DECIMAL` of the first three characters, a `PUNTO`, and
   * an `ENTERO` of the last digit (as `1.2.3` scans), because a number takes only one dot.
   */
  lemma NumeroConDosPuntos(s: string)
    requires |s| == 5 && EsDigito(s[0]) && s[1] == '.' && EsDigito(s[2]) && s[3] == '.' && EsDigito(s[4])
    ensures Analizar(s) ==
      ([Token(Decimal, s[..3], 1, 1), Token(Punto, ".", 1, 4), Token(Entero, s[4..], 1, 5)], [])
  {
    var a := Lexer(3, 1, 4, [Token(Decimal, s[..3], 1, 1)], []);
    var b := Lexer(4, 1, 5, a.tokens + [Token(Punto, ".", 1, 4)], []);
    var c := Lexer(5, 1, 6, b.tokens + [Token(Entero, s[4..], 1, 5)], []);
    DosPuntosPrimerNumero(s);
    DosPuntosPunto(s, a);
    DosPuntosSegundoNumero(s, b);
    Terminar(s, c);
    assert Bucle(s, Inicial) == c;
    assert c.tokens == [Token(Decimal, s[..3], 1, 1), Token(Punto, ".", 1, 4), Token(Entero, s[4..], 1, 5)];
    assert Analizar(s) == (c.tokens, c.errores);
  }

  lemma DosPuntosPrimerNumero(s: string)
    requires |s| == 5 && EsDigito(s[0]) && s[1] == '.' && EsDigito(s[2]) && s[3] == '.' && EsDigito(s[4])
    ensures Bucle(s, Inicial) == Bucle(s, Lexer(3, 1, 4, [Token(Decimal, s[..3], 1, 1)], []))
  {
    var i0 := Lexer(0, 1, 1, [], []);
    var t := Token(Decimal, s[..3], 1, 1);
    assert i0 == Inicial;
    FinNumeroDosPuntos(s);
    assert s[0..3] == s[..3];
    BucleNumero(s, i0, 3, true);
    assert i0.tokens + [t] == [t];
  }

  lemma DosPuntosPunto(s: string, a: Lexer)
    requires |s| == 5 && s[3] == '.' && a.pos == 3
    ensures Bucle(s, a) == Bucle(s, a.(pos := 4, columna := a.columna + 1, tokens := a.tokens + [Token(Punto, ".", a.fila, a.columna)]))
  {
    var b := a.(pos := 4, columna := a.columna + 1, tokens := a.tokens + [Token(Punto, ".", a.fila, a.columna)]);
    assert SimboloDe(s[3]) == Some(Punto) && [s[3]] == ".";
    BucleSimbolo(s, a);
    assert Avanzar(a).(tokens := a.tokens + [Token(Punto, ".", a.fila, a.columna)]) == b;
  }

  lemma DosPuntosSegundoNumero(s: string, b: Lexer)
    requires |s| == 5 && EsDigito(s[0]) && s[1] == '.' && EsDigito(s[2]) && s[3] == '.' && EsDigito(s[4])
    requires b.pos == 4
    ensures Bucle(s, b) == Bucle(s, b.(pos := 5, columna := b.columna + 1, tokens := b.tokens + [Token(Entero, s[4..], b.fila, b.columna)]))
  {
    FinNumeroDosPuntos(s);
    BucleNumero(s, b, 5, false);
    assert s[4..5] == s[4..];
  }

  /** Where the number loop stops on digit, dot, digit, dot, digit. */
  lemma FinNumeroDosPuntos(s: string)
    requires |s| == 5 && EsDigito(s[0]) && s[1] == '.' && EsDigito(s[2]) && s[3] == '.' && EsDigito(s[4])
    ensures FinNumero(s, 0, false) == (3, true) && FinNumero(s, 4, false) == (5, false)
  {
    assert FinNumero(s, 3, true) == (3, true);
    assert FinNumero(s, 2, true) == (3, true);
    assert FinNumero(s, 1, false) == (3, true);
    assert FinNumero(s, 5, false) == (5, false);
  }

  /** Digit then dot (as `1.`): a trailing dot still makes a `DECIMAL`. */
  lemma NumeroConPuntoFinal(s: string)
    requires |s| == 2 && EsDigito(s[0]) && s[1] == '.'
    ensures Analizar(s) == ([Token(Decimal, s, 1, 1)], [])
  {
    var a := Lexer(2, 1, 3, [Token(Decimal, s, 1, 1)], []);
    assert FinNumero(s, 0, false) == (2, true) by {
      assert FinNumero(s, 2, true) == (2, true);
      assert FinNumero(s, 1, false) == (2, true);
    }
    BucleNumero(s, Inicial, 2, true);
    assert s[0..2] == s;
    assert Bucle(s, Inicial) == Bucle(s, a);
    Terminar(s, a);
    assert Bucle(s, Inicial) == a;
    assert Analizar(s) == (a.tokens, a.errores);
  }

  /** Letter, line break, letter (as `a\nb`): the second letter is at line 2, column 2. */
  lemma ColumnaTrasSalto(s: string)
    requires |s| == 3 && EsLetra(s[0]) && EsSaltoLinea(s[1]) && EsLetra(s[2])
    ensures Analizar(s) == ([Token(Identificador, s[..1], 1, 1), Token(Identificador, s[2..], 2, 2)], [])
  {
    var a := Lexer(1, 1, 2, [Token(Identificador, [s[0]], 1, 1)], []);
    var b := Lexer(2, 2, 2, a.tokens, []);
    var c := Lexer(3, 2, 3, a.tokens + [Token(Identificador, [s[2]], 2, 2)], []);
    LetraSola(s, Inicial);
    assert Avanzar(Inicial).(tokens := Inicial.tokens + [Token(Identificador, [s[0]], 1, 1)]) == a;
    assert Bucle(s, Inicial) == Bucle(s, a);
    Salto(s, a);
    assert Bucle(s, a) == Bucle(s, b);
    LetraSola(s, b);
    assert Avanzar(b).(tokens := b.tokens + [Token(Identificador, [s[2]], 2, 2)]) == c;
    assert Bucle(s, b) == Bucle(s, c);
    Terminar(s, c);
    assert Bucle(s, Inicial) == c;
    assert s[..1] == [s[0]] && s[2..] == [s[2]];
    assert c.tokens == [Token(Identificador, s[..1], 1, 1), Token(Identificador, s[2..], 2, 2)];
    assert Analizar(s) == (c.tokens, c.errores);
  }

  /** Two line breaks then a letter (as `\r\nx`): `\r\n` counts as two lines. */
  lemma RetornoYSaltoSonDosLineas(s: string)
    requires |s| == 3 && EsSaltoLinea(s[0]) && EsSaltoLinea(s[1]) && EsLetra(s[2])
    ensures Analizar(s) == ([Token(Identificador, s[2..], 3, 2)], [])
  {
    var d := Lexer(1, 2, 2, [], []);
    var e := Lexer(2, 3, 2, [], []);
    var f := Lexer(3, 3, 3, [Token(Identificador, [s[2]], 3, 2)], []);
    assert s[2..] == [s[2]];
    assert Avanzar(e).(tokens := e.tokens + [Token(Identificador, [s[2]], 3, 2)]) == f;
    Salto(s, Inicial);
    assert Bucle(s, Inicial) == Bucle(s, d);
    Salto(s, d);
    assert Bucle(s, d) == Bucle(s, e);
    LetraSola(s, e);
    assert Bucle(s, e) == Bucle(s, f);
    Terminar(s, f);
    assert Bucle(s, Inicial) == f;
    assert Analizar(s) == (f.tokens, f.errores);
  }

  /**
   * An opening slash-star then a letter: one unclosed-comment error at line 1, column 1, and the letter, the
   * last character, is left out of the comment and scanned as an identifier at column 3.
   */
  lemma ComentarioSinCerrar(s: string)
    requires |s| == 3 && s[0] == '/' && s[1] == '*' && EsLetra(s[2])
    ensures Analizar(s) ==
      ([Token(Identificador, s[2..], 1, 3)], [LexError(1, 1, "/*", ComentarioNoCerrado)])
  {
    var a := Lexer(2, 1, 3, [], [LexError(1, 1, "/*", ComentarioNoCerrado)]);
    var b := Lexer(3, 1, 4, [Token(Identificador, [s[2]], 1, 3)], a.errores);
    assert Bucle(s, Inicial) == Bucle(s, a) by {
      assert CuerpoBloque(s, 2, 1, 3) == (2, 1, 3);
      PasoComentarioBloque(s, Inicial);
      Desplegar(s, Inicial);
    }
    LetraSola(s, a);
    assert Avanzar(a).(tokens := a.tokens + [Token(Identificador, [s[2]], 1, 3)]) == b;
    assert Bucle(s, a) == Bucle(s, b);
    Terminar(s, b);
    assert Bucle(s, Inicial) == b;
    assert s[2..] == [s[2]];
    assert Analizar(s) == (b.tokens, b.errores);
  }

  /** Two single quotes (`''`) make an empty character literal. */
  lemma CaracterVacio(s: string)
    requires |s| == 2 && s[0] == '\'' && s[1] == '\''
    ensures Analizar(s) == ([Token(Caracter, "", 1, 1)], [])
  {
    var a := Lexer(2, 1, 3, [Token(Caracter, "", 1, 1)], []);
    assert Paso(s, Inicial) == a by {
      PasoCaracter(s, Inicial);
      assert s[1..1] == "";
    }
    Desplegar(s, Inicial);
    Terminar(s, a);
    assert Analizar(s) == (a.tokens, a.errores);
  }

  /** A lone operator character, `!` included, is a one-character `OPERADOR`. */
  lemma OperadorSolo(s: string)
    requires |s| == 1 && EsOperador(s[0])
    ensures Analizar(s) == ([Token(Operador, s, 1, 1)], [])
  {
    var a := Lexer(1, 1, 2, [Token(Operador, s, 1, 1)], []);
    assert Paso(s, Inicial) == a by {
      PasoOperador(s, Inicial);
      assert s[0..1] == s;
    }
    Desplegar(s, Inicial);
    Terminar(s, a);
    assert Analizar(s) == (a.tokens, a.errores);
  }
}
