/**
 * The in-browser editor (`public/editor.js`): its symbol preview, which keeps a JavaScript
 * `Map` from names to `{ tipo, valor }`, and the stage short-circuit of `analizarCodigo`.
 * Its scanner and parser are the same as the server's (modules Lexico and Sintactico) and its
 * emitter is `Transpilador` with the `Navegador` copy of the `for` initialiser.
 */
module EditorJs {
  import opened Common
  import opened Lexico
  import opened Ast
  import opened Simbolos
  import Editor
  import Sintactico
  import Transpilador

  /** One entry of the preview's `Map`. */
  datatype Entrada = Entrada(tipo: TipoTs, valor: Valor)

  type Mapa = map<string, Entrada>

  /** The string the browser copy stores where the server copy has `null`. */
  const Indefinido: Valor := VTexto("undefined")

  /**
   * `evaluarExpresion`: literals as text (a number as itself), an identifier's stored value or
   * `'undefined'`, arithmetic fully parenthesised, and `'undefined'` for a comparison.
   */
  function EvaluarExpr(m: Mapa, e: Expr): (v: Valor)
    ensures e.ExpIdentificador? ==> (v == if e.nombre in m then m[e.nombre].valor else Indefinido)
    ensures e.ExpRelacional? ==> v == Indefinido
    ensures e.ExpAritmetica? ==> v.VTexto? && |v.s| >= 4 && v.s[0] == '(' && v.s[|v.s| - 1] == ')'
    decreases e
  {
    match e
    case ExpNumero(l, _) => VNumero(l)
    case ExpCadena(s) => VTexto("\"" + s + "\"")
    case ExpCaracter(c) => VTexto("'" + c + "'")
    case ExpBooleano(b) => VTexto(if b then "true" else "false")
    case ExpIdentificador(n) => if n in m then m[n].valor else Indefinido
    case ExpAritmetica(l, op, d) =>
      VTexto("(" + Interpolar(EvaluarExpr(m, l)) + " " + op + " " + Interpolar(EvaluarExpr(m, d)) + ")")
    case ExpRelacional(_, _, _) => Indefinido
  }

  /** The entry a declared variable gets: its type, and its evaluated value or `'undefined'`. */
  function EntradaDe(m: Mapa, k: Kind, v: VarDecl): (r: Entrada)
    ensures r.tipo == Editor.ConvertirTipo(k)
    ensures v.expresion.None? ==> r.valor == Indefinido
  {
    Entrada(Editor.ConvertirTipo(k), if v.expresion.Some? then EvaluarExpr(m, v.expresion.value) else Indefinido)
  }

  /** The variables of one declaration, each `set` into the map, overwriting an earlier entry. */
  function Declarar(m: Mapa, k: Kind, vs: seq<VarDecl>): (r: Mapa)
    ensures r.Keys == m.Keys + Editor.Ids(vs)
    decreases |vs|
  {
    if |vs| == 0 then m
    else
      var r := Declarar(m[vs[0].id := EntradaDe(m, k, vs[0])], k, vs[1..]);
      assert Editor.Ids(vs) == {vs[0].id} + Editor.Ids(vs[1..]) by { IdsCons(vs); }
      r
  }

  lemma IdsCons(vs: seq<VarDecl>)
    requires |vs| > 0
    ensures Editor.Ids(vs) == {vs[0].id} + Editor.Ids(vs[1..])
  {
    forall x | x in Editor.Ids(vs) ensures x in {vs[0].id} + Editor.Ids(vs[1..]) {
      var w :| w in vs && w.id == x;
      if w != vs[0] {
        var i :| 0 <= i < |vs| && vs[i] == w;
        assert vs[1..][i - 1] == w;
      }
    }
    forall x | x in Editor.Ids(vs[1..]) ensures x in Editor.Ids(vs) {
      var w :| w in vs[1..] && w.id == x;
      assert w in vs;
    }
    assert vs[0] in vs;
  }

  /**
   * One top-level statement: a declaration sets its variables, an assignment to a name the
   * map has replaces only that entry's value, and anything else is not looked into.
   */
  function Visitar(m: Mapa, s: Stmt): (r: Mapa)
    ensures r.Keys == m.Keys + (if s.Declaracion? then Editor.Ids(s.variables) else {})
    ensures s.Asignacion? ==> r == (if s.id in m then m[s.id := m[s.id].(valor := EvaluarExpr(m, s.expresion))] else m)
    ensures !s.Declaracion? && !s.Asignacion? ==> r == m
  {
    match s
    case Declaracion(k, vs) => Declarar(m, k, vs)
    case Asignacion(id, e) => if id in m then m[id := m[id].(valor := EvaluarExpr(m, e))] else m
    case _ => m
  }

  /** The table logic of `actualizarTablaSimbolos`: the `Main` statements in source order. */
  function ActualizarMapa(m: Mapa, ss: seq<Stmt>): (r: Mapa)
    ensures r.Keys == m.Keys + Editor.Declarados(ss)
    decreases |ss|
  {
    if |ss| == 0 then m else ActualizarMapa(Visitar(m, ss[0]), ss[1..])
  }

  // ---------------------------------------------------------------- the whole analysis

  /**
   * What the page ends up showing: a warning for an empty editor, the scanner's errors, the
   * parser's errors, nothing when there is no tree, or the emitted code and the preview.
   * In every case but the last the output box and the preview stay cleared.
   */
  datatype Resultado =
    | Vacio
    | ErroresLexicos(lexicos: seq<LexError>)
    | ErroresSintacticos(sintacticos: seq<Sintactico.SynError>)
    | SinArbol
    | Exito(codigo: string, tabla: Mapa)

  /** `analizarCodigo`: each stage runs only when the one before it reported no error. */
  function AnalizarCodigo(codigo: string): (r: Resultado)
    ensures r.Vacio? <==> |Trim(codigo)| == 0
    ensures !r.Vacio? ==> Etapas(Trim(codigo)) == r
  {
    var c := Trim(codigo);
    if |c| == 0 then Vacio else Etapas(c)
  }

  /** The scanner on the trimmed text; the parser only when it reported nothing. */
  function Etapas(c: string): (r: Resultado)
    ensures !r.Vacio?
    ensures r.ErroresLexicos? <==> |Lexico.Analizar(c).1| > 0
    ensures r.ErroresLexicos? ==> r.lexicos == Lexico.Analizar(c).1
    ensures !r.ErroresLexicos? ==> r == Arbol(Lexico.Analizar(c).0)
  {
    var lex := Lexico.Analizar(c);
    if |lex.1| > 0 then ErroresLexicos(lex.1) else Arbol(lex.0)
  }

  /** The parser; the emitter and the preview only when it reported nothing and built a tree. */
  function Arbol(tokens: seq<Token>): (r: Resultado)
    ensures !r.Vacio? && !r.ErroresLexicos?
    ensures r.ErroresSintacticos? <==> |Sintactico.Analizar(tokens).1| > 0
    ensures r.ErroresSintacticos? ==> r.sintacticos == Sintactico.Analizar(tokens).1
    ensures r.Exito? <==> Sintactico.Analizar(tokens).1 == [] && Sintactico.Analizar(tokens).0.Some?
    ensures r.Exito? ==>
      && r.codigo == Transpilador.TranspilarNavegador(Sintactico.Analizar(tokens).0)
      && r.tabla.Keys == Editor.Declarados(Sintactico.Analizar(tokens).0.value.instrucciones)
  {
    var sin := Sintactico.Analizar(tokens);
    if |sin.1| > 0 then ErroresSintacticos(sin.1)
    else if sin.0.None? then SinArbol
    else Exito(Transpilador.TranspilarNavegador(sin.0), ActualizarMapa(map[], sin.0.value.instrucciones))
  }
}
