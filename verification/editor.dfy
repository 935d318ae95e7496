/**
 * The symbol-table preview of the server-backed editor (`src/interfaz/editor.ts`):
 * `convertirTipo`, `evaluarExpresion`, and the table logic of `actualizarTablaSimbolos`,
 * which walks the top-level `Main` statements into a `TablaSimbolos`.
 */
module Editor {
  import opened Common
  import opened Lexico
  import opened Ast
  import opened Simbolos
  import Transpilador

  /** `convertirTipo`: the same type names the emitter writes for a declaration. */
  function ConvertirTipo(k: Kind): (r: TipoTs)
    ensures NombreTipo(r) == Transpilador.TipoTs(k)
  {
    if k.IntType? || k.FloatType? then TsNumber
    else if k.StringType? || k.CharType? then TsString
    else if k.BoolType? then TsBoolean
    else TsAny
  }

  /** `evaluarExpresion` on a missing expression: `null`. */
  function Evaluar(t: Tabla, e: Option<Expr>): (v: Valor)
    ensures e.None? ==> v == VNulo
  {
    if e.None? then VNulo else EvaluarExpr(t, e.value)
  }

  /**
   * `evaluarExpresion` on a node: literals as text (a number as itself), an identifier's
   * current value or `'null'`, arithmetic fully parenthesised, and `'null'` for a comparison.
   */
  function EvaluarExpr(t: Tabla, e: Expr): Valor
    decreases e
  {
    match e
    case ExpNumero(l, _) => VNumero(l)
    case ExpCadena(s) => VTexto("\"" + s + "\"")
    case ExpCaracter(c) => VTexto("'" + c + "'")
    case ExpBooleano(b) => VTexto(if b then "true" else "false")
    case ExpIdentificador(n) => if Buscar(t, n).Some? then Buscar(t, n).value.valor else VTexto("null")
    case ExpAritmetica(l, op, d) =>
      VTexto("(" + Interpolar(EvaluarExpr(t, l)) + " " + op + " " + Interpolar(EvaluarExpr(t, d)) + ")")
    case ExpRelacional(_, _, _) => VTexto("null")
  }

  /** The variables of one declaration, in order, each evaluated against the table so far. */
  function Declarar(t: Tabla, k: Kind, vs: seq<VarDecl>): (r: Tabla)
    ensures r.ambitoActual == t.ambitoActual
    decreases |vs|
  {
    if |vs| == 0 then t
    else
      var v := if vs[0].expresion.Some? then Some(EvaluarExpr(t, vs[0].expresion.value)) else None;
      Declarar(Agregar(t, vs[0].id, ConvertirTipo(k), v), k, vs[1..])
  }

  /**
   * One top-level statement: a declaration adds its variables, an assignment to a known
   * name replaces its value, and every other statement is not looked into.
   */
  function Visitar(t: Tabla, s: Stmt): (r: Tabla)
    ensures r.ambitoActual == t.ambitoActual
  {
    match s
    case Declaracion(k, vs) => Declarar(t, k, vs)
    case Asignacion(id, e) => if Buscar(t, id).Some? then Actualizar(t, id, EvaluarExpr(t, e)).0 else t
    case _ => t
  }

  /** The table logic of `actualizarTablaSimbolos`: the `Main` statements, in source order. */
  function ActualizarTabla(t: Tabla, ss: seq<Stmt>): (r: Tabla)
    ensures r.ambitoActual == t.ambitoActual
    decreases |ss|
  {
    if |ss| == 0 then t else ActualizarTabla(Visitar(t, ss[0]), ss[1..])
  }

  /** The names a statement list declares at its top level. */
  function Declarados(ss: seq<Stmt>): set<string>
    decreases |ss|
  {
    if |ss| == 0 then {}
    else (if ss[0].Declaracion? then Ids(ss[0].variables) else {}) + Declarados(ss[1..])
  }

  function Ids(vs: seq<VarDecl>): set<string> {
    set v | v in vs :: v.id
  }

  /** Drops a `(` or `)` wherever it is. */
  function SinParentesis(s: string): string
    decreases |s|
  {
    if |s| == 0 then ""
    else (if s[0] == '(' || s[0] == ')' then "" else [s[0]]) + SinParentesis(s[1..])
  }

  /** An expression with no identifier in it. */
  predicate SinIdentificadores(e: Expr) {
    match e
    case ExpIdentificador(_) => false
    case ExpAritmetica(l, _, d) => SinIdentificadores(l) && SinIdentificadores(d)
    case ExpRelacional(l, _, d) => SinIdentificadores(l) && SinIdentificadores(d)
    case _ => true
  }
}
