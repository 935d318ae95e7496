/**
 * The tree-to-TypeScript emitter of the AST-based pipeline (`Transpilador`), in both of its
 * copies: `src/traduccion/transpilador.ts` and the one inside `public/editor.js`.  The copies
 * use the same templates and differ only in which `for` initialisers they recognise.
 */
module Transpilador {
  import opened Common
  import opened Lexico
  import opened Ast

  /** Which copy of the emitter. */
  datatype Copia = Servidor | Navegador

  /** The four indentation spaces put before each statement of an `if`/`else`/`for` body. */
  const Sangria: string := "    "

  // ---------------------------------------------------------------- types and expressions

  /** The TypeScript type written for a C# type keyword; every other kind maps to `any`. */
  function TipoTs(k: Kind): (r: string)
    ensures r == "number" <==> k.IntType? || k.FloatType?
    ensures r == "string" <==> k.StringType? || k.CharType?
    ensures r == "boolean" <==> k.BoolType?
    ensures r == "any" <==> !EsTipoDato(k)
  {
    if k.IntType? || k.FloatType? then "number"
    else if k.StringType? || k.CharType? then "string"
    else if k.BoolType? then "boolean"
    else "any"
  }

  /**
   * The text of a leaf: an identifier's name, a number's lexeme, a character between single
   * quotes, a string between double quotes, and `true`/`false`; nothing is escaped.
   */
  function Literal(e: Expr): string {
    match e
    case ExpIdentificador(n) => n
    case ExpNumero(l, _) => l
    case ExpCaracter(c) => "'" + c + "'"
    case ExpCadena(v) => "\"" + v + "\""
    case ExpBooleano(b) => if b then "true" else "false"
    case _ => ""
  }

  /** `transpilarExpresion`: a binary node is `left op right` with single spaces and no parentheses. */
  function Expresion(e: Expr): string {
    match e
    case ExpRelacional(l, op, d) => Expresion(l) + " " + op + " " + Expresion(d)
    case ExpAritmetica(l, op, d) => Expresion(l) + " " + op + " " + Expresion(d)
    case _ => Literal(e)
  }

  /** The leaves and operators of an expression, left to right. */
  function Inorden(e: Expr): (r: seq<string>)
    ensures |r| > 0
  {
    match e
    case ExpRelacional(l, op, d) => Inorden(l) + [op] + Inorden(d)
    case ExpAritmetica(l, op, d) => Inorden(l) + [op] + Inorden(d)
    case _ => [Literal(e)]
  }

  // ---------------------------------------------------------------- statements

  /** One `id: T[ = e]` of a declaration; no value is made up for a variable without one. */
  function VariableTs(tipo: string, v: VarDecl): string {
    v.id + ": " + tipo + (if v.expresion.Some? then " = " + Expresion(v.expresion.value) else "")
  }

  function VariablesTs(tipo: string, vs: seq<VarDecl>): (r: seq<string>)
    ensures |r| == |vs|
  {
    seq(|vs|, i requires 0 <= i < |vs| => VariableTs(tipo, vs[i]))
  }

  /** `transpilarDeclaracion`: `let `, the variables joined by `, `, and `;`. */
  function DeclaracionTs(t: Kind, vs: seq<VarDecl>): (r: string)
    ensures |r| >= 5 && r[..4] == "let " && r[|r| - 1] == ';'
  {
    "let " + Join(VariablesTs(TipoTs(t), vs), ", ") + ";"
  }

  /**
   * The first clause of a `for`.  The server copy knows only the `DECLARACION`/`ASIGNACION`
   * statement kinds (and writes a declaration without `let`); the browser copy knows only
   * `DECLARACION_FOR`/`ASIGNACION_FOR`.  Any other initialiser writes nothing.
   */
  function InicioTs(c: Copia, ini: ForInit): (r: string)
    ensures c.Servidor? && !ini.InicioInstruccion? ==> r == ""
    ensures c.Navegador? && ini.InicioInstruccion? ==> r == ""
  {
    match c
    case Servidor =>
      (match ini
       case InicioInstruccion(Declaracion(t, vs)) => Join(VariablesTs(TipoTs(t), vs), ", ")
       case InicioInstruccion(Asignacion(id, e)) => id + " = " + Expresion(e)
       case _ => "")
    case Navegador =>
      (match ini
       case DeclaracionFor(t, id, e) => "let " + id + ": " + TipoTs(t) + " = " + Expresion(e)
       case AsignacionFor(id, e) => id + " = " + Expresion(e)
       case _ => "")
  }

  /**
   * `transpilarInstruccion`: every statement kind the parser builds ends in exactly one line
   * break, after a `;` or a `}`.
   */
  function Instruccion(c: Copia, s: Stmt): (r: string)
    ensures |r| >= 2 && r[|r| - 1] == '\n' && (r[|r| - 2] == ';' || r[|r| - 2] == '}')
    decreases s
  {
    match s
    case Declaracion(t, vs) => DeclaracionTs(t, vs) + "\n"
    case Asignacion(id, e) => id + " = " + Expresion(e) + ";\n"
    case Imprimir(e) => "console.log(" + Expresion(e) + ");\n"
    case Si(k, ss, o) => "if (" + Expresion(k) + ") {\n" + Lista(c, ss, Sangria) + "}" + SinoTs(c, o) + "\n"
    case Para(ini, k, v, inc, ss) =>
      "for (" + InicioTs(c, ini) + "; " + Expresion(k) + "; " + v + (if inc then "++" else "--") + ") {\n"
      + Lista(c, ss, Sangria) + "}\n"
  }

  /** The optional ` else {` … `}` of an `if`. */
  function SinoTs(c: Copia, o: Sino): string
    decreases o
  {
    match o
    case SinSino => ""
    case ConSino(ss) => " else {\n" + Lista(c, ss, Sangria) + "}"
  }

  /**
   * The statements of a list, each prefixed by `sangria` (the empty text at the top level,
   * four spaces inside a body).  Only the first line of a statement gets the prefix.
   */
  function Lista(c: Copia, ss: seq<Stmt>, sangria: string): string
    decreases ss
  {
    if |ss| == 0 then "" else sangria + Instruccion(c, ss[0]) + Lista(c, ss[1..], sangria)
  }

  /** `Transpilador.transpilar` of the server: the `Main` body, in order; the wrappers write nothing. */
  function Transpilar(p: Programa): string {
    Lista(Servidor, p.instrucciones, "")
  }

  /** `Transpilador.transpilar` of the browser copy, which also accepts a missing tree. */
  function TranspilarNavegador(ast: Option<Programa>): (r: string)
    ensures ast.None? ==> r == ""
  {
    if ast.None? then "" else Lista(Navegador, ast.value.instrucciones, "")
  }
}
