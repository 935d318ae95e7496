/**
 * The tree the AST-based parser builds (`NodoAST`), one constructor per node kind it creates,
 * plus the `DECLARACION`/`ASIGNACION` for-initialisers that the unused variant parser
 * builds and the TypeScript emitter expects.
 */
module Ast {
  import opened Common
  import opened Lexico

  /** Expression nodes.  `ExpNumero` keeps the scanned lexeme and whether it was `DECIMAL`. */
  datatype Expr =
    | ExpRelacional(izq: Expr, op: string, der: Expr)
    | ExpAritmetica(izq: Expr, op: string, der: Expr)
    | ExpIdentificador(nombre: string)
    | ExpNumero(lexema: string, decimal: bool)
    | ExpCaracter(c: string)
    | ExpCadena(v: string)
    | ExpBooleano(b: bool)

  /** One `id [= expr]` of a declaration; `expresion` is `null` without an initialiser. */
  datatype VarDecl = VarDecl(id: string, expresion: Option<Expr>)

  /** The first clause of a `for`. */
  datatype ForInit =
    | DeclaracionFor(tipoVariable: Kind, id: string, expresion: Expr)
    | AsignacionFor(id: string, expresion: Expr)
    | InicioInstruccion(instruccion: Stmt)

  datatype Stmt =
    | Declaracion(tipoVariable: Kind, variables: seq<VarDecl>)
    | Asignacion(id: string, expresion: Expr)
    | Imprimir(expresion: Expr)
    | Si(condicion: Expr, instrucciones: seq<Stmt>, sino: Sino)
    | Para(inicio: ForInit, condicion: Expr, variable: string, incremento: bool, instrucciones: seq<Stmt>)

  /** The `else` block of an `IF`, which is `null` when there is none. */
  datatype Sino = SinSino | ConSino(bloque: seq<Stmt>)

  /** `PROGRAMA` with its `CLASE` and `BLOCK_MAIN` flattened: class name, `args` name, body. */
  datatype Programa = Programa(nombre: string, args: string, instrucciones: seq<Stmt>)

  /** The classes of operator text the parser tells apart. */
  datatype ClaseOp = Relacional | Aditivo | Multiplicativo | Igual | IncDec

  /**
   * The operator texts of each class: `== != < > <= >=`, `+ -`, `* /`, `=`, and `++ --`.
   * Written over characters, which describes the same sets of strings.
   */
  predicate OperadorDe(n: ClaseOp, v: string) {
    match n
    case Relacional =>
      || (|v| == 1 && (v[0] == '<' || v[0] == '>'))
      || (|v| == 2 && v[1] == '=' && (v[0] == '=' || v[0] == '!' || v[0] == '<' || v[0] == '>'))
    case Aditivo => |v| == 1 && (v[0] == '+' || v[0] == '-')
    case Multiplicativo => |v| == 1 && (v[0] == '*' || v[0] == '/')
    case Igual => |v| == 1 && v[0] == '='
    case IncDec => |v| == 2 && v[1] == v[0] && (v[0] == '+' || v[0] == '-')
  }

  /** The five type keywords that start a declaration: `int float char bool string`. */
  predicate EsTipoDato(k: Kind) {
    k.IntType? || k.FloatType? || k.CharType? || k.BoolType? || k.StringType?
  }

  /** An additive-level expression: arithmetic over factors, with no relational node inside. */
  predicate Aritmetico(e: Expr) {
    match e
    case ExpRelacional(_, _, _) => false
    case ExpAritmetica(l, op, r) => (OperadorDe(Aditivo, op) || OperadorDe(Multiplicativo, op)) && Aritmetico(l) && Aritmetico(r)
    case _ => true
  }

  /** A left-leaning chain of relational comparisons over additive expressions. */
  predicate ExprBienFormada(e: Expr) {
    match e
    case ExpRelacional(l, op, r) => OperadorDe(Relacional, op) && ExprBienFormada(l) && Aritmetico(r)
    case _ => Aritmetico(e)
  }

  /** No `IMPRIMIR` node anywhere in the statements. */
  predicate SinImprimir(ss: seq<Stmt>) {
    forall s :: s in ss ==> SinImprimirEn(s)
  }

  predicate SinImprimirEn(s: Stmt) {
    match s
    case Imprimir(_) => false
    case Si(_, c, sino) => SinImprimir(c) && SinImprimirSino(sino)
    case Para(_, _, _, _, c) => SinImprimir(c)
    case _ => true
  }

  predicate SinImprimirSino(o: Sino) {
    match o
    case SinSino => true
    case ConSino(ss) => SinImprimir(ss)
  }

  /** Every `for` initialiser is a `DECLARACION_FOR` or an `ASIGNACION_FOR`. */
  predicate IniciosFor(ss: seq<Stmt>) {
    forall s :: s in ss ==> IniciosForEn(s)
  }

  predicate IniciosForEn(s: Stmt) {
    match s
    case Si(_, c, sino) => IniciosFor(c) && IniciosForSino(sino)
    case Para(ini, _, _, _, c) => !ini.InicioInstruccion? && IniciosFor(c)
    case _ => true
  }

  predicate IniciosForSino(o: Sino) {
    match o
    case SinSino => true
    case ConSino(ss) => IniciosFor(ss)
  }
}
