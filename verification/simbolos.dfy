/**
 * The symbol table of the AST-based pipeline (`TablaSimbolos`, `src/modelos/simbolos.ts`):
 * a list of symbols in insertion order and a current scope name.
 */
module Simbolos {
  import opened Common

  /** The four TypeScript type names a symbol can carry. */
  datatype TipoTs = TsNumber | TsString | TsBoolean | TsAny

  function NombreTipo(t: TipoTs): string {
    match t
    case TsNumber => "number"
    case TsString => "string"
    case TsBoolean => "boolean"
    case TsAny => "any"
  }

  /**
   * The JavaScript values a symbol holds in this program: a number (kept as its lexeme),
   * a string, a boolean, or `null`.
   */
  datatype Valor = VNumero(lexema: string) | VTexto(s: string) | VBooleano(b: bool) | VNulo

  /** A value put into a template literal, `${v}`. */
  function Interpolar(v: Valor): string {
    match v
    case VNumero(l) => l
    case VTexto(s) => s
    case VBooleano(b) => if b then "true" else "false"
    case VNulo => "null"
  }

  datatype Simbolo = Simbolo(nombre: string, tipo: TipoTs, valor: Valor, ambito: string)

  datatype Tabla = Tabla(simbolos: seq<Simbolo>, ambitoActual: string)

  const Global: string := "global"

  /** `new TablaSimbolos()`: no symbols, in the global scope. */
  function Nueva(): (t: Tabla)
    ensures |t.simbolos| == 0 && t.ambitoActual == Global
  {
    Tabla([], Global)
  }

  /** `getValorPorDefecto`: `0`, `''`, `false`, and `null` for `any`. */
  function ValorPorDefecto(t: TipoTs): (v: Valor)
    ensures t.TsAny? <==> v.VNulo?
  {
    match t
    case TsNumber => VNumero("0")
    case TsString => VTexto("")
    case TsBoolean => VBooleano(false)
    case TsAny => VNulo
  }

  /** The lookup key of the table: the name within a scope. */
  predicate Coincide(s: Simbolo, nombre: string, ambito: string) {
    s.nombre == nombre && s.ambito == ambito
  }

  /** `find`: the position of the first symbol with that name in that scope. */
  function Indice(ss: seq<Simbolo>, nombre: string, ambito: string): (r: Option<nat>)
    ensures r.Some? ==> r.value < |ss| && Coincide(ss[r.value], nombre, ambito)
    ensures r.Some? ==> forall j :: 0 <= j < r.value ==> !Coincide(ss[j], nombre, ambito)
    ensures r.None? ==> forall j :: 0 <= j < |ss| ==> !Coincide(ss[j], nombre, ambito)
    decreases |ss|
  {
    if |ss| == 0 then None
    else if Coincide(ss[0], nombre, ambito) then Some(0)
    else
      match Indice(ss[1..], nombre, ambito)
      case None => None
      case Some(i) => Some(i + 1)
  }

  /**
   * `agregar`: nothing changes when the name is already in the current scope; otherwise one
   * symbol is appended, with the given value or, when it is `undefined`, the type's default.
   */
  function Agregar(t: Tabla, nombre: string, tipo: TipoTs, valor: Option<Valor>): (r: Tabla)
    ensures (exists i :: 0 <= i < |t.simbolos| && Coincide(t.simbolos[i], nombre, t.ambitoActual)) ==> r == t
    ensures (forall i :: 0 <= i < |t.simbolos| ==> !Coincide(t.simbolos[i], nombre, t.ambitoActual)) ==>
      && r.ambitoActual == t.ambitoActual
      && r.simbolos == t.simbolos + [Simbolo(nombre, tipo, if valor.Some? then valor.value else ValorPorDefecto(tipo), t.ambitoActual)]
  {
    if Indice(t.simbolos, nombre, t.ambitoActual).Some? then t
    else
      var v := if valor.Some? then valor.value else ValorPorDefecto(tipo);
      t.(simbolos := t.simbolos + [Simbolo(nombre, tipo, v, t.ambitoActual)])
  }

  /**
   * `actualizar`: true exactly when the name is in the current scope; then the first such
   * symbol gets the new value and every other symbol, and every other field, is unchanged.
   */
  function Actualizar(t: Tabla, nombre: string, valor: Valor): (r: (Tabla, bool))
    ensures r.1 <==> exists i :: 0 <= i < |t.simbolos| && Coincide(t.simbolos[i], nombre, t.ambitoActual)
    ensures r.0.ambitoActual == t.ambitoActual && |r.0.simbolos| == |t.simbolos|
    ensures forall i :: 0 <= i < |t.simbolos| ==>
      r.0.simbolos[i] == if r.1 && i == Indice(t.simbolos, nombre, t.ambitoActual).value
        then t.simbolos[i].(valor := valor) else t.simbolos[i]
  {
    match Indice(t.simbolos, nombre, t.ambitoActual)
    case None => (t, false)
    case Some(i) => (t.(simbolos := t.simbolos[i := t.simbolos[i].(valor := valor)]), true)
  }

  /** `buscar`: the first symbol with the name in the current scope, or `undefined`. */
  function Buscar(t: Tabla, nombre: string): (r: Option<Simbolo>)
    ensures r.Some? <==> exists i :: 0 <= i < |t.simbolos| && Coincide(t.simbolos[i], nombre, t.ambitoActual)
    ensures r.Some? ==> r.value in t.simbolos && Coincide(r.value, nombre, t.ambitoActual)
  {
    match Indice(t.simbolos, nombre, t.ambitoActual)
    case None => None
    case Some(i) => Some(t.simbolos[i])
  }

  /** `entrarAmbito`: the current scope name is replaced; there is no stack of scopes. */
  function EntrarAmbito(t: Tabla, ambito: string): (r: Tabla)
    ensures r.simbolos == t.simbolos && r.ambitoActual == ambito
  {
    t.(ambitoActual := ambito)
  }

  /** `salirAmbito`: back to `global`, whatever scope was entered before. */
  function SalirAmbito(t: Tabla): (r: Tabla)
    ensures r.simbolos == t.simbolos && r.ambitoActual == Global
  {
    t.(ambitoActual := Global)
  }

  /** `obtenerSimbolos`: the symbols, in insertion order. */
  function ObtenerSimbolos(t: Tabla): seq<Simbolo> {
    t.simbolos
  }

  /** At most one symbol per name and scope. */
  predicate Unicos(ss: seq<Simbolo>) {
    forall i, j :: 0 <= i < j < |ss| ==> !Coincide(ss[j], ss[i].nombre, ss[i].ambito)
  }

  /** The names of the symbols. */
  function Nombres(ss: seq<Simbolo>): set<string> {
    set s | s in ss :: s.nombre
  }
}
