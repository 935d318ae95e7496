/** Properties of the symbol table. */
module SimbolosProps {
  import opened Common
  import opened Simbolos

  // ---------------------------------------------------------------- the lookup

  /** `Indice` is the first match: any position that is a match with none before it is it. */
  lemma IndicePrimero(ss: seq<Simbolo>, nombre: string, ambito: string, i: nat)
    requires i < |ss| && Coincide(ss[i], nombre, ambito)
    requires forall j :: 0 <= j < i ==> !Coincide(ss[j], nombre, ambito)
    ensures Indice(ss, nombre, ambito) == Some(i)
  {
  }

  /** Two lists with the same keys, position by position, have the same lookups. */
  lemma MismasClaves(a: seq<Simbolo>, b: seq<Simbolo>, nombre: string, ambito: string)
    requires |a| == |b|
    requires forall i :: 0 <= i < |a| ==> a[i].nombre == b[i].nombre && a[i].ambito == b[i].ambito
    ensures Indice(a, nombre, ambito) == Indice(b, nombre, ambito)
  {
    var r := Indice(a, nombre, ambito);
    if r.Some? {
      IndicePrimero(b, nombre, ambito, r.value);
    } else {
      assert forall j :: 0 <= j < |b| ==> !Coincide(b[j], nombre, ambito) by {
        forall j | 0 <= j < |b| ensures !Coincide(b[j], nombre, ambito) {
          assert !Coincide(a[j], nombre, ambito);
        }
      }
    }
  }

  /** Appending a symbol changes no lookup it does not answer. */
  lemma IndiceAnadir(ss: seq<Simbolo>, x: Simbolo, nombre: string, ambito: string)
    ensures Indice(ss + [x], nombre, ambito) ==
      if Indice(ss, nombre, ambito).Some? then Indice(ss, nombre, ambito)
      else if Coincide(x, nombre, ambito) then Some(|ss|) else None
  {
    var s2 := ss + [x];
    var r := Indice(ss, nombre, ambito);
    if r.Some? {
      IndicePrimero(s2, nombre, ambito, r.value);
    } else if Coincide(x, nombre, ambito) {
      IndicePrimero(s2, nombre, ambito, |ss|);
    } else {
      assert forall j :: 0 <= j < |s2| ==> !Coincide(s2[j], nombre, ambito) by {
        forall j | 0 <= j < |s2| ensures !Coincide(s2[j], nombre, ambito) {
          if j < |ss| { assert s2[j] == ss[j]; }
        }
      }
    }
  }

  // ---------------------------------------------------------------- the invariant

  /** `agregar` keeps at most one symbol per name and scope. */
  lemma AgregarPreservaUnicos(t: Tabla, nombre: string, tipo: TipoTs, valor: Option<Valor>)
    requires Unicos(t.simbolos)
    ensures Unicos(Agregar(t, nombre, tipo, valor).simbolos)
  {
    var r := Agregar(t, nombre, tipo, valor);
    if Indice(t.simbolos, nombre, t.ambitoActual).None? {
      var ss := r.simbolos;
      forall i, j | 0 <= i < j < |ss| ensures !Coincide(ss[j], ss[i].nombre, ss[i].ambito) {
        assert ss[i] == t.simbolos[i];
        if j < |t.simbolos| { assert ss[j] == t.simbolos[j]; }
      }
    }
  }

  /** `actualizar` keeps at most one symbol per name and scope: it changes no key. */
  lemma ActualizarPreservaUnicos(t: Tabla, nombre: string, valor: Valor)
    requires Unicos(t.simbolos)
    ensures Unicos(Actualizar(t, nombre, valor).0.simbolos)
  {
    var ss := Actualizar(t, nombre, valor).0.simbolos;
    forall i, j | 0 <= i < j < |ss| ensures !Coincide(ss[j], ss[i].nombre, ss[i].ambito) {
      assert !Coincide(t.simbolos[j], t.simbolos[i].nombre, t.simbolos[i].ambito);
    }
  }

  // ---------------------------------------------------------------- lookups after a change

  /**
   * After `agregar`, the name is found: the earlier symbol when there was one (the first
   * declaration wins), otherwise the new one with its value or the type's default.
   */
  lemma BuscarTrasAgregar(t: Tabla, nombre: string, tipo: TipoTs, valor: Option<Valor>)
    ensures Buscar(Agregar(t, nombre, tipo, valor), nombre) ==
      if Buscar(t, nombre).Some? then Buscar(t, nombre)
      else Some(Simbolo(nombre, tipo, if valor.Some? then valor.value else ValorPorDefecto(tipo), t.ambitoActual))
  {
    var x := Simbolo(nombre, tipo, if valor.Some? then valor.value else ValorPorDefecto(tipo), t.ambitoActual);
    IndiceAnadir(t.simbolos, x, nombre, t.ambitoActual);
  }

  /** `agregar` of one name leaves the lookup of every other name as it was. */
  lemma AgregarNoTocaOtros(t: Tabla, nombre: string, tipo: TipoTs, valor: Option<Valor>, otro: string)
    requires otro != nombre
    ensures Buscar(Agregar(t, nombre, tipo, valor), otro) == Buscar(t, otro)
  {
    var x := Simbolo(nombre, tipo, if valor.Some? then valor.value else ValorPorDefecto(tipo), t.ambitoActual);
    IndiceAnadir(t.simbolos, x, otro, t.ambitoActual);
  }

  /** After `actualizar`, the name is found with the new value, or is still missing. */
  lemma BuscarTrasActualizar(t: Tabla, nombre: string, valor: Valor)
    ensures Buscar(Actualizar(t, nombre, valor).0, nombre) ==
      if Buscar(t, nombre).Some? then Some(Buscar(t, nombre).value.(valor := valor)) else None
  {
    MismasClaves(Actualizar(t, nombre, valor).0.simbolos, t.simbolos, nombre, t.ambitoActual);
  }

  /** `actualizar` of one name leaves the lookup of every other name as it was. */
  lemma ActualizarNoTocaOtros(t: Tabla, nombre: string, valor: Valor, otro: string)
    requires otro != nombre
    ensures Buscar(Actualizar(t, nombre, valor).0, otro) == Buscar(t, otro)
  {
    var r := Actualizar(t, nombre, valor).0;
    MismasClaves(r.simbolos, t.simbolos, otro, t.ambitoActual);
    var i := Indice(t.simbolos, otro, t.ambitoActual);
    if i.Some? && Indice(t.simbolos, nombre, t.ambitoActual).Some? {
      assert i.value != Indice(t.simbolos, nombre, t.ambitoActual).value;
    }
  }

  /**
   * `buscar` sees only the current scope: a symbol added in another scope is not found once
   * `salirAmbito` is back in `global`.
   */
  lemma AmbitoAislado(t: Tabla, ambito: string, nombre: string, tipo: TipoTs, valor: Option<Valor>)
    requires ambito != Global
    ensures Buscar(SalirAmbito(Agregar(EntrarAmbito(t, ambito), nombre, tipo, valor)), nombre) == Buscar(SalirAmbito(t), nombre)
  {
    var x := Simbolo(nombre, tipo, if valor.Some? then valor.value else ValorPorDefecto(tipo), ambito);
    IndiceAnadir(t.simbolos, x, nombre, Global);
  }

  /** No operation removes a symbol: `agregar` extends the list and `actualizar` keeps its keys. */
  lemma NadaSeBorra(t: Tabla, nombre: string, tipo: TipoTs, valor: Option<Valor>, v: Valor)
    ensures t.simbolos <= Agregar(t, nombre, tipo, valor).simbolos
    ensures Nombres(Actualizar(t, nombre, v).0.simbolos) == Nombres(t.simbolos)
  {
    var a := Actualizar(t, nombre, v).0.simbolos;
    forall n | n in Nombres(t.simbolos) ensures n in Nombres(a) {
      var i :| 0 <= i < |t.simbolos| && t.simbolos[i].nombre == n;
      assert a[i].nombre == n;
    }
    forall n | n in Nombres(a) ensures n in Nombres(t.simbolos) {
      var i :| 0 <= i < |a| && a[i].nombre == n;
      assert t.simbolos[i].nombre == n;
    }
  }
}
