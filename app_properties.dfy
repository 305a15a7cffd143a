/** What the app's own tables make of the income calculator. */
module AppProperties {
  import opened PyDict
  import opened App

  /** Every key of `d` is priced under location `l`. */
  predicate EnLugar(d: Dict<(string, string), int>, l: string)
  {
    forall i :: 0 <= i < |d| ==> d[i].0.0 == l
  }

  /** No key of `d` is priced under location `l`. */
  predicate FueraDeLugar(d: Dict<(string, string), int>, l: string)
  {
    forall i :: 0 <= i < |d| ==> d[i].0.0 != l
  }

  /** Each group of the price table holds the prices of one location. */
  lemma GruposDePrecios()
    ensures EnLugar(PRECIOS_LIBEDUL, "LIBEDUL")
    ensures EnLugar(PRECIOS_AMAR_AUSTRAL, "AMAR AUSTRAL")
    ensures EnLugar(PRECIOS_CPM, "CPM")
    ensures EnLugar(PRECIOS_DOMICILIO, "DOMICILIO")
    ensures EnLugar(PRECIOS_ALERCE, "ALERCE")
  {
  }

  /** No group repeats an item. */
  lemma GruposSinRepetir()
    ensures UniqueKeys(PRECIOS_LIBEDUL)
    ensures UniqueKeys(PRECIOS_AMAR_AUSTRAL)
    ensures UniqueKeys(PRECIOS_CPM)
    ensures UniqueKeys(PRECIOS_DOMICILIO)
    ensures UniqueKeys(PRECIOS_ALERCE)
  {
  }

  /** Appending a group of another location keeps the keys unique. */
  lemma AgregarGrupo(a: Dict<(string, string), int>, g: Dict<(string, string), int>, l: string)
    requires UniqueKeys(a) && FueraDeLugar(a, l)
    requires UniqueKeys(g) && EnLugar(g, l)
    ensures UniqueKeys(a + g)
  {
    UniqueKeysConcat(a, g);
  }

  /** No table of the app repeats a key. */
  lemma PreciosBaseUniqueKeys()
    ensures UniqueKeys(PRECIOS_BASE)
  {
    GruposDePrecios();
    GruposSinRepetir();
    var g2 := PRECIOS_LIBEDUL + PRECIOS_AMAR_AUSTRAL;
    var g3 := g2 + PRECIOS_CPM;
    var g4 := g3 + PRECIOS_DOMICILIO;
    AgregarGrupo(PRECIOS_LIBEDUL, PRECIOS_AMAR_AUSTRAL, "AMAR AUSTRAL");
    AgregarGrupo(g2, PRECIOS_CPM, "CPM");
    AgregarGrupo(g3, PRECIOS_DOMICILIO, "DOMICILIO");
    AgregarGrupo(g4, PRECIOS_ALERCE, "ALERCE");
  }

  lemma SmallTablesUniqueKeys()
    ensures UniqueKeys(DESCUENTOS_LUGAR) && UniqueKeys(COMISIONES_PAGO)
  {
  }

  lemma DescuentosLugarMap()
    ensures ToMap(DESCUENTOS_LUGAR) == map["LIBEDUL" := 0, "ALERCE" := 0, "DOMICILIO" := 0, "CPM" := 14610]
  {
  }

  lemma ComisionesPagoMap()
    ensures ToMap(COMISIONES_PAGO) == map["EFECTIVO" := 0.0, "TRANSFERENCIA" := 0.0, "TARJETA" := 0.05]
  {
  }

  /** The payment methods the form offers are the commission table's keys,
      in its order, and each has a rate. */
  lemma MetodosDeLaApp()
    ensures METODOS_PAGO == ["EFECTIVO", "TRANSFERENCIA", "TARJETA"]
    ensures forall m :: m in METODOS_PAGO <==> m in ToMap(COMISIONES_PAGO)
  {
    ToMapKeys(COMISIONES_PAGO);
  }
}

/** Lemmas about the calculator. */
module IngresoProperties {
  import opened PyDict
  import opened PyDate
  import opened App
  import opened AppProperties

  /** With the app's tables the fixed discount is 8000 at AMAR AUSTRAL on
      Tuesdays, 6500 there on Fridays, 14610 at CPM and 0 everywhere else,
      AMAR AUSTRAL on its other days included. */
  lemma DescuentoConLasTablasDeLaApp(
    lugar: string, item: string, metodoPago: string, descAdicionalManual: int,
    fecha: Date, valorBrutoOverride: Option<int>)
    ensures CalcularIngreso(REGLAS, lugar, item, metodoPago, descAdicionalManual, fecha, valorBrutoOverride).descFijoLugar
            == if lugar == AMAR_AUSTRAL && Weekday(fecha) == MARTES then 8000
               else if lugar == AMAR_AUSTRAL && Weekday(fecha) == VIERNES then 6500
               else if lugar == "CPM" then 14610
               else 0
  {
    DescuentosLugarMap();
  }

  /** Every commission rate is a fraction between 0 and 1. */
  predicate TasasValidas(comisiones: Dict<string, real>)
  {
    forall i :: 0 <= i < |comisiones| ==> 0.0 <= comisiones[i].1 <= 1.0
  }

  lemma TasasDeLaApp()
    ensures TasasValidas(COMISIONES_PAGO)
  {
  }

  /** The rate `Get` finds in a table of valid rates is itself valid. */
  lemma TasaAcotada(comisiones: Dict<string, real>, metodoPago: string)
    requires TasasValidas(comisiones)
    ensures 0.0 <= ValueOr(ToMap(comisiones), metodoPago, 0.0) <= 1.0
  {
    var tasa := Get(comisiones, metodoPago, 0.0);
    GetIsEntryOrDefault(comisiones, metodoPago, 0.0);
    if tasa != 0.0 {
      var i :| 0 <= i < |comisiones| && comisiones[i].0 == metodoPago && comisiones[i].1 == tasa;
      assert 0.0 <= comisiones[i].1 <= 1.0;
    }
  }

  lemma FraccionAcotada(g: real, t: real)
    requires g >= 0.0 && 0.0 <= t <= 1.0
    ensures 0.0 <= g * t <= g
  {
  }

  /** When every rate lies in [0, 1], the commission on a non-negative gross
      lies between 0 and the gross. */
  lemma ComisionAcotada(
    reglas: Reglas, lugar: string, item: string, metodoPago: string, descAdicionalManual: int,
    fecha: Date, valorBrutoOverride: Option<int>)
    requires TasasValidas(reglas.comisiones)
    ensures var r := CalcularIngreso(reglas, lugar, item, metodoPago, descAdicionalManual, fecha, valorBrutoOverride);
            r.valorBruto >= 0 ==> 0.0 <= r.descTarjeta <= r.valorBruto as real
  {
    var r := CalcularIngreso(reglas, lugar, item, metodoPago, descAdicionalManual, fecha, valorBrutoOverride);
    var tasa := ValueOr(ToMap(reglas.comisiones), metodoPago, 0.0);
    var g := r.valorBruto as real;
    assert r.descTarjeta == g * tasa;
    TasaAcotada(reglas.comisiones, metodoPago);
    if g >= 0.0 {
      FraccionAcotada(g, tasa);
    }
  }

  /** The calculator charges each priced pair its listed price. */
  lemma PrecioDeCadaEntrada(i: int, metodoPago: string, descAdicionalManual: int, fecha: Date)
    requires 0 <= i < |PRECIOS_BASE|
    ensures CalcularIngreso(REGLAS, PRECIOS_BASE[i].0.0, PRECIOS_BASE[i].0.1, metodoPago,
                            descAdicionalManual, fecha, None).valorBruto
            == PRECIOS_BASE[i].1
  {
    PreciosBaseUniqueKeys();
    ToMapEntry(PRECIOS_BASE, i);
  }

  lemma EjemploLibedulTarjeta(fecha: Date)
    ensures CalcularIngreso(REGLAS, "LIBEDUL", "PACIENTE", "TARJETA", 0, fecha, None)
            == Ingreso(4500, 0, 225.0, 4275.0)
  {
    assert PRECIOS_BASE[0] == (("LIBEDUL", "PACIENTE"), 4500);
    PrecioDeCadaEntrada(0, "TARJETA", 0, fecha);
    DescuentosLugarMap();
    ComisionesPagoMap();
  }

  lemma EjemploCpmEfectivo(fecha: Date)
    ensures CalcularIngreso(REGLAS, "CPM", "PACIENTE", "EFECTIVO", 0, fecha, None)
            == Ingreso(30000, 14610, 0.0, 15390.0)
  {
    var r := CalcularIngreso(REGLAS, "CPM", "PACIENTE", "EFECTIVO", 0, fecha, None);
    assert r.valorBruto == 30000 by {
      assert PRECIOS_BASE[12] == (("CPM", "PACIENTE"), 30000);
      PrecioDeCadaEntrada(12, "EFECTIVO", 0, fecha);
    }
    assert r.descTarjeta == 0.0 by {
      ComisionesPagoMap();
    }
    DescuentosLugarMap();
  }

  /** A payment method missing from the app's table pays no commission. */
  lemma MetodoDesconocidoSinComision(
    lugar: string, item: string, metodoPago: string, descAdicionalManual: int,
    fecha: Date, valorBrutoOverride: Option<int>)
    requires metodoPago != "EFECTIVO" && metodoPago != "TRANSFERENCIA" && metodoPago != "TARJETA"
    ensures CalcularIngreso(REGLAS, lugar, item, metodoPago, descAdicionalManual, fecha, valorBrutoOverride).descTarjeta
            == 0.0
  {
    ComisionesPagoMap();
  }

  /** Tuesday 2 January 2024, Wednesday the 3rd and Friday the 5th. */
  lemma Semana2024()
    ensures Weekday(FromCivil(YMD(2024, 1, 2))) == MARTES
    ensures Weekday(FromCivil(YMD(2024, 1, 3))) == 2
    ensures Weekday(FromCivil(YMD(2024, 1, 5))) == VIERNES
  {
    KnownWeekday();
    NextDayWeekday(YMD(2024, 1, 1));
    NextDayWeekday(YMD(2024, 1, 2));
    NextDayWeekday(YMD(2024, 1, 3));
    NextDayWeekday(YMD(2024, 1, 4));
  }

  /** A missed session at AMAR AUSTRAL on a Tuesday: nothing is billed but
      the Tuesday discount still applies, so the net is negative. */
  lemma EjemploFaltoMartes()
    ensures CalcularIngreso(REGLAS, "AMAR AUSTRAL", "FALTO", "EFECTIVO", 0, FromCivil(YMD(2024, 1, 2)), None)
            == Ingreso(0, 8000, 0.0, -8000.0)
  {
    Semana2024();
    assert PRECIOS_BASE[10] == (("AMAR AUSTRAL", "FALTO"), 0);
    PrecioDeCadaEntrada(10, "EFECTIVO", 0, FromCivil(YMD(2024, 1, 2)));
    ComisionesPagoMap();
  }

  /** AMAR AUSTRAL by card on a Friday: the Friday discount, and a commission
      of 5% of the gross, not of the discounted amount. */
  lemma EjemploAmarAustralViernes()
    ensures CalcularIngreso(REGLAS, "AMAR AUSTRAL", "PACIENTE", "TARJETA", 0, FromCivil(YMD(2024, 1, 5)), None)
            == Ingreso(30000, 6500, 1500.0, 22000.0)
  {
    Semana2024();
    assert PRECIOS_BASE[6] == (("AMAR AUSTRAL", "PACIENTE"), 30000);
    PrecioDeCadaEntrada(6, "TARJETA", 0, FromCivil(YMD(2024, 1, 5)));
    ComisionesPagoMap();
  }

  /** Tables in which AMAR AUSTRAL has a discount entry of its own and is
      also a commission key. */
  const REGLAS_AMAR := Reglas(
    [(("AMAR AUSTRAL", "PACIENTE"), 30000)], [("AMAR AUSTRAL", 10000)], [("AMAR AUSTRAL", 0.05)])

  /** The Tuesday value replaces the table's 10000 rather than adding to it;
      on a Wednesday the table's value applies. */
  lemma EjemploOverrideReemplazaTabla()
    ensures CalcularIngreso(REGLAS_AMAR, "AMAR AUSTRAL", "PACIENTE", "AMAR AUSTRAL", 0, FromCivil(YMD(2024, 1, 2)), None)
            == Ingreso(30000, 8000, 1500.0, 20500.0)
    ensures CalcularIngreso(REGLAS_AMAR, "AMAR AUSTRAL", "PACIENTE", "AMAR AUSTRAL", 0, FromCivil(YMD(2024, 1, 3)), None)
            == Ingreso(30000, 10000, 1500.0, 18500.0)
  {
    Semana2024();
  }

  /** The gross override and the manual adjustment: the override is charged
      as given, and the adjustment comes off the net. */
  lemma EjemploOverrideYAjuste(fecha: Date)
    ensures CalcularIngreso(REGLAS, "LIBEDUL", "PACIENTE", "TARJETA", 1000, fecha, Some(6000))
            == Ingreso(6000, 0, 300.0, 4700.0)
  {
    DescuentosLugarMap();
    ComisionesPagoMap();
  }
}

/** Lemmas about the two lists the form offers. */
module FormularioProperties {
  import opened PyDict
  import opened PyDate
  import PyStr
  import opened App
  import opened AppProperties

  /** Whatever item the form offers for a location has a price there, so
      the calculator never falls back to the default gross of 0 for it. */
  lemma ItemOfrecidoTienePrecio(
    reglas: Reglas, lugar: string, item: string, metodoPago: string, descAdicionalManual: int, fecha: Date)
    requires item in ItemsFiltrados(reglas.precios, lugar)
    ensures (lugar, item) in ToMap(reglas.precios)
    ensures CalcularIngreso(reglas, lugar, item, metodoPago, descAdicionalManual, fecha, None).valorBruto
            == ToMap(reglas.precios)[(lugar, item)]
  {
    ItemsFiltradosSpec(reglas.precios, lugar);
  }

  /** Each priced pair is offered in the item list of its location, once. */
  lemma ItemDeCadaEntrada(i: int)
    requires 0 <= i < |PRECIOS_BASE|
    ensures PRECIOS_BASE[i].0.1 in ItemsFiltrados(PRECIOS_BASE, PRECIOS_BASE[i].0.0)
    ensures Distinct(ItemsFiltrados(PRECIOS_BASE, PRECIOS_BASE[i].0.0))
  {
    PreciosBaseUniqueKeys();
    ToMapEntry(PRECIOS_BASE, i);
    ItemsFiltradosSpec(PRECIOS_BASE, PRECIOS_BASE[i].0.0);
    ItemsFiltradosDistinct(PRECIOS_BASE, PRECIOS_BASE[i].0.0);
  }

  /** A non-empty group of one location contributes just that location. */
  lemma {:induction false} LugaresDeClavesDeGrupo(g: Dict<(string, string), int>, l: string)
    requires EnLugar(g, l) && g != []
    ensures forall x :: x in LugaresDeClaves(g) <==> x == l
  {
    if |g| > 1 {
      assert EnLugar(g[1..], l) by {
        forall i | 0 <= i < |g[1..]| ensures g[1..][i].0.0 == l {
          assert g[1..][i] == g[i + 1];
        }
      }
      LugaresDeClavesDeGrupo(g[1..], l);
    }
  }

  /** A group of one location offers nothing at any other. */
  lemma {:induction false} ItemsDeOtroLugar(g: Dict<(string, string), int>, l: string, lugar: string)
    requires EnLugar(g, l) && l != lugar
    ensures ItemsFiltrados(g, lugar) == []
  {
    if g != [] {
      assert EnLugar(g[1..], l) by {
        forall i | 0 <= i < |g[1..]| ensures g[1..][i].0.0 == l {
          assert g[1..][i] == g[i + 1];
        }
      }
      ItemsDeOtroLugar(g[1..], l, lugar);
    }
  }

  lemma LugaresDeClavesUnion(a: Dict<(string, string), int>, b: Dict<(string, string), int>)
    ensures forall x :: x in LugaresDeClaves(a + b) <==> x in LugaresDeClaves(a) || x in LugaresDeClaves(b)
  {
    LugaresDeClavesConcat(a, b);
  }

  /** Each group of the price table contributes its own location. */
  lemma LugaresDeClavesPorGrupo()
    ensures forall x :: x in LugaresDeClaves(PRECIOS_LIBEDUL) <==> x == "LIBEDUL"
    ensures forall x :: x in LugaresDeClaves(PRECIOS_AMAR_AUSTRAL) <==> x == "AMAR AUSTRAL"
    ensures forall x :: x in LugaresDeClaves(PRECIOS_CPM) <==> x == "CPM"
    ensures forall x :: x in LugaresDeClaves(PRECIOS_DOMICILIO) <==> x == "DOMICILIO"
    ensures forall x :: x in LugaresDeClaves(PRECIOS_ALERCE) <==> x == "ALERCE"
  {
    GruposDePrecios();
    LugaresDeClavesDeGrupo(PRECIOS_LIBEDUL, "LIBEDUL");
    LugaresDeClavesDeGrupo(PRECIOS_AMAR_AUSTRAL, "AMAR AUSTRAL");
    LugaresDeClavesDeGrupo(PRECIOS_CPM, "CPM");
    LugaresDeClavesDeGrupo(PRECIOS_DOMICILIO, "DOMICILIO");
    LugaresDeClavesDeGrupo(PRECIOS_ALERCE, "ALERCE");
  }

  /** The locations that have at least one price, with repetitions. */
  lemma LugaresDeClavesDeLaApp()
    ensures forall l :: l in LugaresDeClaves(PRECIOS_BASE)
                        <==> l in ["ALERCE", "AMAR AUSTRAL", "CPM", "DOMICILIO", "LIBEDUL"]
  {
    var g2 := PRECIOS_LIBEDUL + PRECIOS_AMAR_AUSTRAL;
    var g3 := g2 + PRECIOS_CPM;
    var g4 := g3 + PRECIOS_DOMICILIO;
    LugaresDeClavesPorGrupo();
    LugaresDeClavesUnion(PRECIOS_LIBEDUL, PRECIOS_AMAR_AUSTRAL);
    LugaresDeClavesUnion(g2, PRECIOS_CPM);
    LugaresDeClavesUnion(g3, PRECIOS_DOMICILIO);
    LugaresDeClavesUnion(g4, PRECIOS_ALERCE);
  }

  lemma LugaresOrdenados()
    ensures PyStr.StrictlySorted(["ALERCE", "AMAR AUSTRAL", "CPM", "DOMICILIO", "LIBEDUL"])
  {
  }

  /** `LUGARES` as the app computes it: the five locations in ascending order. */
  lemma LugaresDeLaApp()
    ensures LUGARES == ["ALERCE", "AMAR AUSTRAL", "CPM", "DOMICILIO", "LIBEDUL"]
  {
    LugaresDeClavesDeLaApp();
    LugaresOrdenados();
    PyStr.StrictlySortedUnique(LUGARES, ["ALERCE", "AMAR AUSTRAL", "CPM", "DOMICILIO", "LIBEDUL"]);
  }

  /** The items offered at CPM, in the order of the price table. */
  lemma ItemsDeCpm()
    ensures ItemsFiltrados(PRECIOS_BASE, "CPM") == ["PACIENTE", "HOSPITALIZADO", "ADIR+ADOS2"]
  {
    GruposDePrecios();
    var g2 := PRECIOS_LIBEDUL + PRECIOS_AMAR_AUSTRAL;
    var g3 := g2 + PRECIOS_CPM;
    var g4 := g3 + PRECIOS_DOMICILIO;
    ItemsFiltradosConcat(PRECIOS_LIBEDUL, PRECIOS_AMAR_AUSTRAL, "CPM");
    ItemsFiltradosConcat(g2, PRECIOS_CPM, "CPM");
    ItemsFiltradosConcat(g3, PRECIOS_DOMICILIO, "CPM");
    ItemsFiltradosConcat(g4, PRECIOS_ALERCE, "CPM");
    ItemsDeOtroLugar(PRECIOS_LIBEDUL, "LIBEDUL", "CPM");
    ItemsDeOtroLugar(PRECIOS_AMAR_AUSTRAL, "AMAR AUSTRAL", "CPM");
    ItemsDeOtroLugar(PRECIOS_DOMICILIO, "DOMICILIO", "CPM");
    ItemsDeOtroLugar(PRECIOS_ALERCE, "ALERCE", "CPM");
    assert ItemsFiltrados(PRECIOS_CPM, "CPM") == ["PACIENTE", "HOSPITALIZADO", "ADIR+ADOS2"];
  }
}
