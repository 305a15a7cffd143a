/** The income calculator of the speech-therapy billing app.

    A visit (location, item, payment method, manual adjustment, date and an
    optional gross override) becomes a payment breakdown: the gross price,
    the fixed per-location discount (replaced at AMAR AUSTRAL on Tuesdays
    and Fridays), the card commission on the gross, and the net received,
    which may be negative. The three rule tables are the app's constants;
    the engine receives them as one `Reglas` value. */
module App {
  import opened PyDict
  import opened PyDate
  import PyStr

  /** Gross price by (location, item), in the app's display order. The
      display lists the pairs location by location. */
  const PRECIOS_BASE: Dict<(string, string), int> :=
    PRECIOS_LIBEDUL + PRECIOS_AMAR_AUSTRAL + PRECIOS_CPM + PRECIOS_DOMICILIO + PRECIOS_ALERCE

  const PRECIOS_LIBEDUL: Dict<(string, string), int> := [
    (("LIBEDUL", "PACIENTE"), 4500), (("LIBEDUL", "VISITA ESTABLECIMIENTO"), 20000),
    (("LIBEDUL", "ADOS2"), 30000), (("LIBEDUL", "DUPLA"), 7000),
    (("LIBEDUL", "ADIR+ADOS2"), 37500), (("LIBEDUL", "LAVADO OIDO"), 6000)]
  const PRECIOS_AMAR_AUSTRAL: Dict<(string, string), int> := [
    (("AMAR AUSTRAL", "PACIENTE"), 30000), (("AMAR AUSTRAL", "DUPLA"), 25000),
    (("AMAR AUSTRAL", "LAVADO OIDO"), 20000), (("AMAR AUSTRAL", "VISITA ESTABLECIMIENTO"), 35000),
    (("AMAR AUSTRAL", "FALTO"), 0), (("AMAR AUSTRAL", "ADIR+ADOS2"), 100000)]
  const PRECIOS_CPM: Dict<(string, string), int> := [
    (("CPM", "PACIENTE"), 30000), (("CPM", "HOSPITALIZADO"), 30000), (("CPM", "ADIR+ADOS2"), 190000)]
  const PRECIOS_DOMICILIO: Dict<(string, string), int> := [
    (("DOMICILIO", "PACIENTE"), 30000), (("DOMICILIO", "LAVADO OIDO"), 25000)]
  const PRECIOS_ALERCE: Dict<(string, string), int> := [
    (("ALERCE", "5 SABADOS"), 25000), (("ALERCE", "4 SABADOS"), 31250)]

  /** Fixed discount by location. AMAR AUSTRAL has no entry. */
  const DESCUENTOS_LUGAR: Dict<string, int> :=
    [("LIBEDUL", 0), ("ALERCE", 0), ("DOMICILIO", 0), ("CPM", 14610)]

  /** Commission rate by payment method, as exact fractions. */
  const COMISIONES_PAGO: Dict<string, real> :=
    [("EFECTIVO", 0.00), ("TRANSFERENCIA", 0.00), ("TARJETA", 0.05)]

  const AMAR_AUSTRAL := "AMAR AUSTRAL"
  /** `date.weekday()` numbers Monday 0, so Tuesday is 1 and Friday 4. */
  const MARTES := 1
  const VIERNES := 4
  const DESC_MARTES := 8000
  const DESC_VIERNES := 6500

  datatype Reglas = Reglas(
    precios: Dict<(string, string), int>,
    descuentos: Dict<string, int>,
    comisiones: Dict<string, real>)

  /** The tables the app is built with. */
  const REGLAS := Reglas(PRECIOS_BASE, DESCUENTOS_LUGAR, COMISIONES_PAGO)

  /** The result dict: valor_bruto, desc_fijo_lugar, desc_tarjeta, total_recibido. */
  datatype Ingreso = Ingreso(valorBruto: int, descFijoLugar: int, descTarjeta: real, totalRecibido: real)

  /** The fixed discount of `lugar` on a day whose `weekday()` is `diaSemana`
      (app.py lines 101-109). */
  function DescFijoLugar(descuentos: Dict<string, int>, lugar: string, diaSemana: int): (d: int)
    ensures lugar == AMAR_AUSTRAL && diaSemana == MARTES ==> d == 8000
    ensures lugar == AMAR_AUSTRAL && diaSemana == VIERNES ==> d == 6500
    ensures !(lugar == AMAR_AUSTRAL && (diaSemana == MARTES || diaSemana == VIERNES)) ==>
              d == ValueOr(ToMap(descuentos), lugar, 0)
  {
    var descTabla := Get(descuentos, lugar, 0);
    if lugar == AMAR_AUSTRAL then
      if diaSemana == MARTES then DESC_MARTES
      else if diaSemana == VIERNES then DESC_VIERNES
      else descTabla
    else descTabla
  }

  /** The breakdown once gross, discount and rate are resolved (app.py lines 111-121). */
  function Liquidar(valorBruto: int, descFijoLugar: int, comisionPct: real, descAdicionalManual: int): (r: Ingreso)
    ensures r.valorBruto == valorBruto && r.descFijoLugar == descFijoLugar
    ensures r.descTarjeta == valorBruto as real * comisionPct
    ensures r.totalRecibido
            == r.valorBruto as real - r.descFijoLugar as real - r.descTarjeta - descAdicionalManual as real
    ensures r.totalRecibido < 0.0
            <==> r.descFijoLugar as real + r.descTarjeta + descAdicionalManual as real > r.valorBruto as real
  {
    var descTarjeta := valorBruto as real * comisionPct;
    var totalRecibido := valorBruto as real - descFijoLugar as real - descTarjeta - descAdicionalManual as real;
    Ingreso(valorBruto, descFijoLugar, descTarjeta, totalRecibido)
  }

  /** `calcular_ingreso`. */
  function CalcularIngreso(
    reglas: Reglas, lugar: string, item: string, metodoPago: string,
    descAdicionalManual: int, fechaAtencion: Date, valorBrutoOverride: Option<int>): (r: Ingreso)
    // Gross: the override when there is one, else the price table, else 0.
    ensures valorBrutoOverride.Some? ==> r.valorBruto == valorBrutoOverride.value
    ensures valorBrutoOverride.None? && (lugar, item) in ToMap(reglas.precios)
            ==> r.valorBruto == ToMap(reglas.precios)[(lugar, item)]
    ensures valorBrutoOverride.None? && (lugar, item) !in ToMap(reglas.precios) ==> r.valorBruto == 0
    // Discount: AMAR AUSTRAL's weekday values replace the table's.
    ensures lugar == AMAR_AUSTRAL && Weekday(fechaAtencion) == MARTES ==> r.descFijoLugar == 8000
    ensures lugar == AMAR_AUSTRAL && Weekday(fechaAtencion) == VIERNES ==> r.descFijoLugar == 6500
    ensures !(lugar == AMAR_AUSTRAL && (Weekday(fechaAtencion) == MARTES || Weekday(fechaAtencion) == VIERNES)) ==>
              r.descFijoLugar == ValueOr(ToMap(reglas.descuentos), lugar, 0)
    // Commission: a fraction of the gross, not of the discounted amount.
    ensures r.descTarjeta == r.valorBruto as real * ValueOr(ToMap(reglas.comisiones), metodoPago, 0.0)
    // Net: every deduction comes off the gross, with no floor at zero.
    ensures r.totalRecibido
            == r.valorBruto as real - r.descFijoLugar as real - r.descTarjeta - descAdicionalManual as real
    ensures r.totalRecibido < 0.0
            <==> r.descFijoLugar as real + r.descTarjeta + descAdicionalManual as real > r.valorBruto as real
  {
    var valorBruto :=
      match valorBrutoOverride
      case Some(v) => v
      case None => Get(reglas.precios, (lugar, item), 0);
    var descFijoLugar := DescFijoLugar(reglas.descuentos, lugar, Weekday(fechaAtencion));
    var comisionPct := Get(reglas.comisiones, metodoPago, 0.0);
    Liquidar(valorBruto, descFijoLugar, comisionPct, descAdicionalManual)
  }

  /** The items offered for `lugar`: those priced under it, in display order. */
  function ItemsFiltrados(precios: Dict<(string, string), int>, lugar: string): (items: seq<string>)
  {
    if precios == [] then []
    else (if precios[0].0.0 == lugar then [precios[0].0.1] else []) + ItemsFiltrados(precios[1..], lugar)
  }

  /** An item is offered for `lugar` exactly when the pair has a price. */
  lemma {:induction false} ItemsFiltradosSpec(precios: Dict<(string, string), int>, lugar: string)
    ensures forall it :: it in ItemsFiltrados(precios, lugar) <==> (lugar, it) in ToMap(precios)
  {
    if precios != [] {
      ItemsFiltradosSpec(precios[1..], lugar);
    }
  }

  /** Every item offered comes from an entry of the table. */
  lemma {:induction false} ItemFiltradoEntrada(precios: Dict<(string, string), int>, lugar: string, it: string)
    ensures it in ItemsFiltrados(precios, lugar) ==> exists j :: 0 <= j < |precios| && precios[j].0 == (lugar, it)
  {
    if precios != [] && precios[0].0 != (lugar, it) {
      ItemFiltradoEntrada(precios[1..], lugar, it);
      if it in ItemsFiltrados(precios[1..], lugar) {
        var j :| 0 <= j < |precios[1..]| && precios[1..][j].0 == (lugar, it);
        assert precios[j + 1] == precios[1..][j];
      }
    }
  }

  /** No element occurs twice. */
  predicate Distinct(s: seq<string>)
  {
    forall i, j :: 0 <= i < j < |s| ==> s[i] != s[j]
  }

  /** No item is offered twice when the table repeats no key. */
  lemma {:induction false} ItemsFiltradosDistinct(precios: Dict<(string, string), int>, lugar: string)
    requires UniqueKeys(precios)
    ensures Distinct(ItemsFiltrados(precios, lugar))
  {
    if precios != [] {
      var resto := precios[1..];
      assert UniqueKeys(resto) by {
        forall i, j | 0 <= i < j < |resto| ensures resto[i].0 != resto[j].0 {
          assert resto[i] == precios[i + 1] && resto[j] == precios[j + 1];
        }
      }
      ItemsFiltradosDistinct(resto, lugar);
      var despues := ItemsFiltrados(resto, lugar);
      if precios[0].0.0 == lugar {
        ItemFiltradoEntrada(resto, lugar, precios[0].0.1);
        assert forall j :: 0 <= j < |resto| ==> resto[j] == precios[j + 1];
        assert precios[0].0.1 !in despues;
        var items := ItemsFiltrados(precios, lugar);
        assert items == [precios[0].0.1] + despues;
        forall i, j | 0 <= i < j < |items|
          ensures items[i] != items[j]
        {
          assert items[j] == despues[j - 1] && despues[j - 1] in despues;
          if i > 0 {
            assert items[i] == despues[i - 1] && despues[i - 1] != despues[j - 1];
          } else {
            assert items[i] == precios[0].0.1;
          }
        }
      } else {
        assert ItemsFiltrados(precios, lugar) == [] + despues;
      }
    }
  }

  /** The location of every key of `precios`, in display order. */
  function LugaresDeClaves(precios: Dict<(string, string), int>): (ls: seq<string>)
  {
    if precios == [] then [] else [precios[0].0.0] + LugaresDeClaves(precios[1..])
  }

  lemma {:induction false} LugaresDeClavesSpec(precios: Dict<(string, string), int>)
    ensures forall l :: l in LugaresDeClaves(precios) <==> exists it :: (l, it) in ToMap(precios)
  {
    if precios != [] {
      LugaresDeClavesSpec(precios[1..]);
      ToMapKeys(precios);
      ToMapKeys(precios[1..]);
    }
  }

  lemma {:induction false} ItemsFiltradosConcat(a: Dict<(string, string), int>, b: Dict<(string, string), int>, lugar: string)
    ensures ItemsFiltrados(a + b, lugar) == ItemsFiltrados(a, lugar) + ItemsFiltrados(b, lugar)
  {
    if a != [] {
      assert (a + b)[1..] == a[1..] + b;
      ItemsFiltradosConcat(a[1..], b, lugar);
      var cabeza := if a[0].0.0 == lugar then [a[0].0.1] else [];
      assert ItemsFiltrados(a + b, lugar) == cabeza + ItemsFiltrados(a[1..] + b, lugar);
      assert cabeza + (ItemsFiltrados(a[1..], lugar) + ItemsFiltrados(b, lugar))
             == (cabeza + ItemsFiltrados(a[1..], lugar)) + ItemsFiltrados(b, lugar);
    } else {
      assert a + b == b;
    }
  }

  lemma {:induction false} LugaresDeClavesConcat(a: Dict<(string, string), int>, b: Dict<(string, string), int>)
    ensures LugaresDeClaves(a + b) == LugaresDeClaves(a) + LugaresDeClaves(b)
  {
    if a != [] {
      assert (a + b)[1..] == a[1..] + b;
      LugaresDeClavesConcat(a[1..], b);
      assert [a[0].0.0] + (LugaresDeClaves(a[1..]) + LugaresDeClaves(b)) == ([a[0].0.0] + LugaresDeClaves(a[1..])) + LugaresDeClaves(b);
    } else {
      assert a + b == b;
    }
  }

  /** `sorted(list(set(l for l, i in precios.keys())))`. */
  function Lugares(precios: Dict<(string, string), int>): (ls: seq<string>)
    ensures PyStr.StrictlySorted(ls)
    ensures forall l :: l in ls <==> exists it :: (l, it) in ToMap(precios)
  {
    LugaresDeClavesSpec(precios);
    PyStr.SortedDistinct(LugaresDeClaves(precios))
  }

  /** The locations the form offers. */
  const LUGARES := Lugares(PRECIOS_BASE)

  /** The payment methods the form offers: the commission table's keys. */
  const METODOS_PAGO := Keys(COMISIONES_PAGO)
}
