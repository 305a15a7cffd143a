# Income calculation of the speech-therapy billing app, in Dafny

The app records each session of a speech therapist (fonoaudióloga) and
works out what the session actually brings in. The calculation is
`calcular_ingreso` in `app.py`:

- The gross price (`valor_bruto`) is a manual override when one is given.
  Otherwise it comes from the price table keyed by (location, item), and an
  unpriced pair counts as 0.
- The fixed discount of the location comes from its own table, with 0 for a
  location the table does not list. At AMAR AUSTRAL that value is replaced
  by 8000 on Tuesdays and 6500 on Fridays.
- The card commission is the payment method's rate times the gross, with
  0 for an unknown method.
- The net (`total_recibido`) is the gross minus the fixed discount, the
  commission and a manual adjustment. It may be negative.

The form also derives, from the same tables, the sorted list of locations
(`LUGARES`), the payment methods (`METODOS_PAGO`) and, for a chosen
location, the items priced under it (`items_filtrados`).

Module layout:

- `pydict.dfy`, module `PyDict`: a Python dict display is kept as its
  entries in insertion order. `ToMap` is the mapping it denotes and `Get`
  is `dict.get(key, default)`.
- `pystr.dfy`, module `PyStr`: Python's `<` on strings and
  `sorted(set(xs))`.
- `pydate.dfy`, module `PyDate`: `datetime.date` and `weekday()`. A civil
  date (year 1 to 9999) converts to its proleptic Gregorian ordinal as
  `date.toordinal()` does. A `Date` is a day given by that ordinal.
  `FromCivil` plays the part of `date(y, m, d)` and `Weekday` is
  `(ordinal + 6) % 7`, with Monday as 0.
- `app.dfy`, module `App`:
  - the three tables, with the source's values in the source's order;
  - `REGLAS`, the three tables bundled as one value;
  - `CalcularIngreso`;
  - `ItemsFiltrados`;
  - `Lugares`, `LUGARES` and `METODOS_PAGO`.
- `app_properties.dfy`, modules `AppProperties`, `IngresoProperties` and
  `FormularioProperties`: facts about the tables, the calculation and the
  form.

Amounts are unbounded integers. Rates, commission and net are exact reals
(see Left out). `CalcularIngreso` takes the tables as a parameter. The
app's own tables are `REGLAS`. The lemmas about concrete figures use them,
except `EjemploOverrideReemplazaTabla`, which uses a small table of its own
(`REGLAS_AMAR`) where AMAR AUSTRAL has a discount entry.

Two points of the code that the contracts state:

- The price table is one flat dict keyed by `(lugar, item)` tuples, read
  with `.get((lugar, item), 0)` (`app.py:99`). So an unknown pair gives a
  gross of 0 and no error.
- The manual adjustment `desc_adicional_manual` is subtracted from the net
  (`app.py:114`).

## Model

| member | source | states |
|---|---|---|
| App.CalcularIngreso | app.py:97-121 | The gross is the override if given, else the table's price for (lugar, item), else 0. The fixed discount is 8000 at AMAR AUSTRAL on a Tuesday, 6500 there on a Friday, and otherwise the location table's value or 0. The commission is the gross times the method's rate, or 0. The net is the gross minus all three deductions. The net is negative exactly when the deductions exceed the gross. |
| App.DescFijoLugar | app.py:101-109 | The location discount on a given weekday: 8000 or 6500 for AMAR AUSTRAL on Tuesday (1) or Friday (4), and the table value or 0 in every other case. |
| App.Liquidar | app.py:111-121 | With gross, discount and rate resolved, the commission is gross × rate and the net is gross − discount − commission − adjustment. The net is negative iff the deductions exceed the gross. |
| App.ItemsFiltrados | app.py:143 | The comprehension over the price table's entries. Its contract is carried by App.ItemsFiltradosSpec (an item is listed iff its pair is priced), App.ItemsFiltradosDistinct (no repetitions without repeated keys) and App.ItemsFiltradosConcat (table order). |
| App.ItemsFiltradosSpec | app.py:143 | An item is offered for a location iff (location, item) is a key of the price table. |
| App.ItemFiltradoEntrada | app.py:143 | Every offered item comes from some entry of the table whose key has that location. |
| App.ItemsFiltradosDistinct | app.py:143 | In a table without repeated keys, the item list of a location has no repetitions. |
| App.ItemsFiltradosConcat | app.py:143 | The comprehension over two concatenated tables is the concatenation of the two results, so the item order follows the table order. |
| App.LugaresDeClaves | app.py:35 | The generator of the locations of the price table's keys. Its contract is carried by App.LugaresDeClavesSpec (exactly the first components of the keys) and App.LugaresDeClavesConcat (it distributes over concatenation). |
| App.LugaresDeClavesSpec | app.py:35 | The locations taken from the table's keys are exactly the first components of its keys. |
| App.LugaresDeClavesConcat | app.py:35 | Taking locations distributes over concatenated tables. |
| App.Lugares | app.py:35 | `sorted(set(...))` over the locations is strictly ascending under Python's string order and holds exactly the locations that appear in some key. |
| PyDict.ToMapKeys | app.py:14-32 | The mapping a dict display denotes has exactly the display's keys. |
| PyDict.ToMapEntry | app.py:14-32 | In a display without repeated keys, every entry's value is what the mapping gives for that entry's key. |
| PyDict.Lookup | app.py:99 | The search returns the value the mapping holds for the key, or nothing when the key is absent. |
| PyDict.Get | app.py:99 | `dict.get(k, default)` gives the mapping's value for k, or the default when k is absent. |
| PyDict.GetIsEntryOrDefault | app.py:111 | What `dict.get` returns is either the default or the value of an entry whose key is k. |
| PyDict.UniqueKeysConcat | app.py:14-21 | Two displays without repeated keys and with no key in common concatenate to one without repeated keys. |
| PyDict.Keys | app.py:36 | The display's keys, one per entry, in order. For a display without repeated keys, such as the commission table, this is what `.keys()` yields. |
| PyDict.ToMap | app.py:14-32 | The mapping a display denotes, where a later entry overwrites an earlier one. Its contract is carried by PyDict.ToMapKeys (exactly the display's keys) and PyDict.ToMapEntry (each entry's value survives when no key is repeated), and PyDict.Lookup and PyDict.Get are stated against it. |
| PyStr.Less | app.py:35 | Python's `<` on `str`, which `sorted` uses: the first differing code point decides, and a proper prefix comes first. Its contract is carried by PyStr.LessIrreflexive, PyStr.LessAsymmetric, PyStr.LessTransitive and PyStr.LessTotal, which make it a strict total order. |
| PyStr.LessIrreflexive | app.py:35 | No string is below itself. |
| PyStr.LessAsymmetric | app.py:35 | If a < b then not b < a. |
| PyStr.LessTransitive | app.py:35 | String order is transitive. |
| PyStr.LessTotal | app.py:35 | Any two different strings are ordered one way or the other. |
| PyStr.LessThanAll | app.py:35 | A string below the head of a strictly ascending list is below every element. |
| PyStr.Insert | app.py:35 | Insertion keeps a list strictly ascending and adds exactly the new element. |
| PyStr.SortedDistinct | app.py:35 | `sorted(set(xs))` is strictly ascending and has exactly the elements of xs. |
| PyStr.StrictlySortedUnique | app.py:35 | Two strictly ascending lists with the same elements are equal, so the result does not depend on set iteration order. |
| PyDate.DaysInMonth | app.py:105 | A month has 28 to 31 days, and February has 29 exactly in leap years. |
| PyDate.ToOrdinal | app.py:105 | Every valid date has an ordinal of at least 1. |
| PyDate.ToOrdinalBounded | app.py:105 | No valid date has an ordinal above that of 9999-12-31. |
| PyDate.FromCivil | app.py:105 | A civil date becomes the day whose number is its ordinal. |
| PyDate.Weekday | app.py:105 | `weekday()` lies between 0 (Monday) and 6 (Sunday). |
| PyDate.DaysBeforeNextMonth | app.py:105 | Consecutive months start DaysInMonth days apart. |
| PyDate.DivStep | app.py:105 | How n/4, n/100 and n/400 grow from n − 1 to n. |
| PyDate.DaysBeforeNextYear | app.py:105 | A year has 366 days when it is a leap year and 365 otherwise. |
| PyDate.NextDayOrdinal | app.py:105 | The day after a date has the next ordinal, across month and year ends. |
| PyDate.WeekdaySucc | app.py:105 | Consecutive ordinals have consecutive weekdays modulo 7. |
| PyDate.NextDayWeekday | app.py:105 | From each civil date to the next the weekday advances by one, modulo 7. |
| PyDate.FirstOrdinal | app.py:105 | 0001-01-01 is day 1. |
| PyDate.LastOrdinal | app.py:105 | 9999-12-31 is day 3652059. |
| PyDate.KnownWeekday | app.py:105 | 2024-01-01 is day 738886 and a Monday. |
| AppProperties.GruposDePrecios | app.py:15-20 | Each line group of the price table prices items of a single location. |
| AppProperties.GruposSinRepetir | app.py:15-20 | No group repeats a key. |
| AppProperties.AgregarGrupo | app.py:14-21 | Appending a group of a new location to a table without repeated keys keeps the keys unique. |
| AppProperties.PreciosBaseUniqueKeys | app.py:14-21 | The price table has no repeated (location, item) key. |
| AppProperties.SmallTablesUniqueKeys | app.py:24-32 | The discount and commission tables have no repeated key. |
| AppProperties.DescuentosLugarMap | app.py:24-27 | The discount table maps LIBEDUL, ALERCE and DOMICILIO to 0 and CPM to 14610, and nothing else. |
| AppProperties.ComisionesPagoMap | app.py:30-32 | The commission table maps EFECTIVO and TRANSFERENCIA to 0 and TARJETA to 0.05, and nothing else. |
| AppProperties.MetodosDeLaApp | app.py:36 | The payment methods are EFECTIVO, TRANSFERENCIA and TARJETA in that order: exactly the keys of the commission table. |
| IngresoProperties.DescuentoConLasTablasDeLaApp | app.py:101-109 | With the app's tables, the discount is 14610 at CPM, 8000 or 6500 at AMAR AUSTRAL on Tuesday or Friday, and 0 otherwise. |
| IngresoProperties.TasasDeLaApp | app.py:30-32 | Every rate of the app's commission table lies between 0 and 1. |
| IngresoProperties.TasaAcotada | app.py:111 | If every rate lies between 0 and 1, so does the rate `dict.get` resolves, the default 0 included. |
| IngresoProperties.FraccionAcotada | app.py:112 | A fraction between 0 and 1 of a non-negative amount lies between 0 and that amount. |
| IngresoProperties.ComisionAcotada | app.py:111-112 | For a non-negative gross and rates in [0, 1], the commission is between 0 and the gross. |
| IngresoProperties.PrecioDeCadaEntrada | app.py:99 | Without an override, every entry of the price table is the gross of its own (location, item). |
| IngresoProperties.MetodoDesconocidoSinComision | app.py:111 | A payment method outside the table pays no commission. |
| IngresoProperties.EjemploLibedulTarjeta | app.py:97-121 | LIBEDUL / PACIENTE by card on any day: gross 4500, discount 0, commission 225, net 4275. |
| IngresoProperties.EjemploCpmEfectivo | app.py:97-121 | CPM / PACIENTE in cash on any day: gross 30000, discount 14610, commission 0, net 15390. |
| IngresoProperties.Semana2024 | app.py:105 | 2024-01-02 is a Tuesday, 2024-01-03 a Wednesday, 2024-01-05 a Friday. |
| IngresoProperties.EjemploFaltoMartes | app.py:97-121 | A missed session (FALTO) at AMAR AUSTRAL on a Tuesday: gross 0, discount 8000, net −8000. The result is negative and not clamped. |
| IngresoProperties.EjemploAmarAustralViernes | app.py:97-121 | AMAR AUSTRAL / PACIENTE by card on a Friday: gross 30000, discount 6500, commission 1500, net 22000. |
| IngresoProperties.EjemploOverrideReemplazaTabla | app.py:101-109 | One instance, with tables where AMAR AUSTRAL has a discount entry of 10000: on Tuesday 2024-01-02 the discount is 8000, replacing the entry rather than adding to it, and on Wednesday 2024-01-03 it is the entry, 10000. The general statement, for every table and day, is in the ensures of App.CalcularIngreso and App.DescFijoLugar. |
| IngresoProperties.EjemploOverrideYAjuste | app.py:97-121 | A manual gross of 6000 replaces the table price, and the card commission and the manual adjustment of 1000 are taken from it: net 4700. |
| FormularioProperties.ItemOfrecidoTienePrecio | app.py:143 | Every item the form offers for a location has a price, and without an override that price is the gross. |
| FormularioProperties.ItemDeCadaEntrada | app.py:143 | Each entry's item is offered under its location, and that location's list has no repetitions. |
| FormularioProperties.LugaresDeClavesDeGrupo | app.py:35 | A non-empty group of one location yields exactly that location. |
| FormularioProperties.ItemsDeOtroLugar | app.py:143 | A group of one location offers no items for any other location. |
| FormularioProperties.LugaresDeClavesUnion | app.py:35 | The locations of a concatenated table are the union of the parts' locations. |
| FormularioProperties.LugaresDeClavesPorGrupo | app.py:15-20 | Each group yields exactly its own location. |
| FormularioProperties.LugaresDeClavesDeLaApp | app.py:35 | The price table's locations are exactly LIBEDUL, AMAR AUSTRAL, CPM, DOMICILIO and ALERCE. |
| FormularioProperties.LugaresOrdenados | app.py:35 | ALERCE < AMAR AUSTRAL < CPM < DOMICILIO < LIBEDUL under Python's string order. |
| FormularioProperties.LugaresDeLaApp | app.py:35 | `LUGARES` is exactly ["ALERCE", "AMAR AUSTRAL", "CPM", "DOMICILIO", "LIBEDUL"]. |
| FormularioProperties.ItemsDeCpm | app.py:143 | The items offered for CPM are PACIENTE, HOSPITALIZADO and ADIR+ADOS2, in table order. |

## Left out

- Persistence: the connection to the database and the functions around it (`app.py:43-91`) are I/O and are not modelled.
- Caching with `st.cache_data`, the `load_data_from_db.clear()` call (`app.py:56`, `app.py:73`) and the `st.rerun()` after a save (`app.py:201`) are not modelled.
- The Streamlit widgets and the form flow (`app.py:127-201`) are left out. Only the comprehension at `app.py:143` and the lists the widgets offer (`app.py:35-36`) are modelled.
- The pandas dashboard and its export (`app.py:203-240`) are left out. They are presentation over stored rows.
- `date.today()` is the clock. The date arrives as a parameter of `CalcularIngreso`.
- App.CalcularIngreso: `comision_pct`, `desc_tarjeta` and `total_recibido` are IEEE doubles in Python. The model uses exact reals, so rounding (for example of 0.05 × gross) is not captured. The `float(...)` conversions and number formatting of the form are not modelled either.
- App.CalcularIngreso: the override and the manual adjustment are integers. That is what the form's two integer-typed `number_input` calls give (`app.py:153-159`). A direct caller passing floats is not modelled.
- PyDict.Keys, App.ItemsFiltrados, App.LugaresDeClaves and App.ItemsFiltradosConcat walk the entries of a display. Python iterates over a dict with a repeated key only once, at the key's first position with its last value. So these members match Python's iteration only for displays without repeated keys. The app's three tables have none (AppProperties.PreciosBaseUniqueKeys, AppProperties.SmallTablesUniqueKeys).
- PyDate.Weekday: a `Date` is its ordinal. The model does not rebuild year, month and day from an ordinal. Dates outside year 1 to 9999, which Python rejects, cannot be formed.
- PyDate.NextDay: it is only a helper for the weekday lemmas. It has no counterpart in the code and no row of its own.
- Determinism, and the fact that the calculation leaves the tables untouched, hold by construction. These are pure functions over immutable values, and no lemma states them.
