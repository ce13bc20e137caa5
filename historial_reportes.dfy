/** The user's report history: the list of months offered in the month selector, each with
    its key, its label and the date range whose reports it shows. */
module HistorialReportes {
  import opened Common

  const MESES_ES := ["Enero", "Febrero", "Marzo", "Abril", "Mayo", "Junio", "Julio", "Agosto",
                     "Septiembre", "Octubre", "Noviembre", "Diciembre"]

  /** Every month of the list is given this year. */
  const ANO_FIJO := 2026

  /** A calendar month: its year and its index, 0 for January to 11 for December. */
  datatype YearMonth = YearMonth(year: int, month: int)

  /** An entry of the month selector. `desde` and `hasta` stand for the first instant (local
      midnight of day 1) of the month they name; the ISO text of those instants is not modelled. */
  datatype Mes = Mes(key: string, etiqueta: string, desde: YearMonth, hasta: YearMonth)

  /** The month index of entry `i`: `11 - i`, or `12` more than that when it is negative. */
  function MonthIndex(i: nat): (m: int)
    ensures i < 12 ==> m == 11 - i
    ensures 12 <= i < 24 ==> m == 23 - i
    ensures 0 <= m < 12 <==> i < 24
    ensures m <= 11
  {
    var m := 11 - i;
    if m < 0 then 12 + m else m
  }

  /** `new Date(year, month, 1)`: a month index outside 0..11 carries into the year, with
      floor division (which Dafny's division by the positive 12 is). */
  function MonthStart(year: int, month: int): (ym: YearMonth)
    ensures 0 <= ym.month < 12
    ensures ym.year * 12 + ym.month == year * 12 + month
  {
    YearMonth(year + month / 12, month % 12)
  }

  /** A month index already in range names a month of that same year. */
  lemma MonthStartInRange(year: int, month: int)
    requires 0 <= month < 12
    ensures MonthStart(year, month) == YearMonth(year, month)
  {
  }

  /** The calendar month after `ym`, December rolling over to January of the next year. */
  function NextMonth(ym: YearMonth): (n: YearMonth)
    requires 0 <= ym.month < 12
    ensures 0 <= n.month < 12
    ensures n.year * 12 + n.month == ym.year * 12 + ym.month + 1
  {
    if ym.month == 11 then YearMonth(ym.year + 1, 0) else YearMonth(ym.year, ym.month + 1)
  }

  /** `String(month + 1).padStart(2, "0")`. */
  function MonthNumber(month: int): string
  {
    PadStart(IntToString(month + 1), 2, '0')
  }

  /** `${year}-${String(month + 1).padStart(2, "0")}`. */
  function Key(month: int): (r: string)
    ensures 0 <= month < 12 ==> r == "2026-" + [Digit((month + 1) / 10), Digit((month + 1) % 10)]
  {
    var r := IntToString(ANO_FIJO) + "-" + MonthNumber(month);
    YearText();
    assert 0 <= month < 12 ==> r == "2026-" + [Digit((month + 1) / 10), Digit((month + 1) % 10)] by {
      if 0 <= month < 12 {
        TwoDigits(month);
      }
    }
    r
  }

  /** `${MESES_ES[month]} ${year}`: an index outside the table reads as `undefined`. */
  function Label(month: int): (r: string)
    ensures 0 <= month < 12 ==> r == MESES_ES[month] + " 2026"
    ensures !(0 <= month < 12) ==> r == "undefined 2026"
  {
    YearText();
    (if 0 <= month < |MESES_ES| then MESES_ES[month] else "undefined") + " " + IntToString(ANO_FIJO)
  }

  /** The object pushed for month index `m`. */
  function MesFor(m: int): Mes
  {
    Mes(Key(m), Label(m), MonthStart(ANO_FIJO, m), MonthStart(ANO_FIJO, m + 1))
  }

  /** Entry `i` of the list. */
  function Entry(i: nat): Mes
  {
    MesFor(MonthIndex(i))
  }

  /** Appending entry `i` to the first `i` entries gives the first `i + 1`. */
  lemma AppendEntry(meses: seq<Mes>, i: nat)
    requires |meses| == i && forall k :: 0 <= k < i ==> meses[k] == Entry(k)
    ensures forall k :: 0 <= k < i + 1 ==> (meses + [Entry(i)])[k] == Entry(k)
  {
  }

  /** `buildMesesRecientes(cantidad)`: one entry per turn of the loop, in order. */
  method BuildMesesRecientes(cantidad: int) returns (meses: seq<Mes>)
    ensures |meses| == if cantidad < 0 then 0 else cantidad
    ensures forall k :: 0 <= k < |meses| ==> meses[k] == Entry(k)
  {
    meses := [];
    var i := 0;
    while i < cantidad
      invariant 0 <= i && (cantidad < 0 ==> i == 0) && (cantidad >= 0 ==> i <= cantidad)
      invariant |meses| == i
      invariant forall k :: 0 <= k < i ==> meses[k] == Entry(k)
    {
      var mesIndex := 11 - i;
      if mesIndex < 0 {
        mesIndex := 12 + mesIndex;
      }
      assert mesIndex == MonthIndex(i);
      var mes := MesFor(mesIndex);
      assert mes == Entry(i);
      AppendEntry(meses, i);
      meses := meses + [mes];
      i := i + 1;
    }
  }

  // ---------------------------------------------------------------------------------------
  // Properties of the entries

  lemma YearText()
    ensures IntToString(ANO_FIJO) == "2026"
  {
    assert NatToString(2) == "2";
    assert NatToString(20) == NatToString(2) + [Digit(0)];
    assert NatToString(202) == NatToString(20) + [Digit(2)];
    assert NatToString(2026) == NatToString(202) + [Digit(6)];
  }

  /** For a month index in range, the month number is its two decimal digits. */
  lemma TwoDigits(month: int)
    requires 0 <= month < 12
    ensures MonthNumber(month) == [Digit((month + 1) / 10), Digit((month + 1) % 10)]
  {
    var n := month + 1;
    var r := MonthNumber(month);
    if n < 10 {
      assert n / 10 == 0 && n % 10 == n;
      assert IntToString(n) == [Digit(n)];
      assert |r| == 2 && r[1..] == [Digit(n)] && r[0] == '0';
      assert r[1] == Digit(n);
    } else {
      assert n / 10 == 1 && n % 10 == n - 10;
      assert IntToString(n) == NatToString(1) + [Digit(n - 10)];
      assert r == IntToString(n);
    }
  }

  /** The first twelve entries run from December down to January of 2026: the key is "2026-"
      and the month's two-digit number, */
  lemma FirstYearKey(i: nat)
    requires i < 12
    ensures MonthIndex(i) == 11 - i
    ensures Entry(i).key == "2026-" + [Digit((12 - i) / 10), Digit((12 - i) % 10)]
  {
    YearText();
    TwoDigits(11 - i);
  }

  /** and the label (`etiqueta`) is the month's Spanish name and the year. */
  lemma FirstYearLabel(i: nat)
    requires i < 12
    ensures Entry(i).etiqueta == MESES_ES[11 - i] + " 2026"
  {
    assert Entry(i) == MesFor(11 - i);
  }

  /** An entry whose index is in range covers exactly that month of 2026: from its first day
      to the first day of the following month, which for December is January 2027. */
  lemma RangeIsOneMonth(i: nat)
    requires i < 24
    ensures Entry(i).desde == YearMonth(ANO_FIJO, MonthIndex(i))
    ensures Entry(i).hasta == NextMonth(Entry(i).desde)
  {
    var m := MonthIndex(i);
    assert Entry(i).desde == MonthStart(ANO_FIJO, m) && Entry(i).hasta == MonthStart(ANO_FIJO, m + 1);
    MonthStartInRange(ANO_FIJO, m);
    if m < 11 {
      MonthStartInRange(ANO_FIJO, m + 1);
      assert NextMonth(YearMonth(ANO_FIJO, m)) == YearMonth(ANO_FIJO, m + 1);
    } else {
      assert MonthStart(ANO_FIJO, m + 1) == MonthStart(ANO_FIJO, 12) == YearMonth(ANO_FIJO + 1, 0);
    }
  }

  /** Two different month numbers from 1 to 12 have different two-digit texts. */
  lemma DigitPairsDiffer(x: int, y: int)
    requires 1 <= x <= 12 && 1 <= y <= 12 && x != y
    ensures [Digit(x / 10), Digit(x % 10)] != [Digit(y / 10), Digit(y % 10)]
  {
    if x / 10 == y / 10 {
      assert x % 10 != y % 10;
      assert Digit(x % 10) != Digit(y % 10);
    } else {
      assert Digit(x / 10) != Digit(y / 10);
    }
  }

  /** Within the first twelve entries no two share a key. */
  lemma KeysDistinct(i: nat, j: nat)
    requires i < j < 12
    ensures Entry(i).key != Entry(j).key
  {
    FirstYearKey(i);
    FirstYearKey(j);
    DigitPairsDiffer(12 - i, 12 - j);
    assert Entry(i).key[5..] != Entry(j).key[5..];
  }

  /** No two entries of the list share a key. */
  predicate DistinctKeys(meses: seq<Mes>)
  {
    forall i, j :: 0 <= i < j < |meses| ==> meses[i].key != meses[j].key
  }

  /** `buildMesesRecientes(cantidad)` with `cantidad <= 12` gives pairwise distinct keys. */
  lemma BuiltKeysDistinct(meses: seq<Mes>)
    requires |meses| <= 12
    requires forall k :: 0 <= k < |meses| ==> meses[k] == Entry(k)
    ensures DistinctKeys(meses)
  {
    forall i, j | 0 <= i < j < |meses|
      ensures meses[i].key != meses[j].key
    {
      KeysDistinct(i, j);
    }
  }

  /** The second twelve entries repeat the first twelve, so a list longer than twelve has
      duplicate keys. */
  lemma SecondYearRepeats(i: nat)
    requires i < 12
    ensures Entry(i + 12) == Entry(i)
  {
  }

  /** Past 24 entries the index goes negative and the label reads "undefined 2026", */
  lemma {:induction false} BeyondTwoYears(i: nat)
    requires i >= 24
    ensures MonthIndex(i) == 23 - i && MonthIndex(i) < 0
    ensures Entry(i).etiqueta == "undefined 2026"
  {
    var m := MonthIndex(i);
    assert Entry(i).etiqueta == Label(m);
    YearText();
    assert Label(m) == "undefined" + " " + "2026";
  }

  /** and its range starts before the fixed year. */
  lemma BeyondTwoYearsRange(i: nat)
    requires i >= 24
    ensures Entry(i).desde.year < ANO_FIJO
  {
    assert Entry(i).desde == MonthStart(ANO_FIJO, MonthIndex(i));
  }

  /** Entry 24, the first such entry, has the month number "00" and the range of December 2025. */
  lemma Entry24()
    ensures Entry(24).key == "2026-00"
    ensures Entry(24).desde == YearMonth(2025, 11) && Entry(24).hasta == YearMonth(2026, 0)
  {
    YearText();
    assert IntToString(0) == "0";
    assert MonthNumber(-1) == PadStart(['0', '0'], 2, '0');
  }

  /** The first entry is December 2026, running up to January 2027. */
  lemma FirstEntry()
    ensures Entry(0).key == "2026-12" && Entry(0).etiqueta == "Diciembre 2026"
    ensures Entry(0).desde == YearMonth(2026, 11) && Entry(0).hasta == YearMonth(2027, 0)
  {
    FirstYearKey(0);
    FirstYearLabel(0);
  }

  /** The screen's list (`buildMesesRecientes(12)`) and its initial selection, the first
      entry: December 2026. */
  method SeleccionInicial() returns (meses: seq<Mes>, seleccionado: Mes)
    ensures |meses| == 12 && seleccionado == meses[0]
    ensures seleccionado.key == "2026-12" && seleccionado.etiqueta == "Diciembre 2026"
    ensures seleccionado.desde == YearMonth(2026, 11) && seleccionado.hasta == YearMonth(2027, 0)
  {
    meses := BuildMesesRecientes(12);
    seleccionado := meses[0];
    FirstEntry();
  }
}
