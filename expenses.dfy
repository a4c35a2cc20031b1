/** The expenses panel (`CategoriaGasto`): the total over the categories, each
    category's share of it, the two-line preview of a category's details with
    its "see N more" link, and the bar heights of the monthly chart. */
module Expenses {
  import opened Seqs

  datatype Detalle = Detalle(concepto: string, monto: real, fecha: string)

  datatype Category = Category(id: string, nombre: string, total: real, detalles: seq<Detalle>)

  datatype MonthTotal = MonthTotal(mes: string, gastos: real)

  function Total(c: Category): real { c.total }

  /** `categorias.reduce((sum, cat) => sum + cat.total, 0)`, never negative
      while no category total is. */
  function TotalGastos(cats: seq<Category>): (r: real)
    ensures (forall i :: 0 <= i < |cats| ==> cats[i].total >= 0.0) ==> r >= 0.0
  {
    if forall i :: 0 <= i < |cats| ==> cats[i].total >= 0.0 then
      SumNonNegative(cats, Total);
      Sum(cats, Total)
    else Sum(cats, Total)
  }

  /** `categoria.total / totalGastos * 100`; `None` when the division is not a
      finite number (a zero total). */
  function Share(c: Category, totalGastos: real): (r: Option<real>)
    ensures r.None? <==> totalGastos == 0.0
  {
    if totalGastos == 0.0 then None else Some(c.total / totalGastos * 100.0)
  }

  lemma {:induction false} SumScaled(s: seq<Category>, f: Category -> real, g: Category -> real, k: real)
    requires forall c :: g(c) == f(c) * k
    ensures Sum(s, g) == Sum(s, f) * k
  {
    if s != [] {
      SumScaled(s[1..], f, g, k);
    }
  }

  /** With a non-zero total the shares of the categories add up to 100. */
  lemma SharesSumTo100(cats: seq<Category>, share: Category -> real)
    requires TotalGastos(cats) != 0.0
    requires forall c :: share(c) == c.total / TotalGastos(cats) * 100.0
    ensures forall c :: Share(c, TotalGastos(cats)) == Some(share(c))
    ensures Sum(cats, share) == 100.0
  {
    var t := TotalGastos(cats);
    SumScaled(cats, Total, share, 100.0 / t);
  }

  /** With non-negative category totals every share is a percentage. */
  lemma {:induction false} ShareBounds(cats: seq<Category>, k: nat)
    requires k < |cats|
    requires forall i :: 0 <= i < |cats| ==> cats[i].total >= 0.0
    requires TotalGastos(cats) > 0.0
    ensures 0.0 <= Share(cats[k], TotalGastos(cats)).value <= 100.0
  {
    var t := TotalGastos(cats);
    TermBelowSum(cats, k);
    Ratio(cats[k].total, t, 100.0);
  }

  lemma {:induction false} TermBelowSum(cats: seq<Category>, k: nat)
    requires k < |cats|
    requires forall i :: 0 <= i < |cats| ==> cats[i].total >= 0.0
    ensures cats[k].total <= TotalGastos(cats)
  {
    SumNonNegative(cats[1..], Total);
    if k > 0 {
      TermBelowSum(cats[1..], k - 1);
    }
  }

  // ----- the detail preview ------------------------------------------------

  /** `detalles.slice(0, 2)` */
  function Preview(c: Category): (r: seq<Detalle>)
    ensures |r| <= 2 && |r| <= |c.detalles| && r == c.detalles[..|r|]
  {
    Take(c.detalles, 2)
  }

  /** The "see N more" link: shown only past two details, with N the rest. */
  function MoreLink(c: Category): (r: Option<nat>)
    ensures r.Some? <==> |c.detalles| > 2
  {
    if |c.detalles| > 2 then Some(|c.detalles| - 2) else None
  }

  /** The preview and the link account for every detail, and the preview is
      the whole list whenever there is no link. */
  lemma PreviewAccountsForAll(c: Category)
    ensures |Preview(c)| + (if MoreLink(c).Some? then MoreLink(c).value else 0) == |c.detalles|
    ensures MoreLink(c).None? ==> Preview(c) == c.detalles
  {
  }

  // ----- the monthly chart -------------------------------------------------

  const ChartHeight: real := 120.0

  /** `Math.max(...values)` of a non-empty list. */
  function MaxOf(s: seq<real>): (m: real)
    requires s != []
    ensures forall i :: 0 <= i < |s| ==> s[i] <= m
    ensures exists i :: 0 <= i < |s| && s[i] == m
  {
    if |s| == 1 then s[0]
    else
      var m := MaxOf(s[1..]);
      assert forall i :: 1 <= i < |s| ==> s[i] == s[1..][i - 1];
      if s[0] >= m then s[0] else m
  }

  /** The monthly values the chart scales. */
  function Values(months: seq<MonthTotal>): (r: seq<real>)
    ensures |r| == |months| && forall i :: 0 <= i < |months| ==> r[i] == months[i].gastos
  {
    seq(|months|, i requires 0 <= i < |months| => months[i].gastos)
  }

  /** `gastos / maxGasto * (chartHeight - 20)` for every month; `None` where
      the quotient is not a finite number (a zero maximum). A month that
      spent nothing negative gets a bar between 0 and the drawable height,
      and a month without a bar spent nothing. */
  function BarHeights(months: seq<MonthTotal>): (r: seq<Option<real>>)
    ensures |r| == |months|
    ensures forall i :: 0 <= i < |months| && months[i].gastos >= 0.0 && r[i].Some? ==>
      0.0 <= r[i].value <= ChartHeight - 20.0
    ensures forall i :: 0 <= i < |months| && r[i].None? ==> months[i].gastos <= 0.0
  {
    if months == [] then []
    else
      var values := Values(months);
      var maxGasto := MaxOf(values);
      var r := seq(|months|, i requires 0 <= i < |months| =>
        if maxGasto == 0.0 then None else Some(months[i].gastos / maxGasto * (ChartHeight - 20.0)));
      assert forall i :: 0 <= i < |months| && months[i].gastos >= 0.0 && r[i].Some? ==>
        0.0 <= r[i].value <= ChartHeight - 20.0 by {
        forall i | 0 <= i < |months| && months[i].gastos >= 0.0 && r[i].Some?
          ensures 0.0 <= r[i].value <= ChartHeight - 20.0
        {
          assert values[i] <= maxGasto;
          Ratio(months[i].gastos, maxGasto, ChartHeight - 20.0);
        }
      }
      assert forall i :: 0 <= i < |months| && r[i].None? ==> months[i].gastos <= 0.0 by {
        forall i | 0 <= i < |months| && r[i].None?
          ensures months[i].gastos <= 0.0
        {
          assert values[i] <= maxGasto;
        }
      }
      r
  }

  /** With non-negative monthly values and one of them positive, every bar is
      between 0 and 100 high and the largest month's bar is exactly 100. With
      all of them zero no bar has a finite height. */
  lemma BarBounds(months: seq<MonthTotal>)
    requires forall i :: 0 <= i < |months| ==> months[i].gastos >= 0.0
    ensures (exists i :: 0 <= i < |months| && months[i].gastos > 0.0) ==>
      && (forall i :: 0 <= i < |months| ==>
            BarHeights(months)[i].Some? && 0.0 <= BarHeights(months)[i].value <= 100.0)
      && (exists i :: 0 <= i < |months| && BarHeights(months)[i] == Some(100.0))
    ensures (forall i :: 0 <= i < |months| ==> months[i].gastos == 0.0) ==>
      forall i :: 0 <= i < |months| ==> BarHeights(months)[i].None?
  {
    if months != [] {
      var values := Values(months);
      var maxGasto := MaxOf(values);
      var k :| 0 <= k < |values| && values[k] == maxGasto;
      if exists i :: 0 <= i < |months| && months[i].gastos > 0.0 {
        var j :| 0 <= j < |months| && months[j].gastos > 0.0;
        assert values[j] <= maxGasto;
        forall i | 0 <= i < |months|
          ensures BarHeights(months)[i].Some? && 0.0 <= BarHeights(months)[i].value <= 100.0
        {
          assert values[i] <= maxGasto;
          BarInRange(months, maxGasto, i);
        }
        BarInRange(months, maxGasto, k);
      }
    }
  }

  /** One month's bar under a positive maximum. */
  lemma BarInRange(months: seq<MonthTotal>, maxGasto: real, i: nat)
    requires i < |months| && 0.0 <= months[i].gastos <= maxGasto
    requires maxGasto == MaxOf(Values(months)) && maxGasto > 0.0
    ensures BarHeights(months)[i].Some? && 0.0 <= BarHeights(months)[i].value <= 100.0
    ensures months[i].gastos == maxGasto ==> BarHeights(months)[i] == Some(100.0)
  {
    BarAt(months, maxGasto, i);
    Ratio(months[i].gastos, maxGasto, 100.0);
  }

  lemma BarAt(months: seq<MonthTotal>, maxGasto: real, i: nat)
    requires i < |months| && maxGasto == MaxOf(Values(months)) && maxGasto != 0.0
    ensures BarHeights(months)[i] == Some(months[i].gastos / maxGasto * 100.0)
  {
  }

  /** A part of a positive whole, scaled to `h`, lies in `[0, h]` and is `h` for the whole. */
  lemma Ratio(x: real, m: real, h: real)
    requires 0.0 <= x <= m && m > 0.0 && h >= 0.0
    ensures 0.0 <= x / m * h <= h
    ensures x == m ==> x / m * h == h
  {
    var q := x / m;
    assert q * m == x;
    assert q <= 1.0;
  }

  // ----- the panel's state -------------------------------------------------

  class ExpensesPanel {
    var categorias: seq<Category>
    var totalGastos: real
    var comparacionMensual: seq<MonthTotal>

    constructor()
      ensures categorias == [] && totalGastos == 0.0 && comparacionMensual == []
    {
      categorias := [];
      totalGastos := 0.0;
      comparacionMensual := [];
    }

    /** What `loadGastos` stores once its data is there: the categories, their
        total and the monthly figures. */
    method SetData(cats: seq<Category>, months: seq<MonthTotal>)
      modifies this
      ensures categorias == cats && comparacionMensual == months
      ensures totalGastos == TotalGastos(cats)
    {
      categorias := cats;
      totalGastos := TotalGastos(cats);
      comparacionMensual := months;
    }
  }
}
