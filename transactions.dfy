/** The transactions panel (`Transaccion`): the add-form and its sign
    convention (expenses are stored negative), the type switch of the form,
    the type filter with the search bar, and the income, expense and balance
    totals. */
module Transactions {
  import opened Text
  import opened Seqs
  import opened Amounts
  import opened DateEntry
  import opened Forms

  datatype Tipo = Ingreso | Gasto

  datatype Transaction = Transaction(
    id: int,
    nombre: string,
    categoria: string,
    monto: real,
    fecha: string,
    tipo: Tipo,
    descripcion: string)

  datatype TransactionForm = TransactionForm(
    nombre: string,
    categoria: string,
    monto: string,
    tipo: Tipo,
    descripcion: string)

  /** The form after a reset: empty text and type 'gasto'. */
  const EmptyTransactionForm := TransactionForm("", "", "", Gasto, "")

  /** The fields of the add-form that a text input or a category chip sets
      as given; the type has a handler of its own. */
  datatype TransactionCampo = TransactionNombre | TransactionCategoria | TransactionMonto | TransactionDescripcion

  function TransactionText(form: TransactionForm, c: TransactionCampo): string {
    match c
    case TransactionNombre => form.nombre
    case TransactionCategoria => form.categoria
    case TransactionMonto => form.monto
    case TransactionDescripcion => form.descripcion
  }

  /** The form after one of those fields is set: it holds the text, and the
      other fields and the type are kept. */
  function WithTransactionText(form: TransactionForm, c: TransactionCampo, text: string): (r: TransactionForm)
    ensures TransactionText(r, c) == text
    ensures forall d :: d != c ==> TransactionText(r, d) == TransactionText(form, d)
    ensures r.tipo == form.tipo
  {
    match c
    case TransactionNombre => form.(nombre := text)
    case TransactionCategoria => form.(categoria := text)
    case TransactionMonto => form.(monto := text)
    case TransactionDescripcion => form.(descripcion := text)
  }

  /** `filtroTipo`: 'todas', or one of the two types. */
  datatype TipoFilter = Todas | Only(tipo: Tipo)

  /** Incomes are stored non-negative and expenses non-positive. */
  predicate SignConvention(ts: seq<Transaction>) {
    forall i :: 0 <= i < |ts| ==> if ts[i].tipo == Gasto then ts[i].monto <= 0.0 else ts[i].monto >= 0.0
  }

  /** The checks of `handleAddTransaccion`: the three required fields, then the amount. */
  function CheckTransaction(form: TransactionForm): (r: Outcome<real>)
    ensures r.Rejected? ==> r.reason in {MissingFields, InvalidAmount}
    ensures r.Accepted? ==> r.value > 0.0 && ParseFloat(form.monto) == Some(r.value)
  {
    if !Filled(form.nombre) || !Filled(form.categoria) || !Filled(form.monto) then Rejected(MissingFields)
    else ReadAmount(form.monto)
  }

  /** The transaction an accepted form creates; an expense stores the amount
      negated, so the magnitude is kept and a non-negative amount gets the
      sign of its type. */
  function NewTransaction(form: TransactionForm, id: int, monto: real, today: string): (r: Transaction)
    ensures r.tipo == form.tipo && Abs(r.monto) == Abs(monto)
    ensures monto >= 0.0 ==> SignConvention([r])
  {
    Transaction(id, form.nombre, form.categoria, if form.tipo == Gasto then -monto else monto, today, form.tipo, form.descripcion)
  }

  /** The form accepts exactly when the three fields are filled and the amount
      reads as a positive number; the stored amount then has the type's sign
      and the magnitude that was typed. */
  lemma TransactionOutcome(form: TransactionForm, id: int, today: string)
    ensures var r := CheckTransaction(form);
      var filled := Filled(form.nombre) && Filled(form.categoria) && Filled(form.monto);
      && (r == Rejected(MissingFields) <==> !filled)
      && (r == Rejected(InvalidAmount) <==> filled && !IsPositiveAmount(ParseFloat(form.monto)))
      && (r.Accepted? <==> filled && IsPositiveAmount(ParseFloat(form.monto)))
      && (r.Accepted? ==>
            var t := NewTransaction(form, id, r.value, today);
            && ParseFloat(form.monto) == Some(r.value)
            && (t.tipo == Gasto ==> t.monto == -r.value && t.monto < 0.0)
            && (t.tipo == Ingreso ==> t.monto == r.value && t.monto > 0.0)
            && SignConvention([t]))
  {
  }

  /** Prepending an accepted transaction keeps the sign convention. */
  lemma AddKeepsSigns(form: TransactionForm, id: int, today: string, ts: seq<Transaction>)
    requires CheckTransaction(form).Accepted? && SignConvention(ts)
    ensures SignConvention([NewTransaction(form, id, CheckTransaction(form).value, today)] + ts)
  {
    var t := NewTransaction(form, id, CheckTransaction(form).value, today);
    var s := [t] + ts;
    forall i | 0 <= i < |s| ensures if s[i].tipo == Gasto then s[i].monto <= 0.0 else s[i].monto >= 0.0 {
      if i > 0 {
        assert s[i] == ts[i - 1];
      }
    }
  }

  /** Choosing a type in the form also clears the category. */
  function SelectTipo(form: TransactionForm, tipo: Tipo): (r: TransactionForm)
    ensures r.tipo == tipo && r.categoria == ""
    ensures r.(tipo := form.tipo, categoria := form.categoria) == form
  {
    form.(tipo := tipo, categoria := "")
  }

  // ----- filter and search -------------------------------------------------

  predicate MatchTipo(f: TipoFilter, t: Tipo) {
    f == Todas || f.tipo == t
  }

  predicate MatchBusqueda(t: Transaction, term: string) {
    MatchesTerm(t.nombre, term) || MatchesTerm(t.categoria, term)
  }

  /** `transaccionesFiltradas`: the listed transactions keep their original order. */
  function Filtered(ts: seq<Transaction>, f: TipoFilter, term: string): (r: seq<Transaction>)
    ensures IsSubsequence(r, ts)
  {
    FilterIsSubsequence(ts, (t: Transaction) => MatchTipo(f, t.tipo) && MatchBusqueda(t, term));
    Filter(ts, (t: Transaction) => MatchTipo(f, t.tipo) && MatchBusqueda(t, term))
  }

  /** A transaction is listed exactly when it is in the list, has the chosen
      type (any for 'todas') and its name or category contains the term,
      ignoring case; the listed ones keep their order. */
  lemma FilteredMembers(ts: seq<Transaction>, f: TipoFilter, term: string, x: Transaction)
    ensures x in Filtered(ts, f, term) <==>
      x in ts && (f == Todas || x.tipo == f.tipo) && (MatchesTerm(x.nombre, term) || MatchesTerm(x.categoria, term))
  {
    FilterMembers(ts, (t: Transaction) => MatchTipo(f, t.tipo) && MatchBusqueda(t, term), x);
  }

  /** 'todas' with an empty search lists everything. */
  lemma FilterTodasEmpty(ts: seq<Transaction>)
    ensures Filtered(ts, Todas, "") == ts
  {
    forall i | 0 <= i < |ts| ensures MatchBusqueda(ts[i], "") {
      IncludesEmpty(Lower(ts[i].nombre));
    }
    FilterAll(ts, (t: Transaction) => MatchTipo(Todas, t.tipo) && MatchBusqueda(t, ""));
  }

  // ----- the totals --------------------------------------------------------

  predicate IsIngreso(t: Transaction) { t.tipo == Ingreso }
  predicate IsGasto(t: Transaction) { t.tipo == Gasto }
  function Monto(t: Transaction): real { t.monto }

  function Abs(x: real): real {
    if x < 0.0 then -x else x
  }

  function TotalIngresos(ts: seq<Transaction>): real { Sum(Filter(ts, IsIngreso), Monto) }
  /** `Math.abs` of the sum of the expense amounts. */
  function TotalGastos(ts: seq<Transaction>): real { Abs(Sum(Filter(ts, IsGasto), Monto)) }
  /** The balance shown: under the sign convention, the plain sum of all the
      stored amounts. */
  function Balance(ts: seq<Transaction>): (r: real)
    ensures SignConvention(ts) ==> r == Sum(ts, Monto)
  {
    if SignConvention(ts) then BalanceIsSum(ts); TotalIngresos(ts) - TotalGastos(ts)
    else TotalIngresos(ts) - TotalGastos(ts)
  }

  /** Under the sign convention both totals are non-negative and the balance
      is the plain sum of all the stored amounts. */
  lemma BalanceIsSum(ts: seq<Transaction>)
    requires SignConvention(ts)
    ensures TotalIngresos(ts) >= 0.0 && TotalGastos(ts) >= 0.0
    ensures TotalGastos(ts) == -Sum(Filter(ts, IsGasto), Monto)
    ensures TotalIngresos(ts) - TotalGastos(ts) == Sum(ts, Monto)
  {
    var ing, gas := Filter(ts, IsIngreso), Filter(ts, IsGasto);
    forall i | 0 <= i < |ing| ensures Monto(ing[i]) >= 0.0 {
      FilterMembers(ts, IsIngreso, ing[i]);
    }
    forall i | 0 <= i < |gas| ensures -Monto(gas[i]) >= 0.0 {
      FilterMembers(ts, IsGasto, gas[i]);
    }
    SumNonNegative(ing, Monto);
    SumNegate(gas, Monto, (t: Transaction) => -t.monto);
    SumNonNegative(gas, (t: Transaction) => -t.monto);
    SumSplit(ts, Monto, IsIngreso, IsGasto);
  }

  lemma {:induction false} SumNegate(s: seq<Transaction>, f: Transaction -> real, g: Transaction -> real)
    requires forall x :: g(x) == -f(x)
    ensures Sum(s, g) == -Sum(s, f)
  {
    if s != [] {
      SumNegate(s[1..], f, g);
    }
  }

  /** Adding a transaction moves the balance by its signed amount. */
  lemma AddMovesBalance(t: Transaction, ts: seq<Transaction>)
    requires SignConvention([t] + ts)
    ensures Balance([t] + ts) == Balance(ts) + t.monto
  {
    var s := [t] + ts;
    assert s[1..] == ts;
    assert SignConvention(ts) by {
      forall i | 0 <= i < |ts| ensures if ts[i].tipo == Gasto then ts[i].monto <= 0.0 else ts[i].monto >= 0.0 {
        assert ts[i] == s[i + 1];
      }
    }
    BalanceIsSum(s);
    BalanceIsSum(ts);
  }

  // ----- the panel's state -------------------------------------------------

  class TransactionsPanel {
    var transacciones: seq<Transaction>
    var nuevaTransaccion: TransactionForm
    var showAddModal: bool
    var filtroTipo: TipoFilter
    var terminoBusqueda: string

    /** The panel before its transactions are loaded. */
    constructor()
      ensures transacciones == [] && nuevaTransaccion == EmptyTransactionForm && !showAddModal
      ensures filtroTipo == Todas && terminoBusqueda == ""
    {
      transacciones := [];
      nuevaTransaccion := EmptyTransactionForm;
      showAddModal := false;
      filtroTipo := Todas;
      terminoBusqueda := "";
    }

    /** `handleAddTransaccion`: the new transaction goes in front with today's
        date (`today` is the current UTC date), the form is reset and the modal
        closes; on a rejection nothing changes. The sign convention is kept. */
    method HandleAddTransaccion(id: int, today: Date) returns (r: Outcome<real>)
      requires today.year < 10000 && IsCalendarDate(today)
      modifies this
      ensures r == CheckTransaction(old(nuevaTransaccion))
      ensures r.Rejected? ==>
        && transacciones == old(transacciones) && nuevaTransaccion == old(nuevaTransaccion)
        && showAddModal == old(showAddModal)
      ensures r.Accepted? ==>
        && transacciones == [NewTransaction(old(nuevaTransaccion), id, r.value, IsoDate(today))] + old(transacciones)
        && nuevaTransaccion == EmptyTransactionForm && !showAddModal
      ensures SignConvention(old(transacciones)) ==> SignConvention(transacciones)
      ensures filtroTipo == old(filtroTipo) && terminoBusqueda == old(terminoBusqueda)
    {
      r := CheckTransaction(nuevaTransaccion);
      if r.Accepted? {
        var fecha := IsoDate(today);
        if SignConvention(transacciones) {
          AddKeepsSigns(nuevaTransaccion, id, fecha, transacciones);
        }
        transacciones := [NewTransaction(nuevaTransaccion, id, r.value, fecha)] + transacciones;
        nuevaTransaccion := EmptyTransactionForm;
        showAddModal := false;
      }
    }

    /** A text input or a category chip of the form sets its field. */
    method SetCampo(c: TransactionCampo, text: string)
      modifies this
      ensures nuevaTransaccion == WithTransactionText(old(nuevaTransaccion), c, text)
      ensures transacciones == old(transacciones) && showAddModal == old(showAddModal)
      ensures filtroTipo == old(filtroTipo) && terminoBusqueda == old(terminoBusqueda)
    {
      nuevaTransaccion := WithTransactionText(nuevaTransaccion, c, text);
    }

    /** The type buttons of the form. */
    method HandleTipoChange(tipo: Tipo)
      modifies this
      ensures nuevaTransaccion == SelectTipo(old(nuevaTransaccion), tipo)
      ensures transacciones == old(transacciones) && showAddModal == old(showAddModal)
      ensures filtroTipo == old(filtroTipo) && terminoBusqueda == old(terminoBusqueda)
    {
      nuevaTransaccion := SelectTipo(nuevaTransaccion, tipo);
    }

    method SetFiltroTipo(f: TipoFilter)
      modifies this
      ensures filtroTipo == f
      ensures transacciones == old(transacciones) && nuevaTransaccion == old(nuevaTransaccion)
      ensures showAddModal == old(showAddModal) && terminoBusqueda == old(terminoBusqueda)
    {
      filtroTipo := f;
    }

    method SetTerminoBusqueda(term: string)
      modifies this
      ensures terminoBusqueda == term
      ensures transacciones == old(transacciones) && nuevaTransaccion == old(nuevaTransaccion)
      ensures showAddModal == old(showAddModal) && filtroTipo == old(filtroTipo)
    {
      terminoBusqueda := term;
    }

    /** `transaccionesFiltradas`: the transactions the render lists, in their order. */
    function TransaccionesFiltradas(): (r: seq<Transaction>)
      reads this
      ensures IsSubsequence(r, transacciones)
      ensures filtroTipo == Todas && terminoBusqueda == "" ==> r == transacciones
    {
      FilterTodasEmpty(transacciones);
      Filtered(transacciones, filtroTipo, terminoBusqueda)
    }
  }
}
