/** Bills (`Factura`): the record, the add-form checks of the bill screen and
    of the older bill panel, `handleMarcarPagada`, the status filter with the
    search bar, and the pending total and counts. bill_screen.dfy and
    bill_panel.dfy hold the state and handlers of the two files. */
module Bills {
  import opened Text
  import opened Seqs
  import opened Amounts
  import opened DateEntry
  import opened Forms

  datatype Estado = Pendiente | Pagada | Vencida

  datatype Bill = Bill(
    id: int,
    nombre: string,
    tipo: string,
    monto: real,
    fechaVencimiento: string,
    estado: Estado,
    logoUrl: Option<string>,
    ultimoPago: Option<string>,
    descripcion: string)

  datatype BillForm = BillForm(
    nombre: string,
    tipo: string,
    monto: string,
    fechaVencimiento: string,
    descripcion: string)

  const EmptyBillForm := BillForm("", "", "", "", "")

  /** The fields of the add-bill form that a text input sets as typed; the
      due date has handlers of its own. */
  datatype BillCampo = BillNombre | BillTipo | BillMonto | BillDescripcion

  function BillText(form: BillForm, c: BillCampo): string {
    match c
    case BillNombre => form.nombre
    case BillTipo => form.tipo
    case BillMonto => form.monto
    case BillDescripcion => form.descripcion
  }

  /** The form after one of those fields is set: it holds the text, and the
      other fields and the due date are kept. */
  function WithBillText(form: BillForm, c: BillCampo, text: string): (r: BillForm)
    ensures BillText(r, c) == text
    ensures forall d :: d != c ==> BillText(r, d) == BillText(form, d)
    ensures r.fechaVencimiento == form.fechaVencimiento
  {
    match c
    case BillNombre => form.(nombre := text)
    case BillTipo => form.(tipo := text)
    case BillMonto => form.(monto := text)
    case BillDescripcion => form.(descripcion := text)
  }

  /** The bill an accepted form creates: pending, with no logo and no last payment. */
  function NewBill(form: BillForm, id: int, monto: real): Bill {
    Bill(id, form.nombre, form.tipo, monto, form.fechaVencimiento, Pendiente, None, None, form.descripcion)
  }

  // ----- the add-form checks ----------------------------------------------

  /** The checks of the bill screen, in their order; the due-date field is a
      formatter output there (`handleFechaVencimientoChange`). */
  function CheckScreenBill(form: BillForm): (r: Outcome<real>)
    requires Format(form.fechaVencimiento) == form.fechaVencimiento
    ensures r.Accepted? ==> r.value > 0.0 && ParseFloat(form.monto) == Some(r.value)
    ensures r.Accepted? ==> DateShape(form.fechaVencimiento)
  {
    var fv := form.fechaVencimiento;
    FormatShape(fv);
    FixpointShape(fv);
    if !Filled(form.nombre) || !Filled(form.tipo) || !Filled(form.monto) || !Filled(fv) then Rejected(MissingFields)
    else if ReadAmount(form.monto).Rejected? then Rejected(InvalidAmount)
    else if |fv| != 10 || !ValidDate(fv) then Rejected(InvalidDate)
    else ReadAmount(form.monto)
  }

  /** The checks of the older panel: required fields and the amount only, so
      those are its only alerts. */
  function CheckPanelBill(form: BillForm): (r: Outcome<real>)
    ensures r.Rejected? ==> r.reason in {MissingFields, InvalidAmount}
    ensures r.Accepted? ==> r.value > 0.0 && ParseFloat(form.monto) == Some(r.value)
  {
    if !Filled(form.nombre) || !Filled(form.tipo) || !Filled(form.monto) || !Filled(form.fechaVencimiento) then Rejected(MissingFields)
    else ReadAmount(form.monto)
  }

  predicate FieldsFilled(form: BillForm) {
    Filled(form.nombre) && Filled(form.tipo) && Filled(form.monto) && Filled(form.fechaVencimiento)
  }

  /** The screen accepts exactly the filled forms with a positive amount and
      an RFC 3339 full-date due date of a year in 2025..2500; each rejection is
      the first check that fails. */
  lemma ScreenBillOutcome(form: BillForm)
    requires Format(form.fechaVencimiento) == form.fechaVencimiento
    ensures var r := CheckScreenBill(form);
      var fv := form.fechaVencimiento;
      var amount := IsPositiveAmount(ParseFloat(form.monto));
      var good := DateShape(fv) && IsFullDate(fv) && 2025 <= Year(fv) <= 2500;
      && (r == Rejected(MissingFields) <==> !FieldsFilled(form))
      && (r == Rejected(InvalidAmount) <==> FieldsFilled(form) && !amount)
      && (r == Rejected(InvalidDate) <==> FieldsFilled(form) && amount && !good)
      && (r.Accepted? <==> FieldsFilled(form) && amount && good)
      && (r.Accepted? ==> ParseFloat(form.monto) == Some(r.value))
  {
    var fv := form.fechaVencimiento;
    FixpointShape(fv);
    if DateShape(fv) {
      ValidDateIffFullDate(fv);
    }
  }

  /** The panel accepts exactly the filled forms with a positive amount, whatever the due-date text. */
  lemma PanelBillOutcome(form: BillForm)
    ensures var r := CheckPanelBill(form);
      && (r == Rejected(MissingFields) <==> !FieldsFilled(form))
      && (r == Rejected(InvalidAmount) <==> FieldsFilled(form) && !IsPositiveAmount(ParseFloat(form.monto)))
      && (r.Accepted? <==> FieldsFilled(form) && IsPositiveAmount(ParseFloat(form.monto)))
      && (r.Accepted? ==> ParseFloat(form.monto) == Some(r.value))
  {
  }

  /** Whatever the screen accepts, the older panel accepts with the same amount. */
  lemma ScreenBillStricter(form: BillForm)
    requires Format(form.fechaVencimiento) == form.fechaVencimiento
    requires CheckScreenBill(form).Accepted?
    ensures CheckPanelBill(form) == CheckScreenBill(form)
  {
  }

  // ----- marking a bill paid ----------------------------------------------

  function Paid(b: Bill, today: string): Bill {
    b.(estado := Pagada, ultimoPago := Some(today))
  }

  /** `bills.map(f => f.id === id ? paid : f)` */
  function MarkPaid(bills: seq<Bill>, id: int, today: string): (r: seq<Bill>)
    ensures |r| == |bills|
    ensures forall i :: 0 <= i < |bills| ==> r[i] == if bills[i].id == id then Paid(bills[i], today) else bills[i]
  {
    if bills == [] then []
    else [if bills[0].id == id then Paid(bills[0], today) else bills[0]] + MarkPaid(bills[1..], id, today)
  }

  /** Only the bills with that id change, and only in their status and last payment. */
  lemma MarkPaidEffect(bills: seq<Bill>, id: int, today: string)
    ensures var r := MarkPaid(bills, id, today);
      forall i :: 0 <= i < |bills| ==>
        && r[i].(estado := bills[i].estado, ultimoPago := bills[i].ultimoPago) == bills[i]
        && (bills[i].id == id ==> r[i].estado == Pagada && r[i].ultimoPago == Some(today))
        && (bills[i].id != id ==> r[i] == bills[i])
  {
  }

  // ----- the totals --------------------------------------------------------

  predicate IsPendiente(b: Bill) { b.estado == Pendiente }
  predicate IsVencida(b: Bill) { b.estado == Vencida }
  function Monto(b: Bill): real { b.monto }

  /** The pending total, never negative while no amount is. */
  function TotalPendientes(bills: seq<Bill>): (r: real)
    ensures (forall i :: 0 <= i < |bills| ==> bills[i].monto >= 0.0) ==> r >= 0.0
  {
    var p := Filter(bills, IsPendiente);
    assert (forall i :: 0 <= i < |bills| ==> bills[i].monto >= 0.0) ==> Sum(p, Monto) >= 0.0 by {
      if forall i :: 0 <= i < |bills| ==> bills[i].monto >= 0.0 {
        forall i | 0 <= i < |p| ensures Monto(p[i]) >= 0.0 {
          FilterMembers(bills, IsPendiente, p[i]);
        }
        SumNonNegative(p, Monto);
      }
    }
    Sum(p, Monto)
  }
  function FacturasPendientes(bills: seq<Bill>): nat { |Filter(bills, IsPendiente)| }
  function FacturasVencidas(bills: seq<Bill>): nat { |Filter(bills, IsVencida)| }

  /** Paying the one pending bill with a given id lowers the pending count by
      one and the pending total by its amount; the overdue count stays. */
  lemma {:induction false} MarkUniquePending(bills: seq<Bill>, id: int, today: string, k: nat)
    requires k < |bills| && bills[k].id == id && bills[k].estado == Pendiente
    requires forall i :: 0 <= i < |bills| && i != k ==> bills[i].id != id
    ensures FacturasPendientes(MarkPaid(bills, id, today)) == FacturasPendientes(bills) - 1
    ensures TotalPendientes(MarkPaid(bills, id, today)) == TotalPendientes(bills) - bills[k].monto
    ensures FacturasVencidas(MarkPaid(bills, id, today)) == FacturasVencidas(bills)
  {
    var r := MarkPaid(bills, id, today);
    var t := bills[1..];
    assert r[1..] == MarkPaid(t, id, today);
    FilterHeadSum(bills, IsPendiente, Monto);
    FilterHeadSum(r, IsPendiente, Monto);
    FilterHeadSum(bills, IsVencida, Monto);
    FilterHeadSum(r, IsVencida, Monto);
    if k == 0 {
      assert MarkPaid(t, id, today) == t;
    } else {
      MarkUniquePending(t, id, today, k - 1);
    }
  }

  // ----- the status filter and the search bar -----------------------------

  datatype EstadoFilter = All | Pending | PaidFilter | Overdue

  /** `estadoMap`: the filter code a status is listed under. */
  function Code(e: Estado): EstadoFilter {
    match e
    case Pendiente => Pending
    case Pagada => PaidFilter
    case Vencida => Overdue
  }

  predicate MatchEstado(f: EstadoFilter, e: Estado) {
    f == All || Code(e) == f
  }

  predicate MatchBusqueda(b: Bill, term: string) {
    MatchesTerm(b.nombre, term) || MatchesTerm(b.tipo, term)
  }

  /** `facturasFiltradas`: the listed bills keep their original order. */
  function Filtered(bills: seq<Bill>, f: EstadoFilter, term: string): (r: seq<Bill>)
    ensures IsSubsequence(r, bills)
  {
    FilterIsSubsequence(bills, (b: Bill) => MatchEstado(f, b.estado) && MatchBusqueda(b, term));
    Filter(bills, (b: Bill) => MatchEstado(f, b.estado) && MatchBusqueda(b, term))
  }

  /** A bill is listed exactly when it is in the list, its status passes the filter (the
      status named by the code, or any for 'all') and its name or type contains the
      term, ignoring case. */
  lemma FilteredMembers(bills: seq<Bill>, f: EstadoFilter, term: string, x: Bill)
    ensures x in Filtered(bills, f, term) <==>
      x in bills && MatchEstado(f, x.estado) && (MatchesTerm(x.nombre, term) || MatchesTerm(x.tipo, term))
    ensures f == Pending ==> (MatchEstado(f, x.estado) <==> x.estado == Pendiente)
    ensures f == PaidFilter ==> (MatchEstado(f, x.estado) <==> x.estado == Pagada)
    ensures f == Overdue ==> (MatchEstado(f, x.estado) <==> x.estado == Vencida)
  {
    FilterMembers(bills, (b: Bill) => MatchEstado(f, b.estado) && MatchBusqueda(b, term), x);
  }

  /** The 'all' filter with an empty search lists every bill. */
  lemma FilterAllEmpty(bills: seq<Bill>)
    ensures Filtered(bills, All, "") == bills
  {
    forall i | 0 <= i < |bills| ensures MatchBusqueda(bills[i], "") {
      IncludesEmpty(Lower(bills[i].nombre));
    }
    FilterAll(bills, (b: Bill) => MatchEstado(All, b.estado) && MatchBusqueda(b, ""));
  }
}
