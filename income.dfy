/** The income panel (`Ingreso`): the add-form checks, the prepend and the
    reset of the form. */
module Income {
  import opened Seqs
  import opened Amounts
  import opened DateEntry
  import opened Forms

  datatype Ingreso = Ingreso(
    id: int,
    concepto: string,
    fuente: string,
    monto: real,
    fecha: string,
    categoria: string)

  datatype IncomeForm = IncomeForm(concepto: string, fuente: string, monto: string, categoria: string)

  /** The form after a reset: empty text and category 'Salario'. */
  const EmptyIncomeForm := IncomeForm("", "", "", "Salario")

  /** The fields of the add-form, each set as given by its text input or its
      category chip. */
  datatype IncomeCampo = IncomeConcepto | IncomeFuente | IncomeMonto | IncomeCategoria

  function IncomeText(form: IncomeForm, c: IncomeCampo): string {
    match c
    case IncomeConcepto => form.concepto
    case IncomeFuente => form.fuente
    case IncomeMonto => form.monto
    case IncomeCategoria => form.categoria
  }

  /** The form after one field is set: it holds the text and the others are kept. */
  function WithIncomeText(form: IncomeForm, c: IncomeCampo, text: string): (r: IncomeForm)
    ensures IncomeText(r, c) == text
    ensures forall d :: d != c ==> IncomeText(r, d) == IncomeText(form, d)
  {
    match c
    case IncomeConcepto => form.(concepto := text)
    case IncomeFuente => form.(fuente := text)
    case IncomeMonto => form.(monto := text)
    case IncomeCategoria => form.(categoria := text)
  }

  /** The checks of `handleAddIngreso`: the three required fields, then the
      amount; those are its only alerts. */
  function CheckIngreso(form: IncomeForm): (r: Outcome<real>)
    ensures r.Rejected? ==> r.reason in {MissingFields, InvalidAmount}
    ensures r.Accepted? ==> r.value > 0.0 && ParseFloat(form.monto) == Some(r.value)
  {
    if !Filled(form.concepto) || !Filled(form.fuente) || !Filled(form.monto) then Rejected(MissingFields)
    else ReadAmount(form.monto)
  }

  function NewIngreso(form: IncomeForm, id: int, monto: real, today: string): Ingreso {
    Ingreso(id, form.concepto, form.fuente, monto, today, form.categoria)
  }

  predicate AllPositive(xs: seq<Ingreso>) {
    forall i :: 0 <= i < |xs| ==> xs[i].monto > 0.0
  }

  /** A positive entry put in front keeps every amount positive. */
  lemma PrependPositive(e: Ingreso, xs: seq<Ingreso>)
    requires e.monto > 0.0 && AllPositive(xs)
    ensures AllPositive([e] + xs)
  {
    assert forall i :: 0 < i < |xs| + 1 ==> ([e] + xs)[i] == xs[i - 1];
  }

  /** The form accepts exactly when the three fields are filled and the amount
      reads as a positive number, which is then the stored amount. */
  lemma IngresoOutcome(form: IncomeForm)
    ensures var r := CheckIngreso(form);
      var filled := Filled(form.concepto) && Filled(form.fuente) && Filled(form.monto);
      && (r == Rejected(MissingFields) <==> !filled)
      && (r == Rejected(InvalidAmount) <==> filled && !IsPositiveAmount(ParseFloat(form.monto)))
      && (r.Accepted? <==> filled && IsPositiveAmount(ParseFloat(form.monto)))
      && (r.Accepted? ==> ParseFloat(form.monto) == Some(r.value) && r.value > 0.0)
  {
  }

  class IncomePanel {
    var ingresos: seq<Ingreso>
    var nuevoIngreso: IncomeForm
    var showAddModal: bool

    /** The panel before its entries are loaded. */
    constructor()
      ensures ingresos == [] && nuevoIngreso == EmptyIncomeForm && !showAddModal
    {
      ingresos := [];
      nuevoIngreso := EmptyIncomeForm;
      showAddModal := false;
    }

    /** A text input or a category chip of the form sets its field. */
    method SetCampo(c: IncomeCampo, text: string)
      modifies this
      ensures nuevoIngreso == WithIncomeText(old(nuevoIngreso), c, text)
      ensures ingresos == old(ingresos) && showAddModal == old(showAddModal)
    {
      nuevoIngreso := WithIncomeText(nuevoIngreso, c, text);
    }

    /** `handleAddIngreso`: the new entry goes in front with today's date
        (`today` is the current UTC date) and the earlier entries follow
        unchanged; the form is reset and the modal closes. On a rejection
        nothing changes. Every stored amount stays positive. */
    method HandleAddIngreso(id: int, today: Date) returns (r: Outcome<real>)
      requires today.year < 10000 && IsCalendarDate(today)
      modifies this
      ensures r == CheckIngreso(old(nuevoIngreso))
      ensures r.Rejected? ==>
        ingresos == old(ingresos) && nuevoIngreso == old(nuevoIngreso) && showAddModal == old(showAddModal)
      ensures r.Accepted? ==>
        && ingresos == [NewIngreso(old(nuevoIngreso), id, r.value, IsoDate(today))] + old(ingresos)
        && nuevoIngreso == EmptyIncomeForm && !showAddModal
      ensures AllPositive(old(ingresos)) ==> AllPositive(ingresos)
    {
      r := CheckIngreso(nuevoIngreso);
      if r.Accepted? {
        var e := NewIngreso(nuevoIngreso, id, r.value, IsoDate(today));
        if AllPositive(ingresos) {
          PrependPositive(e, ingresos);
        }
        ingresos := [e] + ingresos;
        nuevoIngreso := EmptyIncomeForm;
        showAddModal := false;
      }
    }
  }
}
