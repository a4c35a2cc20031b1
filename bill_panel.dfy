/** The state of the older bill panel and its handlers: the same as the bill
    screen's, except that the due-date field takes the typed text as it is and
    the add handler runs no date check. */
module BillsPanel {
  import opened Seqs
  import opened DateEntry
  import opened Forms
  import opened Bills

  class BillPanel {
    var facturas: seq<Bill>
    var nuevaFactura: BillForm
    var showAddModal: bool
    var filtroEstado: EstadoFilter
    var terminoBusqueda: string

    /** The panel before its bills are loaded: no bills, an empty form, the 'all' filter, no search. */
    constructor()
      ensures facturas == [] && nuevaFactura == EmptyBillForm && !showAddModal
      ensures filtroEstado == All && terminoBusqueda == ""
    {
      facturas := [];
      nuevaFactura := EmptyBillForm;
      showAddModal := false;
      filtroEstado := All;
      terminoBusqueda := "";
    }

    /** The due-date field's `onChangeText`: the text is stored as typed. */
    method SetFechaVencimiento(text: string)
      modifies this
      ensures nuevaFactura == old(nuevaFactura).(fechaVencimiento := text)
      ensures facturas == old(facturas) && showAddModal == old(showAddModal)
      ensures filtroEstado == old(filtroEstado) && terminoBusqueda == old(terminoBusqueda)
    {
      nuevaFactura := nuevaFactura.(fechaVencimiento := text);
    }

    /** `handleAddFactura`: an accepted bill goes in front as pending, the form
        is reset and the modal closes; on a rejection nothing changes. */
    method HandleAddFactura(id: int) returns (r: Outcome<real>)
      modifies this
      ensures r == CheckPanelBill(old(nuevaFactura))
      ensures r.Rejected? ==>
        facturas == old(facturas) && nuevaFactura == old(nuevaFactura) && showAddModal == old(showAddModal)
      ensures r.Accepted? ==>
        && facturas == [NewBill(old(nuevaFactura), id, r.value)] + old(facturas)
        && nuevaFactura == EmptyBillForm && !showAddModal
      ensures filtroEstado == old(filtroEstado) && terminoBusqueda == old(terminoBusqueda)
    {
      r := CheckPanelBill(nuevaFactura);
      if r.Accepted? {
        facturas := [NewBill(nuevaFactura, id, r.value)] + facturas;
        nuevaFactura := EmptyBillForm;
        showAddModal := false;
      }
    }

    /** A text input of the form sets its field. */
    method SetCampo(c: BillCampo, text: string)
      modifies this
      ensures nuevaFactura == WithBillText(old(nuevaFactura), c, text)
      ensures facturas == old(facturas) && showAddModal == old(showAddModal)
      ensures filtroEstado == old(filtroEstado) && terminoBusqueda == old(terminoBusqueda)
    {
      nuevaFactura := WithBillText(nuevaFactura, c, text);
    }

    /** `handleMarcarPagada`: once the user confirms, the bills with that id are
        paid today (`today` is the current date in UTC); cancelling changes nothing. */
    method HandleMarcarPagada(id: int, confirmed: bool, today: Date)
      requires today.year < 10000 && IsCalendarDate(today)
      modifies this
      ensures facturas == if confirmed then MarkPaid(old(facturas), id, IsoDate(today)) else old(facturas)
      ensures nuevaFactura == old(nuevaFactura) && showAddModal == old(showAddModal)
      ensures filtroEstado == old(filtroEstado) && terminoBusqueda == old(terminoBusqueda)
    {
      if confirmed {
        facturas := MarkPaid(facturas, id, IsoDate(today));
      }
    }

    method SetFiltroEstado(f: EstadoFilter)
      modifies this
      ensures filtroEstado == f
      ensures facturas == old(facturas) && nuevaFactura == old(nuevaFactura)
      ensures showAddModal == old(showAddModal) && terminoBusqueda == old(terminoBusqueda)
    {
      filtroEstado := f;
    }

    method SetTerminoBusqueda(term: string)
      modifies this
      ensures terminoBusqueda == term
      ensures facturas == old(facturas) && nuevaFactura == old(nuevaFactura)
      ensures showAddModal == old(showAddModal) && filtroEstado == old(filtroEstado)
    {
      terminoBusqueda := term;
    }

    /** `facturasFiltradas`: the bills the render lists, in their order; all of
        them under the 'all' filter with an empty search. */
    function FacturasFiltradas(): (r: seq<Bill>)
      reads this
      ensures IsSubsequence(r, facturas)
      ensures filtroEstado == All && terminoBusqueda == "" ==> r == facturas
    {
      FilterAllEmpty(facturas);
      Filtered(facturas, filtroEstado, terminoBusqueda)
    }
  }
}
