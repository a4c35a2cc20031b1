/** The state of the older goal panel and its handlers. It keeps the same
    list, form and modal flag as the goal screen, but its deadline field takes
    the typed text as it is and its add handler runs no date check. */
module GoalsPanel {
  import opened Seqs
  import opened Amounts
  import opened Forms
  import opened Goals

  class GoalPanel {
    var objetivos: array<Goal>
    var nuevoObjetivo: GoalForm
    var showAddModal: bool

    /** The panel before its goals are loaded: no goals, an empty form, no modal. */
    constructor()
      ensures objetivos[..] == [] && nuevoObjetivo == EmptyForm && !showAddModal
    {
      objetivos := new Goal[0];
      nuevoObjetivo := EmptyForm;
      showAddModal := false;
    }

    /** The deadline field's `onChangeText`: the text is stored as typed. */
    method SetFechaLimite(text: string)
      modifies this
      ensures nuevoObjetivo == old(nuevoObjetivo).(fechaLimite := text)
      ensures objetivos == old(objetivos) && showAddModal == old(showAddModal)
    {
      nuevoObjetivo := nuevoObjetivo.(fechaLimite := text);
    }

    /** A text input or a category chip of the form sets its field. */
    method SetCampo(c: GoalCampo, text: string)
      modifies this
      ensures nuevoObjetivo == WithGoalText(old(nuevoObjetivo), c, text)
      ensures objetivos == old(objetivos) && showAddModal == old(showAddModal)
    {
      nuevoObjetivo := WithGoalText(nuevoObjetivo, c, text);
    }

    /** A priority button of the form sets the priority. */
    method SetPrioridad(p: Priority)
      modifies this
      ensures nuevoObjetivo == old(nuevoObjetivo).(prioridad := p)
      ensures objetivos == old(objetivos) && showAddModal == old(showAddModal)
    {
      nuevoObjetivo := nuevoObjetivo.(prioridad := p);
    }

    /** `handleAddObjetivo`: after the checks pass, the new goal goes in front of
        the others, the form is reset and the modal closes; on a rejection
        nothing changes. */
    method HandleAddObjetivo(id: int) returns (r: Outcome<real>)
      modifies this
      ensures r == CheckPanelGoal(old(nuevoObjetivo))
      ensures r.Rejected? ==>
        objetivos == old(objetivos) && nuevoObjetivo == old(nuevoObjetivo) && showAddModal == old(showAddModal)
      ensures r.Accepted? ==>
        && fresh(objetivos)
        && objetivos[..] == [NewGoal(old(nuevoObjetivo), id, r.value)] + old(objetivos[..])
        && nuevoObjetivo == EmptyForm && !showAddModal
    {
      r := CheckPanelGoal(nuevoObjetivo);
      if r.Accepted? {
        var s := [NewGoal(nuevoObjetivo, id, r.value)] + objetivos[..];
        objetivos := ArrayOf(s);
        nuevoObjetivo := EmptyForm;
        showAddModal := false;
      }
    }

    /** `handleAddMoney`: the list becomes its clamped-deposit map. */
    method HandleAddMoney(objetivoId: int, cantidad: real)
      modifies this
      ensures fresh(objetivos)
      ensures objetivos[..] == AddMoney(old(objetivos[..]), objetivoId, cantidad)
      ensures nuevoObjetivo == old(nuevoObjetivo) && showAddModal == old(showAddModal)
    {
      var s := AddMoney(objetivos[..], objetivoId, cantidad);
      objetivos := ArrayOf(s);
    }

    /** The "add money" prompt: deposits only an answer that reads as a positive number. */
    method PromptAddMoney(objetivoId: int, value: string)
      modifies this
      ensures PromptAmount(value).None? ==> objetivos == old(objetivos)
      ensures PromptAmount(value).Some? ==>
        objetivos[..] == AddMoney(old(objetivos[..]), objetivoId, PromptAmount(value).value)
      ensures nuevoObjetivo == old(nuevoObjetivo) && showAddModal == old(showAddModal)
    {
      var cantidad := PromptAmount(value);
      if cantidad.Some? {
        HandleAddMoney(objetivoId, cantidad.value);
      }
    }

    /** `objetivos.sort(...)`: the array itself is reordered, into the stable
        order by priority rank. */
    method SortByPriority()
      modifies objetivos
      ensures objetivos[..] == ByPriority(old(objetivos[..]))
      ensures multiset(objetivos[..]) == multiset(old(objetivos[..]))
    {
      var sorted := ByPriority(objetivos[..]);
      CopyInto(objetivos, sorted);
    }

    /** The render: the list is sorted, then the totals and the overall progress are computed. */
    method Summary() returns (totalAhorrado: real, totalMetas: real, progresoGeneral: real)
      modifies objetivos
      ensures objetivos[..] == ByPriority(old(objetivos[..]))
      ensures totalAhorrado == TotalAhorrado(old(objetivos[..]))
      ensures totalMetas == TotalMetas(old(objetivos[..]))
      ensures progresoGeneral == ProgresoGeneral(old(objetivos[..]))
    {
      SortByPriority();
      TotalsUnderSort(old(objetivos[..]));
      totalAhorrado := TotalAhorrado(objetivos[..]);
      totalMetas := TotalMetas(objetivos[..]);
      progresoGeneral := if totalMetas > 0.0 then totalAhorrado / totalMetas * 100.0 else 0.0;
    }
  }
}
