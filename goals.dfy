/** Savings goals (`Objetivo`): the record, the add-form checks of the goal
    screen and of the older goal panel, the clamped deposit `handleAddMoney`,
    the priority order of the list and the totals shown above it. The two
    source files share this logic; goal_screen.dfy and goal_panel.dfy hold their
    state and handlers. */
module Goals {
  import opened Text
  import opened Seqs
  import opened Amounts
  import opened DateEntry
  import opened Forms

  datatype Priority = Alta | Media | Baja

  /** `prioridadOrder` of the sort comparator. */
  function Rank(p: Priority): nat {
    match p
    case Alta => 0
    case Media => 1
    case Baja => 2
  }

  datatype Goal = Goal(
    id: int,
    nombre: string,
    metaTotal: real,
    ahorroActual: real,
    fechaLimite: string,
    descripcion: string,
    prioridad: Priority,
    categoria: string)

  /** The text fields of the add-goal form. */
  datatype GoalForm = GoalForm(
    nombre: string,
    metaTotal: string,
    fechaLimite: string,
    descripcion: string,
    prioridad: Priority,
    categoria: string)

  /** The form after a reset: empty text, priority 'Media', category 'Viaje'. */
  const EmptyForm := GoalForm("", "", "", "", Media, "Viaje")

  /** The fields of the add-goal form that a text input or a category chip
      sets as given (`{ ...prev, campo: text }`); the deadline has handlers
      of its own and the priority is not text. */
  datatype GoalCampo = GoalNombre | GoalMetaTotal | GoalDescripcion | GoalCategoria

  function GoalText(form: GoalForm, c: GoalCampo): string {
    match c
    case GoalNombre => form.nombre
    case GoalMetaTotal => form.metaTotal
    case GoalDescripcion => form.descripcion
    case GoalCategoria => form.categoria
  }

  /** The form after one of those fields is set: it holds the text, and the
      other fields, the deadline and the priority are kept. */
  function WithGoalText(form: GoalForm, c: GoalCampo, text: string): (r: GoalForm)
    ensures GoalText(r, c) == text
    ensures forall d :: d != c ==> GoalText(r, d) == GoalText(form, d)
    ensures r.fechaLimite == form.fechaLimite && r.prioridad == form.prioridad
  {
    match c
    case GoalNombre => form.(nombre := text)
    case GoalMetaTotal => form.(metaTotal := text)
    case GoalDescripcion => form.(descripcion := text)
    case GoalCategoria => form.(categoria := text)
  }

  /** The goal an accepted form creates: the read target and nothing saved yet. */
  function NewGoal(form: GoalForm, id: int, meta: real): Goal {
    Goal(id, form.nombre, meta, 0.0, form.fechaLimite, form.descripcion, form.prioridad, form.categoria)
  }

  /** Every goal's savings lie between 0 and its target. */
  predicate WithinTargets(goals: seq<Goal>) {
    forall i :: 0 <= i < |goals| ==> 0.0 <= goals[i].ahorroActual <= goals[i].metaTotal
  }

  // ----- the add-form checks ----------------------------------------------

  /** The checks of the goal screen, in their order. The deadline field is
      always a formatter output there (`handleFechaChange`), which is what the
      validator is defined on. `today` is the UTC calendar date of the moment
      of the call: `new Date("YYYY-MM-DD")` is midnight UTC, so it is after the
      current instant exactly when its date comes after today's. The last
      check repeats the first and can never fail. */
  function CheckScreenGoal(form: GoalForm, today: Date): (r: Outcome<real>)
    requires Format(form.fechaLimite) == form.fechaLimite
    ensures r.Accepted? ==> r.value > 0.0 && ParseFloat(form.metaTotal) == Some(r.value)
    ensures r.Accepted? ==> DateShape(form.fechaLimite) && Before(today, DateOf(form.fechaLimite))
  {
    var fl := form.fechaLimite;
    FormatShape(fl);
    if !Filled(form.nombre) || !Filled(form.metaTotal) || !Filled(fl) then Rejected(MissingFields)
    else if ReadAmount(form.metaTotal).Rejected? then Rejected(InvalidAmount)
    else if |fl| != 10 || !ValidDate(fl) then Rejected(InvalidDate)
    else
      FixpointShape(fl);
      if !Before(today, DateOf(fl)) then Rejected(NotInFuture)
      else if !Filled(form.nombre) || !Filled(form.metaTotal) || !Filled(fl) then
        assert false; Rejected(MissingFields)
      else ReadAmount(form.metaTotal)
  }

  /** A deadline the validator accepts: an RFC 3339 full-date of a year in 2025..2500. */
  predicate GoodDeadline(fl: string) {
    DateShape(fl) && IsFullDate(fl) && 2025 <= Year(fl) <= 2500
  }

  /** The checks of the older panel: required fields and the amount; the
      deadline is any non-empty text. The only alerts are the missing
      fields and the amount. */
  function CheckPanelGoal(form: GoalForm): (r: Outcome<real>)
    ensures r.Rejected? ==> r.reason in {MissingFields, InvalidAmount}
    ensures r.Accepted? ==> r.value > 0.0 && ParseFloat(form.metaTotal) == Some(r.value)
  {
    if !Filled(form.nombre) || !Filled(form.metaTotal) || !Filled(form.fechaLimite) then Rejected(MissingFields)
    else ReadAmount(form.metaTotal)
  }

  /** The screen accepts a form exactly when the fields are filled, the target
      reads as a positive number, the deadline is a good one and it comes after
      today; it then yields that number. Each rejection is the first check that
      fails. */
  lemma ScreenOutcome(form: GoalForm, today: Date)
    requires Format(form.fechaLimite) == form.fechaLimite
    ensures var r := CheckScreenGoal(form, today);
      var fl := form.fechaLimite;
      var filled := Filled(form.nombre) && Filled(form.metaTotal) && Filled(fl);
      var amount := IsPositiveAmount(ParseFloat(form.metaTotal));
      && (r == Rejected(MissingFields) <==> !filled)
      && (r == Rejected(InvalidAmount) <==> filled && !amount)
      && (r == Rejected(InvalidDate) <==> filled && amount && !GoodDeadline(fl))
      && (r == Rejected(NotInFuture) <==> filled && amount && GoodDeadline(fl) && !Before(today, DateOf(fl)))
      && (r.Accepted? <==> filled && amount && GoodDeadline(fl) && Before(today, DateOf(fl)))
      && (r.Accepted? ==> ParseFloat(form.metaTotal) == Some(r.value))
  {
    var fl := form.fechaLimite;
    FixpointShape(fl);
    if DateShape(fl) {
      ValidDateIffFullDate(fl);
    }
  }

  /** An empty target is already caught by the amount check. */
  lemma EmptyTargetNotPositive(form: GoalForm)
    requires IsPositiveAmount(ParseFloat(form.metaTotal))
    ensures Filled(form.metaTotal)
  {
    if form.metaTotal == "" {
      NoDigitsIsNaN("");
    }
  }

  /** Whatever the screen accepts, the older panel accepts with the same target. */
  lemma ScreenStricterThanPanel(form: GoalForm, today: Date)
    requires Format(form.fechaLimite) == form.fechaLimite
    requires CheckScreenGoal(form, today).Accepted?
    ensures CheckPanelGoal(form) == CheckScreenGoal(form, today)
  {
  }

  /** The panel accepts a form exactly when the three fields are filled and the
      target reads as a positive number; any non-empty deadline text passes. */
  lemma PanelAcceptance(form: GoalForm)
    ensures CheckPanelGoal(form).Accepted? <==>
      Filled(form.nombre) && Filled(form.fechaLimite) && IsPositiveAmount(ParseFloat(form.metaTotal))
    ensures CheckPanelGoal(form).Accepted? ==> ParseFloat(form.metaTotal) == Some(CheckPanelGoal(form).value)
    ensures CheckPanelGoal(form).Rejected? ==> CheckPanelGoal(form).reason in {MissingFields, InvalidAmount}
  {
    if form.metaTotal == "" {
      NoDigitsIsNaN("");
    }
  }

  // ----- the deposit: handleAddMoney ---------------------------------------

  function MinReal(a: real, b: real): real {
    if a <= b then a else b
  }

  /** One goal after a deposit: `Math.min(ahorroActual + cantidad, metaTotal)`. */
  function Credit(g: Goal, cantidad: real): Goal {
    g.(ahorroActual := MinReal(g.ahorroActual + cantidad, g.metaTotal))
  }

  /** `goals.map(g => g.id === id ? credited : g)` */
  function AddMoney(goals: seq<Goal>, id: int, cantidad: real): (r: seq<Goal>)
    ensures |r| == |goals|
    ensures forall i :: 0 <= i < |goals| ==> r[i] == if goals[i].id == id then Credit(goals[i], cantidad) else goals[i]
  {
    if goals == [] then []
    else [if goals[0].id == id then Credit(goals[0], cantidad) else goals[0]] + AddMoney(goals[1..], id, cantidad)
  }

  /** Only the savings of the goals with that id change, never above the target;
      a positive deposit never lowers them, and a goal that was within its
      target stays within it. */
  lemma AddMoneyEffect(goals: seq<Goal>, id: int, cantidad: real)
    ensures var r := AddMoney(goals, id, cantidad);
      forall i :: 0 <= i < |goals| ==>
        && r[i].(ahorroActual := goals[i].ahorroActual) == goals[i]
        && (goals[i].id != id ==> r[i] == goals[i])
        && (goals[i].id == id ==> r[i].ahorroActual <= r[i].metaTotal)
        && (goals[i].id == id && cantidad > 0.0 && goals[i].ahorroActual <= goals[i].metaTotal ==>
              goals[i].ahorroActual <= r[i].ahorroActual)
    ensures WithinTargets(goals) && cantidad > 0.0 ==> WithinTargets(AddMoney(goals, id, cantidad))
  {
  }

  /** A deposit to an id no goal has changes nothing. */
  lemma AddMoneyUnknownId(goals: seq<Goal>, id: int, cantidad: real)
    requires forall i :: 0 <= i < |goals| ==> goals[i].id != id
    ensures AddMoney(goals, id, cantidad) == goals
  {
  }

  /** The deposit prompt: `parseFloat(value || '0')`, then only a positive
      number is deposited; an empty answer deposits nothing. */
  function PromptAmount(value: string): (r: Option<real>)
    ensures r.Some? ==> r.value > 0.0
    ensures value == "" ==> r.None?
  {
    ParseDecimal(0);
    assert Decimal(0) == "0";
    match ReadAmount(if value == "" then "0" else value)
    case Accepted(c) => Some(c)
    case Rejected(_) => None
  }

  /** An empty answer deposits nothing; a positive numeral deposits its value. */
  lemma PromptAmounts(n: nat)
    ensures PromptAmount("") == None
    ensures PromptAmount("0") == None
    ensures n > 0 ==> PromptAmount(Decimal(n)) == Some(n as real)
    ensures forall v :: PromptAmount(v).Some? ==> PromptAmount(v).value > 0.0
  {
    ParseDecimal(0);
    assert Decimal(0) == "0";
    if n > 0 {
      DecimalAmountAccepted(n);
    }
  }

  // ----- the totals --------------------------------------------------------

  function Saved(g: Goal): real { g.ahorroActual }
  function Target(g: Goal): real { g.metaTotal }

  function TotalAhorrado(goals: seq<Goal>): real { Sum(goals, Saved) }
  function TotalMetas(goals: seq<Goal>): real { Sum(goals, Target) }

  /** `totalMetas > 0 ? totalAhorrado / totalMetas * 100 : 0`, a percentage
      while every goal is within its target. */
  function ProgresoGeneral(goals: seq<Goal>): (r: real)
    ensures WithinTargets(goals) ==> 0.0 <= r <= 100.0
  {
    assert WithinTargets(goals) ==> 0.0 <= TotalAhorrado(goals) <= TotalMetas(goals) by {
      if WithinTargets(goals) {
        SumNonNegative(goals, Saved);
        SumMonotone(goals, Saved, Target);
      }
    }
    assert TotalMetas(goals) > 0.0 && TotalAhorrado(goals) <= TotalMetas(goals) ==>
      TotalAhorrado(goals) / TotalMetas(goals) <= 1.0;
    if TotalMetas(goals) > 0.0 then TotalAhorrado(goals) / TotalMetas(goals) * 100.0 else 0.0
  }

  /** While every goal is within its target the overall progress is a percentage. */
  lemma ProgressBounds(goals: seq<Goal>)
    requires WithinTargets(goals)
    ensures 0.0 <= TotalAhorrado(goals) <= TotalMetas(goals)
    ensures 0.0 <= ProgresoGeneral(goals) <= 100.0
  {
    SumNonNegative(goals, Saved);
    SumMonotone(goals, Saved, Target);
    var a, m := TotalAhorrado(goals), TotalMetas(goals);
    if m > 0.0 {
      assert a / m <= 1.0;
    }
  }

  /** A deposit keeps the total target and, when positive, never lowers the total saved. */
  lemma {:induction false} AddMoneyTotals(goals: seq<Goal>, id: int, cantidad: real)
    ensures TotalMetas(AddMoney(goals, id, cantidad)) == TotalMetas(goals)
    ensures WithinTargets(goals) && cantidad > 0.0 ==>
      TotalAhorrado(goals) <= TotalAhorrado(AddMoney(goals, id, cantidad))
  {
    if goals != [] {
      var r := AddMoney(goals, id, cantidad);
      assert r[1..] == AddMoney(goals[1..], id, cantidad);
      AddMoneyTotals(goals[1..], id, cantidad);
      assert TotalMetas(r) == Target(r[0]) + TotalMetas(r[1..]);
      assert TotalAhorrado(r) == Saved(r[0]) + TotalAhorrado(r[1..]);
      if WithinTargets(goals) {
        assert WithinTargets(goals[1..]);
      }
    }
  }

  // ----- the priority order ------------------------------------------------

  predicate IsAlta(g: Goal) { g.prioridad == Alta }
  predicate IsMedia(g: Goal) { g.prioridad == Media }
  predicate IsBaja(g: Goal) { g.prioridad == Baja }
  predicate NotAlta(g: Goal) { g.prioridad != Alta }
  predicate NotMedia(g: Goal) { g.prioridad != Media }

  /** The list a stable sort by `Rank` gives: the 'Alta' goals, then 'Media',
      then 'Baja', each group in its original order. It is a permutation of
      the list. */
  function ByPriority(goals: seq<Goal>): (r: seq<Goal>)
    ensures |r| == |goals| && multiset(r) == multiset(goals)
  {
    GroupsPartition(goals);
    assert |multiset(Filter(goals, IsAlta) + Filter(goals, IsMedia) + Filter(goals, IsBaja))|
      == |Filter(goals, IsAlta) + Filter(goals, IsMedia) + Filter(goals, IsBaja)|;
    Filter(goals, IsAlta) + Filter(goals, IsMedia) + Filter(goals, IsBaja)
  }

  /** A new array holding the list, as `setObjetivos` of a freshly built list. */
  method ArrayOf(s: seq<Goal>) returns (a: array<Goal>)
    ensures fresh(a) && a[..] == s
  {
    a := new Goal[|s|](i requires 0 <= i < |s| => s[i]);
  }

  /** Writes `s` over the array, element by element, as the in-place sort leaves it. */
  method CopyInto(a: array<Goal>, s: seq<Goal>)
    requires |s| == a.Length
    modifies a
    ensures a[..] == s
  {
    for i := 0 to a.Length
      invariant forall j :: 0 <= j < i ==> a[j] == s[j]
    {
      a[i] := s[i];
    }
  }

  predicate SortedByRank(goals: seq<Goal>) {
    forall i, j :: 0 <= i < j < |goals| ==> Rank(goals[i].prioridad) <= Rank(goals[j].prioridad)
  }

  lemma ByPrioritySorted(goals: seq<Goal>)
    ensures SortedByRank(ByPriority(goals))
  {
    var a, m, b := Filter(goals, IsAlta), Filter(goals, IsMedia), Filter(goals, IsBaja);
    var r := ByPriority(goals);
    forall i | 0 <= i < |r|
      ensures Rank(r[i].prioridad) == if i < |a| then 0 else if i < |a| + |m| then 1 else 2
    {
      if i < |a| {
        assert r[i] == a[i];
      } else if i < |a| + |m| {
        assert r[i] == m[i - |a|];
      } else {
        assert r[i] == b[i - |a| - |m|];
      }
    }
  }

  /** Every goal is in exactly one of the three priority groups. */
  lemma GroupsPartition(goals: seq<Goal>)
    ensures multiset(Filter(goals, IsAlta)) + multiset(Filter(goals, IsMedia)) + multiset(Filter(goals, IsBaja))
      == multiset(goals)
  {
    forall g {
      GroupCounts(goals, g);
    }
  }

  /** The copies of one goal in the three groups add up to its copies in the list. */
  lemma {:induction false} GroupCounts(goals: seq<Goal>, g: Goal)
    ensures multiset(Filter(goals, IsAlta))[g] + multiset(Filter(goals, IsMedia))[g] + multiset(Filter(goals, IsBaja))[g]
      == multiset(goals)[g]
  {
    if goals != [] {
      GroupCounts(goals[1..], g);
      CountHead(goals, g);
      FilterCountHead(goals, IsAlta, g);
      FilterCountHead(goals, IsMedia, g);
      FilterCountHead(goals, IsBaja, g);
    }
  }

  /** Each priority group keeps its order: the order is stable. */
  lemma ByPriorityStable(goals: seq<Goal>)
    ensures Filter(ByPriority(goals), IsAlta) == Filter(goals, IsAlta)
    ensures Filter(ByPriority(goals), IsMedia) == Filter(goals, IsMedia)
    ensures Filter(ByPriority(goals), IsBaja) == Filter(goals, IsBaja)
  {
    var a, m, b := Filter(goals, IsAlta), Filter(goals, IsMedia), Filter(goals, IsBaja);
    GroupOfThree(a, m, b, IsAlta, 0);
    GroupOfThree(a, m, b, IsMedia, 1);
    GroupOfThree(a, m, b, IsBaja, 2);
  }

  /** Filtering three blocks where `p` holds throughout block `k` and nowhere
      in the other two gives block `k`. */
  lemma GroupOfThree(a: seq<Goal>, m: seq<Goal>, b: seq<Goal>, p: Goal -> bool, k: nat)
    requires k < 3
    requires forall i :: 0 <= i < |a| ==> p(a[i]) == (k == 0)
    requires forall i :: 0 <= i < |m| ==> p(m[i]) == (k == 1)
    requires forall i :: 0 <= i < |b| ==> p(b[i]) == (k == 2)
    ensures Filter(a + m + b, p) == [a, m, b][k]
  {
    FilterAppend(a + m, b, p);
    FilterAppend(a, m, p);
    FilterConstant(a, p, k == 0);
    FilterConstant(m, p, k == 1);
    FilterConstant(b, p, k == 2);
    if k == 0 {
      assert a + [] + [] == a;
    } else if k == 1 {
      assert [] + m + [] == m;
    } else {
      assert [] + [] + b == b;
    }
  }

  /** A list already ordered by rank is its own stable order: it is a block
      of high, then of medium, then of low priority goals. */
  lemma SortedIsByPriority(goals: seq<Goal>)
    requires SortedByRank(goals)
    ensures ByPriority(goals) == goals
  {
    var ka := FirstRankAtLeast(goals, 1);
    var km := FirstRankAtLeast(goals, 2);
    RanksFrom(goals, ka, 1);
    RanksFrom(goals, km, 2);
    Blocks(goals, ka, km);
    var a, m, b := goals[..ka], goals[ka..km], goals[km..];
    GroupOfThree(a, m, b, IsAlta, 0);
    GroupOfThree(a, m, b, IsMedia, 1);
    GroupOfThree(a, m, b, IsBaja, 2);
  }

  /** The three blocks of a list whose ranks step up at `ka` and at `km`. */
  lemma Blocks(goals: seq<Goal>, ka: nat, km: nat)
    requires ka <= |goals| && km <= |goals|
    requires forall i :: 0 <= i < ka ==> Rank(goals[i].prioridad) < 1
    requires forall i :: 0 <= i < km ==> Rank(goals[i].prioridad) < 2
    requires forall i :: ka <= i < |goals| ==> Rank(goals[i].prioridad) >= 1
    requires forall i :: km <= i < |goals| ==> Rank(goals[i].prioridad) >= 2
    ensures ka <= km
    ensures goals == goals[..ka] + goals[ka..km] + goals[km..]
    ensures forall i :: 0 <= i < ka ==> goals[..ka][i].prioridad == Alta
    ensures forall i :: 0 <= i < km - ka ==> goals[ka..km][i].prioridad == Media
    ensures forall i :: 0 <= i < |goals| - km ==> goals[km..][i].prioridad == Baja
  {
    if km < |goals| {
      assert Rank(goals[km].prioridad) >= 2;
    }
    assert ka <= km;
    assert goals == goals[..ka] + goals[ka..km] + goals[km..];
    assert forall i :: 0 <= i < km - ka ==> goals[ka..km][i] == goals[ka + i];
    assert forall i :: 0 <= i < |goals| - km ==> goals[km..][i] == goals[km + i];
  }

  /** In a rank-ordered list everything from a position of rank `r` on ranks at least `r`. */
  lemma RanksFrom(goals: seq<Goal>, k: nat, r: nat)
    requires SortedByRank(goals)
    requires k < |goals| ==> Rank(goals[k].prioridad) >= r
    ensures forall i :: k <= i < |goals| ==> Rank(goals[i].prioridad) >= r
  {
  }

  /** The first position whose rank is at least `r`, or the length. */
  function FirstRankAtLeast(goals: seq<Goal>, r: nat): (k: nat)
    ensures k <= |goals|
    ensures forall i :: 0 <= i < k ==> Rank(goals[i].prioridad) < r
    ensures k < |goals| ==> Rank(goals[k].prioridad) >= r
  {
    if goals == [] || Rank(goals[0].prioridad) >= r then 0
    else
      var k := FirstRankAtLeast(goals[1..], r);
      assert forall i :: 1 <= i < k + 1 ==> goals[i] == goals[1..][i - 1];
      k + 1
  }

  /** The stable order is the only rank-ordered list with the same priority
      groups: any stable sort by `Rank` returns `ByPriority`. */
  lemma ByPriorityUnique(goals: seq<Goal>, t: seq<Goal>)
    requires SortedByRank(t)
    requires Filter(t, IsAlta) == Filter(goals, IsAlta)
    requires Filter(t, IsMedia) == Filter(goals, IsMedia)
    requires Filter(t, IsBaja) == Filter(goals, IsBaja)
    ensures t == ByPriority(goals)
  {
    SortedIsByPriority(t);
  }

  lemma ByPriorityIdempotent(goals: seq<Goal>)
    ensures ByPriority(ByPriority(goals)) == ByPriority(goals)
  {
    ByPrioritySorted(goals);
    SortedIsByPriority(ByPriority(goals));
  }

  /** Reordering does not change a sum over the goals. */
  lemma SumByPriority(goals: seq<Goal>, f: Goal -> real)
    ensures Sum(ByPriority(goals), f) == Sum(goals, f)
  {
    var a, m, b := Filter(goals, IsAlta), Filter(goals, IsMedia), Filter(goals, IsBaja);
    SumAppend(a + m, b, f);
    SumAppend(a, m, f);
    SumSplit(goals, f, IsAlta, NotAlta);
    var rest := Filter(goals, NotAlta);
    SumSplit(rest, f, IsMedia, NotMedia);
    FilterOfFilter(goals, NotAlta, IsMedia, IsMedia);
    FilterOfFilter(goals, NotAlta, NotMedia, IsBaja);
  }

  /** The totals and the progress are the same before and after the sort. */
  lemma TotalsUnderSort(goals: seq<Goal>)
    ensures TotalAhorrado(ByPriority(goals)) == TotalAhorrado(goals)
    ensures TotalMetas(ByPriority(goals)) == TotalMetas(goals)
    ensures ProgresoGeneral(ByPriority(goals)) == ProgresoGeneral(goals)
  {
    SumByPriority(goals, Saved);
    SumByPriority(goals, Target);
  }
}
