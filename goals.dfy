/**
 * The goals page (app/dashboard/goals/page.tsx): the check that a goal
 * sets at least one target, the index of daily markings by date, the
 * decision a click on a calendar day makes, the edit form filled from a
 * goal, the tab each action lands on, and the cells of the month grid.
 */
module Goals {
  import opened Base

  /** A property of a parsed object: missing, `null`, or a value. */
  datatype Field<+T> = Undefined | Null | Value(value: T)

  /** JavaScript truthiness of a possibly missing number. */
  predicate TruthyNumber(f: Field<real>) {
    f.Value? && f.value != 0.0
  }

  /** `a || b` over possibly missing numbers. */
  function OrNumber(a: Field<real>, b: Field<real>): Field<real> {
    if TruthyNumber(a) then a else b
  }

  /** `a ?? b`: `b` when `a` is missing or `null`. */
  function Coalesce<T>(a: Field<T>, b: Field<T>): Field<T> {
    if a.Value? then a else b
  }

  /** A habit goal as the backend returns it (`MetaHabito`). */
  datatype Meta = Meta(
    id: int,
    titulo: string,
    modalidade: string,
    ativo: bool,
    dataInicio: Field<string>,
    dataFim: Field<string>,
    frequenciaSemana: Field<real>,
    distanciaMetaKm: Field<real>,
    duracaoMetaMin: Field<real>,
    sessoesMeta: Field<real>)

  /** The fields of a create or edit form (`MetaHabitoInput`). */
  datatype MetaInput = MetaInput(
    titulo: string,
    modalidade: string,
    dataInicio: string,
    dataFim: Field<string>,
    frequenciaSemana: Field<real>,
    distanciaMetaKm: Field<real>,
    duracaoMetaMin: Field<real>,
    sessoesMeta: Field<real>,
    ativo: Field<bool>)

  /** `hasPeloMenosUmTarget`: `Boolean(f || d || m || s)` over the four targets. */
  function HasTarget(d: MetaInput): (b: bool)
    ensures b <==> exists t :: t in [d.frequenciaSemana, d.distanciaMetaKm, d.duracaoMetaMin, d.sessoesMeta] && TruthyNumber(t)
    ensures !b <==> forall t :: t in [d.frequenciaSemana, d.distanciaMetaKm, d.duracaoMetaMin, d.sessoesMeta] ==> t.Undefined? || t.Null? || t.value == 0.0
  {
    var targets := [d.frequenciaSemana, d.distanciaMetaKm, d.duracaoMetaMin, d.sessoesMeta];
    assert forall t :: t in targets ==> t == targets[0] || t == targets[1] || t == targets[2] || t == targets[3];
    TruthyNumber(OrNumber(OrNumber(OrNumber(d.frequenciaSemana, d.distanciaMetaKm), d.duracaoMetaMin), d.sessoesMeta))
  }

  /** `abrirEditModal`: the edit form filled from a goal; `today` is the current date as ISO text. */
  function EditForm(meta: Meta, today: string): (f: MetaInput)
    ensures f.titulo == meta.titulo && f.modalidade == meta.modalidade && f.ativo == Value(meta.ativo)
    ensures f.dataInicio == if meta.dataInicio.Value? then meta.dataInicio.value else today
    ensures f.dataFim == if meta.dataFim.Value? then meta.dataFim else Null
    ensures f.frequenciaSemana == (if meta.frequenciaSemana.Undefined? then Null else meta.frequenciaSemana)
    ensures f.distanciaMetaKm == (if meta.distanciaMetaKm.Undefined? then Null else meta.distanciaMetaKm)
    ensures f.duracaoMetaMin == (if meta.duracaoMetaMin.Undefined? then Null else meta.duracaoMetaMin)
    ensures f.sessoesMeta == (if meta.sessoesMeta.Undefined? then Null else meta.sessoesMeta)
    ensures !f.dataFim.Undefined? && !f.frequenciaSemana.Undefined? && !f.distanciaMetaKm.Undefined?
      && !f.duracaoMetaMin.Undefined? && !f.sessoesMeta.Undefined?
  {
    MetaInput(
      meta.titulo,
      meta.modalidade,
      Coalesce(meta.dataInicio, Value(today)).value,
      Coalesce(meta.dataFim, Null),
      if !meta.frequenciaSemana.Undefined? then meta.frequenciaSemana else Null,
      if !meta.distanciaMetaKm.Undefined? then meta.distanciaMetaKm else Null,
      if !meta.duracaoMetaMin.Undefined? then meta.duracaoMetaMin else Null,
      if !meta.sessoesMeta.Undefined? then meta.sessoesMeta else Null,
      Value(meta.ativo))
  }

  /** The edit form of a goal passes the target check exactly when the goal itself has a target. */
  lemma EditFormKeepsTargets(meta: Meta, today: string)
    ensures HasTarget(EditForm(meta, today)) <==>
      TruthyNumber(meta.frequenciaSemana) || TruthyNumber(meta.distanciaMetaKm)
      || TruthyNumber(meta.duracaoMetaMin) || TruthyNumber(meta.sessoesMeta)
  {
    var f := EditForm(meta, today);
    assert f.frequenciaSemana in [f.frequenciaSemana, f.distanciaMetaKm, f.duracaoMetaMin, f.sessoesMeta];
    assert f.distanciaMetaKm in [f.frequenciaSemana, f.distanciaMetaKm, f.duracaoMetaMin, f.sessoesMeta];
    assert f.duracaoMetaMin in [f.frequenciaSemana, f.distanciaMetaKm, f.duracaoMetaMin, f.sessoesMeta];
    assert f.sessoesMeta in [f.frequenciaSemana, f.distanciaMetaKm, f.duracaoMetaMin, f.sessoesMeta];
  }

  /** A day's marking of a goal (`MarcacaoHabito`). */
  datatype Marcacao = Marcacao(id: int, meta: int, data: string, concluido: bool)

  /** The index `marcacoesPorData` builds: each date holds the last marking of the list with that date. */
  function ByDate(ms: seq<Marcacao>): map<string, Marcacao> {
    if ms == [] then map[] else ByDate(ms[..|ms| - 1])[ms[|ms| - 1].data := ms[|ms| - 1]]
  }

  /** `marcacoesPorData`: the `forEach` that fills the index, later entries overwriting earlier ones. */
  method MarcacoesPorData(ms: seq<Marcacao>) returns (index: map<string, Marcacao>)
    ensures index == ByDate(ms)
  {
    index := map[];
    for k := 0 to |ms|
      invariant index == ByDate(ms[..k])
    {
      assert ms[..k + 1][..k] == ms[..k];
      index := index[ms[k].data := ms[k]];
    }
    assert ms[..|ms|] == ms;
  }

  /** `m` is the last marking of the list for its date. */
  predicate IsLastFor(ms: seq<Marcacao>, d: string, i: int) {
    0 <= i < |ms| && ms[i].data == d && forall j :: i < j < |ms| ==> ms[j].data != d
  }

  /** The index holds exactly the dates of the list. */
  lemma {:induction false} ByDateKeys(ms: seq<Marcacao>)
    ensures forall d :: d in ByDate(ms) <==> exists i :: 0 <= i < |ms| && ms[i].data == d
  {
    if ms != [] {
      var init := ms[..|ms| - 1];
      ByDateKeys(init);
      forall d | exists i :: 0 <= i < |ms| && ms[i].data == d ensures d in ByDate(ms) {
        var i :| 0 <= i < |ms| && ms[i].data == d;
        if i < |ms| - 1 {
          assert init[i].data == d;
        }
      }
    }
  }

  /** Each date of the index is mapped to the last marking of the list with that date. */
  lemma {:induction false} ByDateLastWins(ms: seq<Marcacao>)
    ensures forall d :: d in ByDate(ms) ==> exists i :: IsLastFor(ms, d, i) && ByDate(ms)[d] == ms[i]
  {
    if ms != [] {
      var init := ms[..|ms| - 1];
      var last := ms[|ms| - 1];
      ByDateLastWins(init);
      forall d | d in ByDate(ms) ensures exists i :: IsLastFor(ms, d, i) && ByDate(ms)[d] == ms[i] {
        if d == last.data {
          assert IsLastFor(ms, d, |ms| - 1);
        } else {
          assert d in ByDate(init);
          var i :| IsLastFor(init, d, i) && ByDate(init)[d] == init[i];
          assert IsLastFor(ms, d, i);
        }
      }
    }
  }

  /** A date has at most one last marking. */
  lemma LastIsUnique(ms: seq<Marcacao>, d: string, i: int, k: int)
    requires IsLastFor(ms, d, i) && IsLastFor(ms, d, k)
    ensures i == k
  {
  }

  /** What a click on a day sends: a new completed marking, or the negation of the existing one. */
  datatype MarkCall =
    | CreateMarcacao(meta: int, data: string, concluido: bool, sessao: Option<int>)
    | UpdateMarcacao(id: int, concluido: bool)

  /** The decision in `toggleMarcacaoDia`. */
  function ToggleCall(index: map<string, Marcacao>, meta: int, date: string): (c: MarkCall)
    ensures date !in index ==> c == CreateMarcacao(meta, date, true, None)
    ensures date in index ==> c == UpdateMarcacao(index[date].id, !index[date].concluido)
  {
    if date !in index then CreateMarcacao(meta, date, true, None)
    else UpdateMarcacao(index[date].id, !index[date].concluido)
  }

  /**
   * A click on a day with no marking in the list creates a completed one; a
   * click on a day with markings flips the last of them, and only its flag.
   */
  lemma ToggleFollowsList(ms: seq<Marcacao>, meta: int, date: string)
    ensures (forall i :: 0 <= i < |ms| ==> ms[i].data != date) ==>
      ToggleCall(ByDate(ms), meta, date) == CreateMarcacao(meta, date, true, None)
    ensures forall i :: IsLastFor(ms, date, i) ==>
      ToggleCall(ByDate(ms), meta, date) == UpdateMarcacao(ms[i].id, !ms[i].concluido)
  {
    ByDateLastWins(ms);
    ByDateKeys(ms);
    forall i | IsLastFor(ms, date, i)
      ensures ToggleCall(ByDate(ms), meta, date) == UpdateMarcacao(ms[i].id, !ms[i].concluido)
    {
      ByDateKeys(ms);
      assert date in ByDate(ms);
      var k :| IsLastFor(ms, date, k) && ByDate(ms)[date] == ms[k];
      LastIsUnique(ms, date, i, k);
    }
  }

  /** `CalendarGrid`'s two loops: `firstWeekday` empty cells, then the days 1 to `daysInMonth`. */
  method CalendarCells(firstWeekday: nat, daysInMonth: nat) returns (cells: seq<Option<nat>>)
    ensures |cells| == firstWeekday + daysInMonth
    ensures forall i :: 0 <= i < firstWeekday ==> cells[i] == None
    ensures forall d :: 1 <= d <= daysInMonth ==> cells[firstWeekday + d - 1] == Some(d)
  {
    cells := [];
    for i := 0 to firstWeekday
      invariant |cells| == i && forall k :: 0 <= k < i ==> cells[k] == None
    {
      cells := cells + [None];
    }
    for day := 1 to daysInMonth + 1
      invariant |cells| == firstWeekday + day - 1
      invariant forall k :: 0 <= k < firstWeekday ==> cells[k] == None
      invariant forall d :: 1 <= d < day ==> cells[firstWeekday + d - 1] == Some(d)
    {
      cells := cells + [Some(day)];
    }
  }

  /** Whether a day is drawn as done: `!!marcacao?.concluido`. */
  function DayDone(index: map<string, Marcacao>, iso: string): (b: bool)
    ensures b <==> iso in index && index[iso].concluido
  {
    iso in index && index[iso].concluido
  }

  /**
   * A click flips how the day is drawn, once the reloaded marks carry the
   * mark that the click's call stored: the created mark, or the existing
   * one with the flag the update sent.
   */
  lemma ToggleFlipsDay(index: map<string, Marcacao>, meta: int, date: string, m: Marcacao)
    requires var c := ToggleCall(index, meta, date);
      && (c.CreateMarcacao? ==> m.meta == c.meta && m.data == c.data && m.concluido == c.concluido)
      && (c.UpdateMarcacao? ==> date in index && m == index[date].(concluido := c.concluido))
    ensures DayDone(index[date := m], date) == !DayDone(index, date)
  {
  }

  datatype Tab = Ativas | Inativas

  const NoTargetOnCreate := "Defina pelo menos um objetivo (frequência, distância, duração ou sessões)."
  const NoTargetOnUpdate := "A meta precisa ter pelo menos um alvo (frequência, distância, duração ou sessões)."
  const NotAuthenticated := "Usuário não autenticado."
  const Created := "Meta criada com sucesso!"
  const CreateFailed := "Erro ao criar meta."
  const Updated := "Meta atualizada com sucesso!"
  const UpdateFailed := "Erro ao atualizar meta."
  const Closed := "Meta encerrada e movida para o histórico."
  const CloseFailed := "Erro ao encerrar meta."
  const Reopened := "Meta reativada com sucesso!"
  const ReopenFailed := "Erro ao reativar meta."
  const MarkFailed := "Erro ao atualizar marcação."

  /** `if (!token)`: a token that is missing or empty counts as none. */
  predicate Truthy(token: Option<string>) {
    token.Some? && token.value != ""
  }

  /** A backend call the page makes. */
  datatype GoalCall =
    | CreateMeta(input: MetaInput)
    | UpdateMeta(id: int, input: MetaInput)
    | EncerrarMeta(id: int)
    | ReativarMeta(id: int)
    | Mark(call: MarkCall)

  /** The blank create form; `today` is the current date as ISO text. */
  function BlankForm(today: string): MetaInput {
    MetaInput("", "corrida", today, Undefined, Null, Null, Null, Null, Undefined)
  }

  /** Every state variable of the goals page, as one value. */
  datatype PageState = PageState(
    metasAtivas: seq<Meta>,
    metasInativas: seq<Meta>,
    tab: Tab,
    feedback: Option<Feedback>,
    formCreate: MetaInput,
    isCreateModalOpen: bool,
    formEdit: MetaInput,
    metaParaEditar: Option<Meta>,
    isEditModalOpen: bool,
    metaParaEncerrar: Option<Meta>,
    metaParaReativar: Option<Meta>,
    metaDoCalendario: Option<Meta>,
    marcacoes: seq<Marcacao>)

  /**
   * The page's state. Each handler takes the stored access token, the
   * message of the error the backend call throws (or `None` when it
   * succeeds), and the lists the reload that follows a success returns.
   */
  class GoalsPage {
    var metasAtivas: seq<Meta>
    var metasInativas: seq<Meta>
    var tab: Tab
    var feedback: Option<Feedback>
    var formCreate: MetaInput
    var isCreateModalOpen: bool
    var formEdit: MetaInput
    var metaParaEditar: Option<Meta>
    var isEditModalOpen: bool
    var metaParaEncerrar: Option<Meta>
    var metaParaReativar: Option<Meta>
    var metaDoCalendario: Option<Meta>
    var marcacoes: seq<Marcacao>

    constructor (today: string)
      ensures tab == Ativas && metasAtivas == [] && metasInativas == [] && feedback == None
      ensures formCreate == BlankForm(today) && !isCreateModalOpen && !isEditModalOpen
      ensures metaParaEditar == None && metaParaEncerrar == None && metaParaReativar == None
      ensures metaDoCalendario == None && marcacoes == []
    {
      metasAtivas, metasInativas := [], [];
      tab := Ativas;
      feedback := None;
      formCreate := BlankForm(today);
      isCreateModalOpen := false;
      formEdit := MetaInput("", "corrida", "", Null, Null, Null, Null, Null, Value(true));
      metaParaEditar := None;
      isEditModalOpen := false;
      metaParaEncerrar, metaParaReativar, metaDoCalendario := None, None, None;
      marcacoes := [];
    }

    /** `listaAtual`: the list the selected tab shows. */
    function ListaAtual(): (r: seq<Meta>)
      reads this
      ensures tab == Ativas ==> r == metasAtivas
      ensures tab == Inativas ==> r == metasInativas
    {
      if tab == Ativas then metasAtivas else metasInativas
    }

    /** `loadMetas` with a stored token: both lists replaced by the ones just fetched. */
    method Reload(ativas: seq<Meta>, inativas: seq<Meta>)
      modifies this`metasAtivas, this`metasInativas
      ensures metasAtivas == ativas && metasInativas == inativas
      ensures ListaAtual() == if tab == Ativas then ativas else inativas
    {
      metasAtivas := ativas;
      metasInativas := inativas;
    }

    /** The current values of the page's state variables. */
    function Snapshot(): PageState
      reads this
    {
      PageState(metasAtivas, metasInativas, tab, feedback, formCreate, isCreateModalOpen, formEdit,
                metaParaEditar, isEditModalOpen, metaParaEncerrar, metaParaReativar, metaDoCalendario, marcacoes)
    }

    /** An error banner, and nothing else changes. */
    method ShowError(text: string)
      modifies this`feedback
      ensures feedback == Some(Error(text))
    {
      feedback := Some(Error(text));
    }

    /**
     * `handleCreateMeta`: `token` is the stored access token, `failure` the
     * message of the create call's error when it fails, and `ativas` and
     * `inativas` the lists the reload fetches.
     */
    method CreateMetaHandler(token: Option<string>, failure: Option<string>, today: string, ativas: seq<Meta>, inativas: seq<Meta>)
      returns (calls: seq<GoalCall>)
      modifies this
      ensures !HasTarget(old(formCreate)) ==>
        calls == [] && Snapshot() == old(Snapshot()).(feedback := Some(Error(NoTargetOnCreate)))
      ensures HasTarget(old(formCreate)) && !Truthy(token) ==>
        calls == [] && Snapshot() == old(Snapshot()).(feedback := Some(Error(NotAuthenticated)))
      ensures HasTarget(old(formCreate)) && Truthy(token) ==> calls == [CreateMeta(old(formCreate))]
      ensures HasTarget(old(formCreate)) && Truthy(token) && failure.Some? ==>
        Snapshot() == old(Snapshot()).(feedback := Some(Error(OrElse(failure.value, CreateFailed))))
      ensures HasTarget(old(formCreate)) && Truthy(token) && failure.None? ==>
        Snapshot() == old(Snapshot()).(feedback := Some(Success(Created)), isCreateModalOpen := false,
                                       formCreate := BlankForm(today), metasAtivas := ativas,
                                       metasInativas := inativas, tab := Ativas)
    {
      if !HasTarget(formCreate) {
        ShowError(NoTargetOnCreate);
        return [];
      }
      if !Truthy(token) {
        ShowError(NotAuthenticated);
        return [];
      }
      calls := [CreateMeta(formCreate)];
      if failure.Some? {
        ShowError(OrElse(failure.value, CreateFailed));
        return;
      }
      feedback, isCreateModalOpen, formCreate := Some(Success(Created)), false, BlankForm(today);
      Reload(ativas, inativas);
      tab := Ativas;
    }

    /** `abrirEditModal`. */
    method OpenEdit(meta: Meta, today: string)
      modifies this`metaParaEditar, this`formEdit, this`isEditModalOpen
      ensures metaParaEditar == Some(meta) && formEdit == EditForm(meta, today) && isEditModalOpen
    {
      metaParaEditar := Some(meta);
      formEdit := EditForm(meta, today);
      isEditModalOpen := true;
    }

    /** `handleUpdateMeta`, with the same parameters as `CreateMetaHandler`. */
    method UpdateMetaHandler(token: Option<string>, failure: Option<string>, ativas: seq<Meta>, inativas: seq<Meta>)
      returns (calls: seq<GoalCall>)
      modifies this
      ensures old(metaParaEditar).None? ==> calls == [] && Snapshot() == old(Snapshot())
      ensures old(metaParaEditar).Some? && !HasTarget(old(formEdit)) ==>
        calls == [] && Snapshot() == old(Snapshot()).(feedback := Some(Error(NoTargetOnUpdate)))
      ensures old(metaParaEditar).Some? && HasTarget(old(formEdit)) && !Truthy(token) ==>
        calls == [] && Snapshot() == old(Snapshot()).(feedback := Some(Error(NotAuthenticated)))
      ensures old(metaParaEditar).Some? && HasTarget(old(formEdit)) && Truthy(token) ==>
        calls == [UpdateMeta(old(metaParaEditar).value.id, old(formEdit))]
      ensures old(metaParaEditar).Some? && HasTarget(old(formEdit)) && Truthy(token) && failure.Some? ==>
        Snapshot() == old(Snapshot()).(feedback := Some(Error(OrElse(failure.value, UpdateFailed))))
      ensures old(metaParaEditar).Some? && HasTarget(old(formEdit)) && Truthy(token) && failure.None? ==>
        Snapshot() == old(Snapshot()).(feedback := Some(Success(Updated)), isEditModalOpen := false,
                                       metaParaEditar := None, metasAtivas := ativas, metasInativas := inativas)
    {
      if metaParaEditar.None? {
        return [];
      }
      if !HasTarget(formEdit) {
        ShowError(NoTargetOnUpdate);
        return [];
      }
      if !Truthy(token) {
        ShowError(NotAuthenticated);
        return [];
      }
      calls := [UpdateMeta(metaParaEditar.value.id, formEdit)];
      if failure.Some? {
        ShowError(OrElse(failure.value, UpdateFailed));
        return;
      }
      feedback, isEditModalOpen, metaParaEditar := Some(Success(Updated)), false, None;
      Reload(ativas, inativas);
    }

    /** `confirmarEncerrarMeta`: a closed goal moves to the history tab. */
    method ConfirmEncerrar(token: Option<string>, failure: Option<string>, ativas: seq<Meta>, inativas: seq<Meta>)
      returns (calls: seq<GoalCall>)
      modifies this
      ensures old(metaParaEncerrar).None? ==> calls == [] && Snapshot() == old(Snapshot())
      ensures old(metaParaEncerrar).Some? && !Truthy(token) ==>
        calls == [] && Snapshot() == old(Snapshot()).(feedback := Some(Error(NotAuthenticated)))
      ensures old(metaParaEncerrar).Some? && Truthy(token) ==> calls == [EncerrarMeta(old(metaParaEncerrar).value.id)]
      ensures old(metaParaEncerrar).Some? && Truthy(token) && failure.Some? ==>
        Snapshot() == old(Snapshot()).(feedback := Some(Error(OrElse(failure.value, CloseFailed))))
      ensures old(metaParaEncerrar).Some? && Truthy(token) && failure.None? ==>
        Snapshot() == old(Snapshot()).(feedback := Some(Success(Closed)), metaParaEncerrar := None,
                                       metasAtivas := ativas, metasInativas := inativas, tab := Inativas)
    {
      if metaParaEncerrar.None? {
        return [];
      }
      if !Truthy(token) {
        ShowError(NotAuthenticated);
        return [];
      }
      calls := [EncerrarMeta(metaParaEncerrar.value.id)];
      if failure.Some? {
        ShowError(OrElse(failure.value, CloseFailed));
        return;
      }
      feedback, metaParaEncerrar := Some(Success(Closed)), None;
      Reload(ativas, inativas);
      tab := Inativas;
    }

    /** `confirmarReativarMeta`: a reactivated goal brings the page back to the active tab. */
    method ConfirmReativar(token: Option<string>, failure: Option<string>, ativas: seq<Meta>, inativas: seq<Meta>)
      returns (calls: seq<GoalCall>)
      modifies this
      ensures old(metaParaReativar).None? ==> calls == [] && Snapshot() == old(Snapshot())
      ensures old(metaParaReativar).Some? && !Truthy(token) ==>
        calls == [] && Snapshot() == old(Snapshot()).(feedback := Some(Error(NotAuthenticated)))
      ensures old(metaParaReativar).Some? && Truthy(token) ==> calls == [ReativarMeta(old(metaParaReativar).value.id)]
      ensures old(metaParaReativar).Some? && Truthy(token) && failure.Some? ==>
        Snapshot() == old(Snapshot()).(feedback := Some(Error(OrElse(failure.value, ReopenFailed))))
      ensures old(metaParaReativar).Some? && Truthy(token) && failure.None? ==>
        Snapshot() == old(Snapshot()).(feedback := Some(Success(Reopened)), metaParaReativar := None,
                                       metasAtivas := ativas, metasInativas := inativas, tab := Ativas)
    {
      if metaParaReativar.None? {
        return [];
      }
      if !Truthy(token) {
        ShowError(NotAuthenticated);
        return [];
      }
      calls := [ReativarMeta(metaParaReativar.value.id)];
      if failure.Some? {
        ShowError(OrElse(failure.value, ReopenFailed));
        return;
      }
      feedback, metaParaReativar := Some(Success(Reopened)), None;
      Reload(ativas, inativas);
      tab := Ativas;
    }

    /**
     * `toggleMarcacaoDia`: the click decision over the current index, then
     * the reloaded markings; `failure` is the message of the error when the
     * toggle or the reload fails.
     */
    method ToggleDay(token: Option<string>, failure: Option<string>, date: string, reloaded: seq<Marcacao>)
      returns (calls: seq<GoalCall>)
      modifies this`marcacoes, this`feedback
      ensures metaDoCalendario.None? ==> calls == [] && marcacoes == old(marcacoes) && feedback == old(feedback)
      ensures metaDoCalendario.Some? && !Truthy(token) ==>
        calls == [] && marcacoes == old(marcacoes) && feedback == Some(Error(NotAuthenticated))
      ensures metaDoCalendario.Some? && Truthy(token) ==>
        calls == [Mark(ToggleCall(ByDate(old(marcacoes)), metaDoCalendario.value.id, date))]
      ensures metaDoCalendario.Some? && Truthy(token) && failure.Some? ==>
        marcacoes == old(marcacoes) && feedback == Some(Error(OrElse(failure.value, MarkFailed)))
      ensures metaDoCalendario.Some? && Truthy(token) && failure.None? ==>
        marcacoes == reloaded && feedback == old(feedback)
    {
      if metaDoCalendario.None? {
        return [];
      }
      if !Truthy(token) {
        feedback := Some(Error(NotAuthenticated));
        return [];
      }
      var index := MarcacoesPorData(marcacoes);
      calls := [Mark(ToggleCall(index, metaDoCalendario.value.id, date))];
      if failure.Some? {
        feedback := Some(Error(OrElse(failure.value, MarkFailed)));
        return;
      }
      marcacoes := reloaded;
    }
  }
}
