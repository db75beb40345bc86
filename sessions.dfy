/**
 * The session-registration page (app/dashboard/sessions/page.tsx): the
 * editor of the strength-training series list, the payload of a new
 * session, and the submission that creates the session and then its run,
 * ride or strength details.
 */
module Sessions {
  import opened Base
  import opened JsText

  /** The value of `Number(text)`: a number or NaN. */
  datatype Number = NaN | Num(value: real)

  /** JavaScript truthiness of a number: NaN and zero are falsy. */
  predicate TruthyNumber(n: Number) {
    n.Num? && n.value != 0.0
  }

  /** `n <= 0`, which is false for NaN. */
  predicate AtMostZero(n: Number) {
    n.Num? && n.value <= 0.0
  }

  function Pow10(k: nat): (r: nat)
    ensures r >= 1
  {
    if k == 0 then 1 else 10 * Pow10(k - 1)
  }

  /** The position of the first '.' in `s`, or `|s|` when there is none. */
  function PointAt(s: string): (i: nat)
    ensures i <= |s| && '.' !in s[..i]
    ensures i < |s| ==> s[i] == '.'
  {
    if s == [] || s[0] == '.' then 0 else 1 + PointAt(s[1..])
  }

  /** An unsigned decimal: digits, then optionally a point and more digits, with at least one digit. */
  function Unsigned(s: string): Option<real> {
    var p := PointAt(s);
    var whole := s[..p];
    var frac := if p < |s| then s[p + 1..] else "";
    if AllDigits(whole) && AllDigits(frac) && |whole| + |frac| > 0 then
      Some(DigitsValue(whole) as real + DigitsValue(frac) as real / Pow10(|frac|) as real)
    else None
  }

  /**
   * `Number(text)` for the texts a number input produces: surrounding
   * white space is ignored, a blank text is 0, an optionally signed decimal
   * is its value, anything else is NaN.
   */
  function ToNumber(s: string): Number {
    var t := Trim(s);
    if t == "" then Num(0.0)
    else
      var sign := if t[0] == '-' then -1.0 else 1.0;
      var digits := if t[0] == '-' || t[0] == '+' then t[1..] else t;
      match Unsigned(digits)
      case Some(v) => Num(sign * v)
      case None => NaN
  }

  /** A printed natural number reads back as itself. */
  lemma NumberOfPrintedNat(n: nat)
    ensures ToNumber(NatToString(n)) == Num(n as real)
  {
    var s := NatToString(n);
    TrimUnspaced(s);
    assert Trim(s) == s && s != "" && s[0] != '-' && s[0] != '+';
    UnsignedDigits(s);
    NatToStringRoundTrip(n);
  }

  /** A plain string of digits reads as its decimal value. */
  lemma UnsignedDigits(s: string)
    requires s != "" && AllDigits(s)
    ensures Unsigned(s) == Some(DigitsValue(s) as real)
  {
    PointAtDigits(s);
    var p := PointAt(s);
    assert s[..p] == s;
    assert !(p < |s|);
    var frac: string := "";
    assert AllDigits(frac);
    var fraction := DigitsValue(frac) as real / Pow10(|frac|) as real;
    assert DigitsValue(frac) == 0 && Pow10(|frac|) == 1;
    assert fraction == 0.0;
  }

  lemma {:induction false} PointAtDigits(s: string)
    requires AllDigits(s)
    ensures PointAt(s) == |s|
  {
    if s != [] {
      PointAtDigits(s[1..]);
    }
  }

  /** `text && !Number.isNaN(Number(text)) ? Number(text) : null`. */
  function NumericField(s: string): (r: Option<real>)
    ensures r.Some? <==> s != "" && ToNumber(s).Num?
    ensures r.Some? ==> r.value == ToNumber(s).value
  {
    if s != "" && ToNumber(s).Num? then Some(ToNumber(s).value) else None
  }

  /** One editable row of the strength-training series list (`SerieTemp`). */
  datatype Serie = Serie(id: int, exercicioId: Option<Number>, repeticoes: string, cargaKg: string)

  function Blank(id: int): Serie {
    Serie(id, None, "", "")
  }

  /** The list the page starts with and returns to after a save. */
  const Initial: seq<Serie> := [Blank(1)]

  /** Row ids strictly increase along the list, so no two rows share an id. */
  predicate IdsIncreasing(series: seq<Serie>) {
    forall i, j :: 0 <= i < j < |series| ==> series[i].id < series[j].id
  }

  /** `handleAddSerie`: one blank row, numbered one past the last row (or 1), appended. */
  function AddSerie(series: seq<Serie>): (r: seq<Serie>)
    ensures |r| == |series| + 1 && r[..|series|] == series
    ensures r[|series|] == Blank(if |series| > 0 then series[|series| - 1].id + 1 else 1)
  {
    series + [Blank(if |series| > 0 then series[|series| - 1].id + 1 else 1)]
  }

  /** `handleRemoveSerie`: the rows whose id differs from `id`, in their order. */
  function RemoveSerie(series: seq<Serie>, id: int): (r: seq<Serie>)
    ensures forall x :: x in r <==> x in series && x.id != id
    ensures |r| <= |series|
  {
    if series == [] then []
    else (if series[0].id != id then [series[0]] else []) + RemoveSerie(series[1..], id)
  }

  /** Removing an id that no row has changes nothing. */
  lemma {:induction false} RemoveAbsent(series: seq<Serie>, id: int)
    requires forall i :: 0 <= i < |series| ==> series[i].id != id
    ensures RemoveSerie(series, id) == series
  {
    if series != [] {
      RemoveAbsent(series[1..], id);
    }
  }

  /** Removal works row by row: removing from two pieces and joining them is removing from the whole. */
  lemma {:induction false} RemoveSerieConcat(a: seq<Serie>, b: seq<Serie>, id: int)
    ensures RemoveSerie(a + b, id) == RemoveSerie(a, id) + RemoveSerie(b, id)
  {
    if a == [] {
      assert a + b == b;
    } else {
      assert (a + b)[0] == a[0] && (a + b)[1..] == a[1..] + b;
      RemoveSerieConcat(a[1..], b, id);
    }
  }

  /** Each kept row appears as often as before, each row with the id not at all. */
  lemma {:induction false} RemoveSerieCounts(series: seq<Serie>, id: int, x: Serie)
    ensures multiset(RemoveSerie(series, id))[x] == if x.id != id then multiset(series)[x] else 0
  {
    if series != [] {
      RemoveSerieCounts(series[1..], id, x);
      assert series == [series[0]] + series[1..];
    }
  }

  /** The field a change event names. */
  datatype Field = ExercicioId | Repeticoes | CargaKg

  /** One row with the named field set from the input text; an exercise choice of "" clears it. */
  function SetField(s: Serie, field: Field, value: string): Serie {
    match field
    case ExercicioId => s.(exercicioId := if value != "" then Some(ToNumber(value)) else None)
    case Repeticoes => s.(repeticoes := value)
    case CargaKg => s.(cargaKg := value)
  }

  /** `handleSerieChange`: the named field of the rows with that id; every other row and field is kept. */
  function ChangeSerie(series: seq<Serie>, id: int, field: Field, value: string): (r: seq<Serie>)
    ensures |r| == |series|
    ensures forall i :: 0 <= i < |series| && series[i].id != id ==> r[i] == series[i]
    ensures forall i :: 0 <= i < |series| && series[i].id == id ==>
      && r[i].id == id
      && r[i].exercicioId == (if field == ExercicioId then (if value == "" then None else Some(ToNumber(value))) else series[i].exercicioId)
      && r[i].repeticoes == (if field == Repeticoes then value else series[i].repeticoes)
      && r[i].cargaKg == (if field == CargaKg then value else series[i].cargaKg)
  {
    seq(|series|, i requires 0 <= i < |series| => if series[i].id == id then SetField(series[i], field, value) else series[i])
  }

  /** An edit the series editor applies to the list. */
  datatype Edit = Add | Remove(id: int) | Change(id: int, field: Field, value: string)

  function Apply(series: seq<Serie>, e: Edit): seq<Serie> {
    match e
    case Add => AddSerie(series)
    case Remove(id) => RemoveSerie(series, id)
    case Change(id, field, value) => ChangeSerie(series, id, field, value)
  }

  function ApplyAll(series: seq<Serie>, edits: seq<Edit>): seq<Serie>
    decreases |edits|
  {
    if edits == [] then series else ApplyAll(Apply(series, edits[0]), edits[1..])
  }

  /** Removal keeps the increasing order of the ids. */
  lemma {:induction false} RemoveKeepsIdsIncreasing(series: seq<Serie>, id: int)
    requires IdsIncreasing(series)
    ensures IdsIncreasing(RemoveSerie(series, id))
  {
    if series != [] {
      var rest := RemoveSerie(series[1..], id);
      RemoveKeepsIdsIncreasing(series[1..], id);
      forall x | x in rest ensures series[0].id < x.id {
        var k :| 0 <= k < |series[1..]| && series[1..][k] == x;
      }
    }
  }

  /** Every edit keeps the ids increasing. */
  lemma EditKeepsIdsIncreasing(series: seq<Serie>, e: Edit)
    requires IdsIncreasing(series)
    ensures IdsIncreasing(Apply(series, e))
  {
    match e
    case Add =>
    case Remove(id) => RemoveKeepsIdsIncreasing(series, id);
    case Change(id, field, value) =>
  }

  /** From the initial row, any sequence of edits leaves ids strictly increasing, hence distinct. */
  lemma {:induction false} EditsKeepIdsUnique(series: seq<Serie>, edits: seq<Edit>)
    requires IdsIncreasing(series)
    ensures IdsIncreasing(ApplyAll(series, edits))
    ensures var r := ApplyAll(series, edits);
      forall i, j :: 0 <= i < |r| && 0 <= j < |r| && i != j ==> r[i].id != r[j].id
    decreases |edits|
  {
    if edits != [] {
      EditKeepsIdsIncreasing(series, edits[0]);
      EditsKeepIdsUnique(Apply(series, edits[0]), edits[1..]);
    }
    var r := ApplyAll(series, edits);
    forall i, j | 0 <= i < |r| && 0 <= j < |r| && i != j ensures r[i].id != r[j].id {
      if i < j { assert r[i].id < r[j].id; } else { assert r[j].id < r[i].id; }
    }
  }

  /** Starting from the page's initial list, no two rows ever share an id, whatever the edits. */
  lemma EditsFromInitialKeepIdsUnique(edits: seq<Edit>)
    ensures var r := ApplyAll(Initial, edits);
      forall i, j :: 0 <= i < |r| && 0 <= j < |r| && i != j ==> r[i].id != r[j].id
  {
    EditsKeepIdsUnique(Initial, edits);
  }

  datatype Modalidade = Corrida | Ciclismo | Musculacao

  /** The fields of a new session (`SessaoAtividadeInput`). */
  datatype SessaoPayload = SessaoPayload(
    modalidade: Modalidade,
    inicioEm: string,
    duracaoSeg: Option<real>,
    calorias: Option<real>,
    observacoes: Option<string>)

  /**
   * `buildSessaoPayload`: the duration in minutes becomes seconds, a
   * non-numeric or empty number becomes null, and empty notes become null.
   * `inicioEm` is the start instant already written as an ISO text.
   */
  function BuildSessaoPayload(modalidade: Modalidade, inicioEm: string, duracaoMin: string, calorias: string, observacoes: string): (p: SessaoPayload)
    ensures p.modalidade == modalidade && p.inicioEm == inicioEm
    ensures p.duracaoSeg.Some? <==> duracaoMin != "" && ToNumber(duracaoMin).Num?
    ensures p.duracaoSeg.Some? ==> p.duracaoSeg.value == ToNumber(duracaoMin).value * 60.0
    ensures p.calorias.Some? <==> calorias != "" && ToNumber(calorias).Num?
    ensures p.calorias.Some? ==> p.calorias.value == ToNumber(calorias).value
    ensures p.observacoes.None? <==> observacoes == ""
    ensures p.observacoes.Some? ==> p.observacoes.value == observacoes
  {
    var duracao := NumericField(duracaoMin);
    SessaoPayload(
      modalidade,
      inicioEm,
      if duracao.Some? then Some(duracao.value * 60.0) else None,
      NumericField(calorias),
      if observacoes != "" then Some(observacoes) else None)
  }

  /** `text ? Number(text) : 0`. */
  function OrZero(s: string): Number {
    if s != "" then ToNumber(s) else Num(0.0)
  }

  /** `text.replace(",", ".")`: the first comma, if any, becomes a point; later commas stay. */
  function CommaToPoint(s: string): (r: string)
    ensures |r| == |s|
    ensures ',' !in s ==> r == s
  {
    if s == [] then []
    else if s[0] == ',' then "." + s[1..]
    else [s[0]] + CommaToPoint(s[1..])
  }

  /** Only the first comma is rewritten: what follows it is kept as typed. */
  lemma {:induction false} CommaToPointFirst(a: string, b: string)
    requires ',' !in a
    ensures CommaToPoint(a + "," + b) == a + "." + b
  {
    var t := a + "," + b;
    if a != [] {
      assert t[0] == a[0] && a[0] != ',';
      assert t[1..] == a[1..] + "," + b;
      assert CommaToPoint(t) == [a[0]] + CommaToPoint(a[1..] + "," + b);
      CommaToPointFirst(a[1..], b);
      assert [a[0]] + (a[1..] + "." + b) == a + "." + b;
    } else {
      assert t == "," + b && t[1..] == b;
    }
  }

  /** `text ? Number(text.replace(",", ".")) : 0`, for the distance and speed fields that accept a decimal comma. */
  function DecimalOrZero(s: string): (n: Number)
    ensures n == OrZero(CommaToPoint(s))
    ensures s == "" ==> n == Num(0.0)
  {
    if s != "" then ToNumber(CommaToPoint(s)) else Num(0.0)
  }

  /** NaN-propagating `a * 60 + b`. */
  function TotalSeconds(minutes: Number, seconds: Number): (r: Number)
    ensures r.Num? <==> minutes.Num? && seconds.Num?
    ensures r.Num? ==> r.value == minutes.value * 60.0 + seconds.value
  {
    if minutes.Num? && seconds.Num? then Num(minutes.value * 60.0 + seconds.value) else NaN
  }

  /** A create call the submission makes, in the order it makes them. */
  datatype Call =
    | CreateSessao(payload: SessaoPayload)
    | CreateCorrida(sessao: int, distanciaKm: Number, ritmoMedioSegKm: Number, fcMedia: Option<real>)
    | CreateCiclismo(sessao: int, distanciaKm: Number, velocidadeMediaKmh: Number, fcMedia: Option<real>)
    | CreateSerie(sessao: int, exercicio: Number, repeticoes: Option<real>, cargaKg: Option<real>)

  /** The run-details call, or `None` when the guard refuses the distance or the pace. */
  function CorridaCall(sessao: int, distancia: string, paceMin: string, paceSeg: string, fc: string): (c: Option<Call>)
    ensures c.None? <==> AtMostZero(DecimalOrZero(distancia)) || AtMostZero(TotalSeconds(OrZero(paceMin), OrZero(paceSeg)))
    ensures c.Some? ==>
      c.value == CreateCorrida(sessao, DecimalOrZero(distancia), TotalSeconds(OrZero(paceMin), OrZero(paceSeg)), NumericField(fc))
  {
    var dist := DecimalOrZero(distancia);
    var total := TotalSeconds(OrZero(paceMin), OrZero(paceSeg));
    if AtMostZero(dist) || AtMostZero(total) then None
    else Some(CreateCorrida(sessao, dist, total, NumericField(fc)))
  }

  /** When every field reads as a number, run details are sent exactly when distance and total pace are positive. */
  lemma CorridaNeedsPositiveDistanceAndPace(sessao: int, distancia: string, paceMin: string, paceSeg: string, fc: string)
    requires DecimalOrZero(distancia).Num? && OrZero(paceMin).Num? && OrZero(paceSeg).Num?
    ensures CorridaCall(sessao, distancia, paceMin, paceSeg, fc).Some?
      <==> DecimalOrZero(distancia).value > 0.0 && OrZero(paceMin).value * 60.0 + OrZero(paceSeg).value > 0.0
  {
  }

  /** The ride-details call, or `None` when the guard refuses the distance or the speed. */
  function CiclismoCall(sessao: int, distancia: string, velMedia: string, fc: string): (c: Option<Call>)
    ensures c.None? <==> AtMostZero(DecimalOrZero(distancia)) || AtMostZero(DecimalOrZero(velMedia))
    ensures c.Some? ==> c.value == CreateCiclismo(sessao, DecimalOrZero(distancia), DecimalOrZero(velMedia), NumericField(fc))
  {
    var dist := DecimalOrZero(distancia);
    var vel := DecimalOrZero(velMedia);
    if AtMostZero(dist) || AtMostZero(vel) then None
    else Some(CreateCiclismo(sessao, dist, vel, NumericField(fc)))
  }

  /** A series worth sending: an exercise is chosen, and reps or load is not blank. */
  predicate IsValidSerie(s: Serie) {
    s.exercicioId.Some? && TruthyNumber(s.exercicioId.value)
    && (Trim(s.repeticoes) != "" || Trim(s.cargaKg) != "")
  }

  /** `xs.filter(keep)`: the elements `keep` accepts, in list order. */
  function Filter<T>(xs: seq<T>, keep: T -> bool): (r: seq<T>)
    ensures |r| <= |xs|
    ensures forall i :: 0 <= i < |r| ==> keep(r[i])
  {
    if xs == [] then []
    else (if keep(xs[0]) then [xs[0]] else []) + Filter(xs[1..], keep)
  }

  /** Every accepted element is kept. */
  lemma {:induction false} FilterKeeps<T>(xs: seq<T>, keep: T -> bool, i: nat)
    requires i < |xs| && keep(xs[i])
    ensures xs[i] in Filter(xs, keep)
  {
    if i > 0 {
      assert xs[1..][i - 1] == xs[i];
      FilterKeeps(xs[1..], keep, i - 1);
    }
  }

  /** Nothing is kept that was not in the list. */
  lemma {:induction false} FilterFromList<T>(xs: seq<T>, keep: T -> bool, i: nat)
    requires i < |Filter(xs, keep)|
    ensures Filter(xs, keep)[i] in xs
  {
    var head := if keep(xs[0]) then [xs[0]] else [];
    if i >= |head| {
      FilterFromList(xs[1..], keep, i - |head|);
    }
  }

  /** Filtering works element by element: filtering two pieces and joining them is filtering the whole. */
  lemma {:induction false} FilterConcat<T>(a: seq<T>, b: seq<T>, keep: T -> bool)
    ensures Filter(a + b, keep) == Filter(a, keep) + Filter(b, keep)
  {
    if a == [] {
      assert a + b == b;
    } else {
      assert (a + b)[0] == a[0] && (a + b)[1..] == a[1..] + b;
      FilterConcat(a[1..], b, keep);
    }
  }

  /** Each accepted element appears as often as in the list, each refused one not at all. */
  lemma {:induction false} FilterCounts<T>(xs: seq<T>, keep: T -> bool, x: T)
    ensures multiset(Filter(xs, keep))[x] == if keep(x) then multiset(xs)[x] else 0
  {
    if xs != [] {
      FilterCounts(xs[1..], keep, x);
      assert xs == [xs[0]] + xs[1..];
    }
  }

  /** `series.filter(...)`: the series worth sending, in list order. */
  function ValidSeries(series: seq<Serie>): (r: seq<Serie>)
    ensures forall i :: 0 <= i < |r| ==> r[i].exercicioId.Some? && TruthyNumber(r[i].exercicioId.value)
    ensures |r| <= |series|
  {
    var r := Filter(series, IsValidSerie);
    assert forall i :: 0 <= i < |r| ==> IsValidSerie(r[i]);
    r
  }

  /** Every series worth sending is kept. */
  lemma ValidSeriesKeeps(series: seq<Serie>, i: nat)
    requires i < |series| && IsValidSerie(series[i])
    ensures series[i] in ValidSeries(series)
  {
    FilterKeeps(series, IsValidSerie, i);
  }

  /** Only series worth sending are kept, and each comes from the list. */
  lemma ValidSeriesFromList(series: seq<Serie>, i: nat)
    requires i < |ValidSeries(series)|
    ensures ValidSeries(series)[i] in series && IsValidSerie(ValidSeries(series)[i])
  {
    FilterFromList(series, IsValidSerie, i);
  }

  /** The series worth sending keep their order: the list's pieces are filtered one after the other. */
  lemma ValidSeriesConcat(a: seq<Serie>, b: seq<Serie>)
    ensures ValidSeries(a + b) == ValidSeries(a) + ValidSeries(b)
  {
    FilterConcat(a, b, IsValidSerie);
  }

  /** Each series worth sending is kept as often as it is listed, and no other series is kept. */
  lemma ValidSeriesCounts(series: seq<Serie>, x: Serie)
    ensures multiset(ValidSeries(series))[x] == if IsValidSerie(x) then multiset(series)[x] else 0
  {
    FilterCounts(series, IsValidSerie, x);
  }

  /** The create call for one series. */
  function SerieCall(sessao: int, s: Serie): Call
    requires s.exercicioId.Some?
  {
    CreateSerie(sessao, s.exercicioId.value, NumericField(s.repeticoes), NumericField(s.cargaKg))
  }

  const MissingDate := "Preencha a data e horário da sessão."
  const Expired := "Sessão expirada. Faça login novamente."
  const BadRun := "Para corrida, informe distância e pace válidos."
  const BadRide := "Para ciclismo, informe distância e velocidade média válidas."
  const Saved := "Sessão registrada com sucesso! Você já pode vê-la em Meus Treinos."
  const SaveFailed := "Erro ao salvar a sessão. Verifique os dados."

  /** Every state variable of the registration form, as one value. */
  datatype FormState = FormState(
    modalidade: Modalidade,
    data: string,
    hora: string,
    duracaoMin: string,
    calorias: string,
    observacoes: string,
    criarMetricas: bool,
    corridaDistancia: string,
    corridaPaceMin: string,
    corridaPaceSeg: string,
    corridaFc: string,
    ciclismoDistancia: string,
    ciclismoVelMedia: string,
    ciclismoFc: string,
    series: seq<Serie>,
    message: Option<Feedback>)

  /**
   * The form after a save: the entered values are cleared, the series list
   * starts over and the success message is shown; the activity, date and
   * time stay.
   */
  function AfterSave(f: FormState): (r: FormState)
    ensures r.modalidade == f.modalidade && r.data == f.data && r.hora == f.hora
    ensures r.series == Initial && !r.criarMetricas && r.message == Some(Success(Saved))
  {
    FormState(f.modalidade, f.data, f.hora, "", "", "", false, "", "", "", "", "", "", "", Initial, Some(Success(Saved)))
  }

  /** The details calls that follow the session's creation. */
  function DetailCalls(sessao: int, f: FormState): (r: seq<Call>)
    ensures !f.criarMetricas ==> r == []
    ensures f.modalidade != Musculacao ==> |r| <= 1
    ensures f.modalidade == Musculacao ==> |r| <= |f.series|
    ensures forall i :: 0 <= i < |r| ==> !r[i].CreateSessao? && r[i].sessao == sessao
  {
    if !f.criarMetricas then []
    else
      match f.modalidade
      case Corrida =>
        var c := CorridaCall(sessao, f.corridaDistancia, f.corridaPaceMin, f.corridaPaceSeg, f.corridaFc);
        if c.Some? then [c.value] else []
      case Ciclismo =>
        var c := CiclismoCall(sessao, f.ciclismoDistancia, f.ciclismoVelMedia, f.ciclismoFc);
        if c.Some? then [c.value] else []
      case Musculacao =>
        var valid := ValidSeries(f.series);
        seq(|valid|, i requires 0 <= i < |valid| => SerieCall(sessao, valid[i]))
  }

  /** Every create call a submission makes when none fails: the session first, then its details. */
  function SubmitCalls(sessao: int, inicioEm: string, f: FormState): (r: seq<Call>)
    ensures |r| == 1 + |DetailCalls(sessao, f)|
    ensures r[0] == CreateSessao(BuildSessaoPayload(f.modalidade, inicioEm, f.duracaoMin, f.calorias, f.observacoes))
    ensures forall i :: 1 <= i < |r| ==> !r[i].CreateSessao? && r[i].sessao == sessao
  {
    [CreateSessao(BuildSessaoPayload(f.modalidade, inicioEm, f.duracaoMin, f.calorias, f.observacoes))]
      + DetailCalls(sessao, f)
  }

  /** The guard refuses the run details: the distance or the total pace is not above zero. */
  predicate RunRefused(f: FormState) {
    AtMostZero(DecimalOrZero(f.corridaDistancia)) || AtMostZero(TotalSeconds(OrZero(f.corridaPaceMin), OrZero(f.corridaPaceSeg)))
  }

  /** The guard refuses the ride details: the distance or the average speed is not above zero. */
  predicate RideRefused(f: FormState) {
    AtMostZero(DecimalOrZero(f.ciclismoDistancia)) || AtMostZero(DecimalOrZero(f.ciclismoVelMedia))
  }

  /** The error the details guard shows, when it refuses the run or ride details. */
  function Refusal(f: FormState): Option<string>
  {
    if !f.criarMetricas then None
    else
      match f.modalidade
      case Corrida => if RunRefused(f) then Some(BadRun) else None
      case Ciclismo => if RideRefused(f) then Some(BadRide) else None
      case Musculacao => None
  }

  /**
   * The guard refuses exactly when the details switch is on for a run or a
   * ride and no details call follows; a strength session is never refused.
   */
  lemma RefusalSendsNothing(sessao: int, f: FormState)
    ensures Refusal(f).Some? <==> f.criarMetricas && f.modalidade != Musculacao && DetailCalls(sessao, f) == []
  {
    if f.criarMetricas && f.modalidade == Musculacao {
      assert Refusal(f).None?;
    }
  }

  /**
   * How a save that passed the checks ends, from form state `f` to `g`:
   * when the k-th create call (0 for the session itself) is the first
   * rejected, with message `m`, the calls up to and including it are made
   * and only the message changes, to `m` or a default; when none is
   * rejected, every call is made, the form is reset and the success
   * message shown.
   */
  predicate SaveEnds(f: FormState, g: FormState, inicioEm: string, sessao: int, rejected: Option<(nat, string)>, calls: seq<Call>)
  {
    var all := SubmitCalls(sessao, inicioEm, f);
    if rejected.Some? && rejected.value.0 < |all| then
      && calls == all[..rejected.value.0 + 1]
      && g == f.(message := Some(Error(OrElse(rejected.value.1, SaveFailed))))
    else
      calls == all && g == AfterSave(f)
  }

  /** The session-registration form: its state variables, and the calls and message a submission produces. */
  class SessionForm {
    var modalidade: Modalidade
    var data: string
    var hora: string
    var duracaoMin: string
    var calorias: string
    var observacoes: string
    var criarMetricas: bool
    var corridaDistancia: string
    var corridaPaceMin: string
    var corridaPaceSeg: string
    var corridaFc: string
    var ciclismoDistancia: string
    var ciclismoVelMedia: string
    var ciclismoFc: string
    var series: seq<Serie>
    var message: Option<Feedback>

    /** The form as the page first shows it; the default date and time are inputs. */
    constructor (data: string, hora: string)
      ensures Snapshot() == FormState(Corrida, data, hora, "", "", "", false, "", "", "", "", "", "", "", Initial, None)
    {
      modalidade := Corrida;
      this.data := data;
      this.hora := hora;
      duracaoMin, calorias, observacoes := "", "", "";
      criarMetricas := false;
      corridaDistancia, corridaPaceMin, corridaPaceSeg, corridaFc := "", "", "", "";
      ciclismoDistancia, ciclismoVelMedia, ciclismoFc := "", "", "";
      series := Initial;
      message := None;
    }

    /** The current values of the state variables. */
    function Snapshot(): FormState
      reads this
    {
      FormState(modalidade, data, hora, duracaoMin, calorias, observacoes, criarMetricas,
                corridaDistancia, corridaPaceMin, corridaPaceSeg, corridaFc,
                ciclismoDistancia, ciclismoVelMedia, ciclismoFc, series, message)
    }

    /** The editor's edits, applied to the series state; nothing else changes. */
    method EditSeries(e: Edit)
      modifies this`series
      ensures series == Apply(old(series), e)
    {
      series := Apply(series, e);
    }

    /**
     * The details step of `handleSubmit`: the run or ride details when the
     * guard accepts them, or one call per series worth sending, in list
     * order; a refusal shows the guard's error.
     */
    method SendDetails(sessao: int) returns (details: seq<Call>)
      modifies this`message
      ensures details == DetailCalls(sessao, old(Snapshot()))
      ensures message == if Refusal(old(Snapshot())).Some? then Some(Error(Refusal(old(Snapshot())).value)) else old(message)
    {
      details := [];
      if !criarMetricas {
        return;
      }
      match modalidade
      case Corrida =>
        var c := CorridaCall(sessao, corridaDistancia, corridaPaceMin, corridaPaceSeg, corridaFc);
        if c.None? {
          message := Some(Error(BadRun));
        } else {
          details := [c.value];
        }
      case Ciclismo =>
        var c := CiclismoCall(sessao, ciclismoDistancia, ciclismoVelMedia, ciclismoFc);
        if c.None? {
          message := Some(Error(BadRide));
        } else {
          details := [c.value];
        }
      case Musculacao =>
        details := SeriesCalls(sessao, ValidSeries(series));
    }

    /** One series call per given series, in list order. */
    static method SeriesCalls(sessao: int, valid: seq<Serie>) returns (calls: seq<Call>)
      requires forall i :: 0 <= i < |valid| ==> valid[i].exercicioId.Some?
      ensures |calls| == |valid|
      ensures forall i :: 0 <= i < |valid| ==> calls[i] == SerieCall(sessao, valid[i])
    {
      calls := [];
      for k := 0 to |valid|
        invariant |calls| == k
        invariant forall i :: 0 <= i < k ==> calls[i] == SerieCall(sessao, valid[i])
      {
        calls := calls + [SerieCall(sessao, valid[k])];
      }
    }

    /**
     * `handleSubmit`: `token` is the stored access token, `inicioEm` the
     * start instant as ISO text, and `sessao` the id the backend gives the
     * new session. `rejected` is `Some((k, m))` when the k-th create call
     * (0 for the session itself) is the first the backend rejects, with the
     * error's message `m`; `None` when every call succeeds. Returns the calls
     * made, in order, the rejected one included.
     */
    method Submit(token: Option<string>, inicioEm: string, sessao: int, rejected: Option<(nat, string)>)
      returns (calls: seq<Call>)
      modifies this
      ensures old(data) == "" || old(hora) == "" ==>
        calls == [] && Snapshot() == old(Snapshot()).(message := Some(Error(MissingDate)))
      ensures old(data) != "" && old(hora) != "" && (token.None? || token.value == "") ==>
        calls == [] && Snapshot() == old(Snapshot()).(message := Some(Error(Expired)))
      ensures old(data) != "" && old(hora) != "" && token.Some? && token.value != "" ==>
        SaveEnds(old(Snapshot()), Snapshot(), inicioEm, sessao, rejected, calls)
    {
      if data == "" || hora == "" {
        message := Some(Error(MissingDate));
        return [];
      }
      if token.None? || token.value == "" {
        message := Some(Error(Expired));
        return [];
      }
      calls := Save(inicioEm, sessao, rejected);
    }

    /**
     * The part of `handleSubmit` after the checks: the creates in order,
     * stopping at the first one rejected, then the reset and the success
     * message, or the error and no reset.
     */
    method Save(inicioEm: string, sessao: int, rejected: Option<(nat, string)>) returns (calls: seq<Call>)
      modifies this
      ensures SaveEnds(old(Snapshot()), Snapshot(), inicioEm, sessao, rejected, calls)
    {
      ghost var before := Snapshot();
      ghost var all := SubmitCalls(sessao, inicioEm, before);
      var first := CreateSessao(BuildSessaoPayload(modalidade, inicioEm, duracaoMin, calorias, observacoes));
      assert all[0] == first;
      if rejected.Some? && rejected.value.0 == 0 {
        calls := [first];
        assert calls == all[..1];
        Fail(rejected.value.1);
        return;
      }
      var details := SendDetails(sessao);
      calls := [first] + details;
      assert calls == all;
      if rejected.Some? && rejected.value.0 < |calls| {
        calls := calls[..rejected.value.0 + 1];
        Fail(rejected.value.1);
        return;
      }
      Reset();
    }

    /** A rejected create: the error's message, or the default one, and nothing else changes. */
    method Fail(m: string)
      modifies this`message
      ensures message == Some(Error(OrElse(m, SaveFailed)))
    {
      message := Some(Error(OrElse(m, SaveFailed)));
    }

    /** The run and ride inputs of the reset. */
    method ClearMetrics()
      modifies this`corridaDistancia, this`corridaPaceMin, this`corridaPaceSeg, this`corridaFc
      modifies this`ciclismoDistancia, this`ciclismoVelMedia, this`ciclismoFc
      ensures corridaDistancia == "" && corridaPaceMin == "" && corridaPaceSeg == "" && corridaFc == ""
      ensures ciclismoDistancia == "" && ciclismoVelMedia == "" && ciclismoFc == ""
    {
      corridaDistancia, corridaPaceMin, corridaPaceSeg, corridaFc := "", "", "", "";
      ciclismoDistancia, ciclismoVelMedia, ciclismoFc := "", "", "";
    }

    /** The reset after a save: the entered values are cleared, and the success message shown. */
    method Reset()
      modifies this
      ensures Snapshot() == AfterSave(old(Snapshot()))
    {
      ClearMetrics();
      duracaoMin, calorias, observacoes, criarMetricas := "", "", "", false;
      series, message := Initial, Some(Success(Saved));
    }
  }

  /**
   * A strength submission sends one call per series worth sending, in list
   * order, each for an exercise that was chosen.
   */
  lemma SeriesCallsFollowList(sessao: int, f: FormState)
    requires f.criarMetricas && f.modalidade == Musculacao
    ensures var calls := DetailCalls(sessao, f);
      && |calls| == |ValidSeries(f.series)|
      && forall i :: 0 <= i < |calls| ==>
           calls[i].CreateSerie? && calls[i].sessao == sessao && TruthyNumber(calls[i].exercicio)
           && calls[i] == SerieCall(sessao, ValidSeries(f.series)[i])
  {
  }
}
