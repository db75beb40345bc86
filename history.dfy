/**
 * The workout history page: the duration label of each session, the
 * free-text search over session notes, the query string `loadSessions`
 * sends to the sessions endpoint, and the delete dialog's close guard.
 */
module History {
  import opened Base
  import opened JsText
  import Api

  // ---------------------------------------------------------------------
  // Duration label
  // ---------------------------------------------------------------------

  /** Whole minutes split into hours and minutes agree with splitting the seconds directly. */
  lemma MinutesSplit(s: nat)
    ensures s / 3600 == (s / 60) / 60
    ensures (s % 3600) / 60 == (s / 60) % 60
  {
    var q := s / 60;
    var h, m := q / 60, q % 60;
    assert s == 3600 * h + (60 * m + s % 60);
    assert 0 <= 60 * m + s % 60 < 3600;
  }

  /**
   * `formatDuracao`: "—" unless the duration is a positive number of
   * seconds; otherwise "<h>h <m>min", or "<m>min" under an hour. The
   * seconds within the last minute are dropped.
   */
  function FormatDuracao(segundos: Option<int>): (r: string)
    ensures r == "—" <==> segundos.None? || segundos.value <= 0
    ensures segundos.Some? && 0 < segundos.value < 3600 ==> r == NatToString(segundos.value / 60) + "min"
    ensures segundos.Some? && segundos.value >= 3600 ==>
      r == NatToString(segundos.value / 3600) + "h " + NatToString(segundos.value % 3600 / 60) + "min"
  {
    if segundos.None? || segundos.value <= 0 then "—"
    else
      var s := segundos.value;
      var h, m := s / 3600, (s % 3600) / 60;
      if h > 0 then NatToString(h) + "h " + NatToString(m) + "min" else NatToString(m) + "min"
  }

  /** Reads a duration label back to (hours, minutes); `None` for any other text. */
  function ReadDuracao(t: string): Option<(nat, nat)> {
    var (a, rest) := ReadNumber(t);
    if LeadingDigits(t) == 0 then None
    else if rest == "min" then Some((0, a))
    else if IsPrefix("h ", rest) && LeadingDigits(rest[2..]) > 0 && ReadNumber(rest[2..]).1 == "min" then
      Some((a, ReadNumber(rest[2..]).0))
    else None
  }

  /** The label of a positive duration reads back to its whole hours and remaining minutes. */
  lemma DuracaoReadsBack(s: int)
    requires s > 0
    ensures ReadDuracao(FormatDuracao(Some(s))) == Some((s / 3600, (s % 3600) / 60))
  {
    var h, m := s / 3600, (s % 3600) / 60;
    var t := FormatDuracao(Some(s));
    ReadPrinted(m, "min");
    if h > 0 {
      var rest := "h " + NatToString(m) + "min";
      assert t == NatToString(h) + rest;
      ReadPrinted(h, rest);
      assert rest[2..] == NatToString(m) + "min";
    }
  }

  /** Two positive durations get the same label exactly when they have the same number of whole minutes. */
  lemma FormatDuracaoSameMinute(s1: int, s2: int)
    requires s1 > 0 && s2 > 0
    ensures FormatDuracao(Some(s1)) == FormatDuracao(Some(s2)) <==> s1 / 60 == s2 / 60
  {
    MinutesSplit(s1);
    MinutesSplit(s2);
    if FormatDuracao(Some(s1)) == FormatDuracao(Some(s2)) {
      DuracaoReadsBack(s1);
      DuracaoReadsBack(s2);
      assert s1 / 60 == 60 * (s1 / 3600) + (s1 % 3600) / 60;
    }
  }

  // ---------------------------------------------------------------------
  // Search over the notes
  // ---------------------------------------------------------------------

  /** A listed session, with the fields the page filters on. */
  datatype Sessao = Sessao(id: int, modalidade: string, observacoes: Option<string>)

  /** The session's notes as searched: lower-cased, "" when it has none. */
  function SearchText(s: Sessao): string {
    Lower(s.observacoes.GetOr(""))
  }

  /** The lower-cased notes include the lower-cased term. */
  predicate MatchesTerm(s: Sessao, term: string): (b: bool)
    ensures term == "" ==> b
    ensures s.observacoes.None? ==> (b <==> term == "")
  {
    ContainsEmpty(SearchText(s));
    if term != "" && s.observacoes.None? then
      assert SearchText(s) == "";
      NothingInEmpty(Lower(term));
      Contains(SearchText(s), Lower(term))
    else Contains(SearchText(s), Lower(term))
  }

  /** `sessions.filter(...)`: the sessions whose notes match, in their order. */
  function Matching(ss: seq<Sessao>, term: string): (r: seq<Sessao>)
    ensures |r| <= |ss|
    ensures forall i :: 0 <= i < |r| ==> r[i] in ss && MatchesTerm(r[i], term)
    ensures forall i :: 0 <= i < |ss| && MatchesTerm(ss[i], term) ==> ss[i] in r
  {
    if ss == [] then []
    else (if MatchesTerm(ss[0], term) then [ss[0]] else []) + Matching(ss[1..], term)
  }

  /** `filteredSessions`: every session for a blank term, otherwise the matching ones. */
  function FilteredSessions(ss: seq<Sessao>, term: string): (r: seq<Sessao>)
    ensures Trim(term) == "" ==> r == ss
  {
    if Trim(term) == "" then ss else Matching(ss, term)
  }

  /**
   * For a term that is not blank, a session is shown exactly when its notes
   * include the term, ignoring case; a session without notes is never shown.
   */
  lemma FilteredSessionsShows(ss: seq<Sessao>, term: string, x: Sessao)
    requires Trim(term) != ""
    ensures x in FilteredSessions(ss, term) <==> x in ss && MatchesTerm(x, term)
    ensures x.observacoes.None? ==> x !in FilteredSessions(ss, term)
  {
    if x in ss && MatchesTerm(x, term) {
      var i :| 0 <= i < |ss| && ss[i] == x;
    }
    if x.observacoes.None? {
      assert term != "";
      assert SearchText(x) == "";
      NothingInEmpty(Lower(term));
    }
  }

  /** Filtering keeps the order of the list: it works piece by piece. */
  lemma {:induction false} MatchingConcat(a: seq<Sessao>, b: seq<Sessao>, term: string)
    ensures Matching(a + b, term) == Matching(a, term) + Matching(b, term)
  {
    if a != [] {
      MatchingConcat(a[1..], b, term);
      assert (a + b)[1..] == a[1..] + b;
    } else {
      assert a + b == b;
    }
  }

  /** Lower-casing keeps every space a space and every other character not a space. */
  lemma LowerKeepsSpaces(t: string)
    ensures forall i :: 0 <= i < |t| ==> (IsSpace(Lower(t)[i]) <==> IsSpace(t[i]))
  {
  }

  /** Sessions match a lower-cased term exactly as they match the term. */
  lemma {:induction false} MatchingLowered(ss: seq<Sessao>, term: string)
    ensures Matching(ss, Lower(term)) == Matching(ss, term)
  {
    LowerIdempotent(term);
    if ss != [] {
      MatchingLowered(ss[1..], term);
    }
  }

  /** The search ignores case: typing the term in lower case shows the same list. */
  lemma SearchIgnoresCase(ss: seq<Sessao>, term: string)
    ensures FilteredSessions(ss, Lower(term)) == FilteredSessions(ss, term)
  {
    TrimEmptyIff(term);
    TrimEmptyIff(Lower(term));
    LowerKeepsSpaces(term);
    MatchingLowered(ss, term);
  }

  // ---------------------------------------------------------------------
  // The query string of `loadSessions`
  // ---------------------------------------------------------------------

  /** One name-value pair of a `URLSearchParams`. */
  datatype Param = Param(name: string, value: string)

  /** The pairs not named `n`, in order. */
  function Without(ps: seq<Param>, n: string): (r: seq<Param>)
    ensures forall i :: 0 <= i < |r| ==> r[i].name != n
    ensures (forall i :: 0 <= i < |ps| ==> ps[i].name != n) ==> r == ps
  {
    if ps == [] then []
    else (if ps[0].name == n then [] else [ps[0]]) + Without(ps[1..], n)
  }

  /** `params.get(n)`: the value of the first pair named `n`. */
  function Get(ps: seq<Param>, n: string): (r: Option<string>)
    ensures r.None? <==> forall i :: 0 <= i < |ps| ==> ps[i].name != n
  {
    if ps == [] then None
    else if ps[0].name == n then Some(ps[0].value)
    else Get(ps[1..], n)
  }

  /**
   * `params.set(n, v)`: the first pair named `n` takes the value and the
   * later ones go; with no such pair, the pair is appended.
   */
  function SetParam(ps: seq<Param>, n: string, v: string): (r: seq<Param>)
    ensures Get(r, n) == Some(v)
    ensures |r| == |Without(r, n)| + 1
    ensures Without(r, n) == Without(ps, n)
    ensures (forall i :: 0 <= i < |ps| ==> ps[i].name != n) ==> r == ps + [Param(n, v)]
  {
    if ps == [] then [Param(n, v)]
    else if ps[0].name == n then [Param(n, v)] + Without(ps[1..], n)
    else [ps[0]] + SetParam(ps[1..], n, v)
  }

  /** Each pair as `URLSearchParams` writes it: both halves form-encoded, joined by `=`. */
  function EncodedPairs(ps: seq<Param>): (r: seq<string>)
    ensures |r| == |ps|
  {
    seq(|ps|, i requires 0 <= i < |ps| => Encode(FormUrlEncoded, ps[i].name) + "=" + Encode(FormUrlEncoded, ps[i].value))
  }

  /** `params.toString()`. */
  function Serialize(ps: seq<Param>): string {
    Join(EncodedPairs(ps), "&")
  }

  /**
   * The query string splits back into its pairs: one piece per pair at each
   * `&`, and each piece into the encoded name and value at its `=`. So no
   * value, whatever it holds, can add or cut short a parameter.
   */
  lemma QueryPieces(ps: seq<Param>)
    requires |ps| >= 1
    ensures var pieces := Split(Serialize(ps), '&');
      && |pieces| == |ps|
      && forall i :: 0 <= i < |ps| ==>
           Split(pieces[i], '=') == [Encode(FormUrlEncoded, ps[i].name), Encode(FormUrlEncoded, ps[i].value)]
  {
    var pairs := EncodedPairs(ps);
    forall i | 0 <= i < |ps|
      ensures '&' !in pairs[i]
      ensures Split(pairs[i], '=') == [Encode(FormUrlEncoded, ps[i].name), Encode(FormUrlEncoded, ps[i].value)]
    {
      var a, b := Encode(FormUrlEncoded, ps[i].name), Encode(FormUrlEncoded, ps[i].value);
      EncodedIsQuerySafe(FormUrlEncoded, ps[i].name);
      EncodedIsQuerySafe(FormUrlEncoded, ps[i].value);
      assert pairs[i] == a + "=" + b;
      assert Join([a, b], "=") == a + "=" + b;
      SplitJoin([a, b], '=');
    }
    SplitJoin(pairs, '&');
  }

  /** The sport filter of the page. */
  datatype Filtro = Todos | Corrida | Ciclismo | Musculacao

  function FiltroName(f: Filtro): string {
    match f
    case Todos => "todos"
    case Corrida => "corrida"
    case Ciclismo => "ciclismo"
    case Musculacao => "musculacao"
  }

  /** The pairs `loadSessions` sets, in the order it sets them. */
  function QueryParams(f: Filtro, inicio: string, fim: string): seq<Param> {
    (if f != Todos then [Param("modalidade", FiltroName(f))] else [])
    + [Param("inicio_em_inicio", inicio), Param("inicio_em_fim", fim)]
  }

  /** A `URLSearchParams` object: its list of pairs, changed in place by `set`. */
  class SearchParams {
    var entries: seq<Param>

    constructor()
      ensures entries == []
    {
      entries := [];
    }

    method Set(name: string, value: string)
      modifies this
      ensures entries == SetParam(old(entries), name, value)
    {
      entries := SetParam(entries, name, value);
    }
  }

  /**
   * `loadSessions` up to the request: nothing without a stored token,
   * otherwise the sessions call with the sport (unless "todos") and the
   * date range in its query string.
   */
  method LoadSessions(token: Option<string>, f: Filtro, inicio: string, fim: string) returns (c: Option<Api.Call>)
    ensures c.None? <==> token.None? || token.value == ""
    ensures c.Some? ==> c.value == Api.GetSessoesAtividade(token.value, Serialize(QueryParams(f, inicio, fim)))
  {
    if token.None? || token.value == "" {
      return None;
    }
    var ps := BuildQuery(f, inicio, fim);
    c := Some(Api.GetSessoesAtividade(token.value, Serialize(ps)));
  }

  /** The pairs `loadSessions` sets, in the order it sets them, on a fresh `URLSearchParams`. */
  method BuildQuery(f: Filtro, inicio: string, fim: string) returns (ps: seq<Param>)
    ensures ps == QueryParams(f, inicio, fim)
  {
    var params := new SearchParams();
    ghost var head: seq<Param> := [];
    if f != Todos {
      params.Set("modalidade", FiltroName(f));
      head := [Param("modalidade", FiltroName(f))];
    }
    assert params.entries == head;
    params.Set("inicio_em_inicio", inicio);
    assert params.entries == head + [Param("inicio_em_inicio", inicio)];
    params.Set("inicio_em_fim", fim);
    ps := params.entries;
  }

  /** A word of lower-case letters and underscores is written as it is. */
  lemma {:induction false} WordEncodesPlain(s: string)
    requires forall i :: 0 <= i < |s| ==> 'a' <= s[i] <= 'z' || s[i] == '_'
    ensures Encode(FormUrlEncoded, s) == s
  {
    if s != [] {
      WordEncodesPlain(s[1..]);
      assert Unreserved(FormUrlEncoded, s[0]);
    }
  }

  /** The parameter names and the sport names are written as they are. */
  lemma ModalidadePlain()
    ensures Encode(FormUrlEncoded, "modalidade") == "modalidade"
  {
    WordEncodesPlain("modalidade");
  }

  lemma InicioPlain()
    ensures Encode(FormUrlEncoded, "inicio_em_inicio") == "inicio_em_inicio"
  {
    WordEncodesPlain("inicio_em_inicio");
  }

  lemma FimPlain()
    ensures Encode(FormUrlEncoded, "inicio_em_fim") == "inicio_em_fim"
  {
    WordEncodesPlain("inicio_em_fim");
  }

  lemma FiltroPlain(f: Filtro)
    ensures Encode(FormUrlEncoded, FiltroName(f)) == FiltroName(f)
  {
    WordEncodesPlain(FiltroName(f));
  }

  /** The query `loadSessions` sends has three pairs with a sport chosen, two for "todos". */
  lemma LoadQueryCount(f: Filtro, inicio: string, fim: string)
    ensures |Split(Serialize(QueryParams(f, inicio, fim)), '&')| == if f == Todos then 2 else 3
  {
    QueryPieces(QueryParams(f, inicio, fim));
  }

  /** With a sport chosen, the query starts with `modalidade=<sport>`. */
  lemma SportPieceReadsBack(f: Filtro, inicio: string, fim: string)
    requires f != Todos
    ensures Split(Split(Serialize(QueryParams(f, inicio, fim)), '&')[0], '=') == ["modalidade", FiltroName(f)]
  {
    var ps := QueryParams(f, inicio, fim);
    QueryPieces(ps);
    assert ps[0] == Param("modalidade", FiltroName(f));
    ModalidadePlain();
    FiltroPlain(f);
  }

  /** The last pair but one is the start date, encoded. */
  lemma StartPieceReadsBack(f: Filtro, inicio: string, fim: string)
    ensures var pieces := Split(Serialize(QueryParams(f, inicio, fim)), '&');
      |pieces| >= 2 && Split(pieces[|pieces| - 2], '=') == ["inicio_em_inicio", Encode(FormUrlEncoded, inicio)]
  {
    var ps := QueryParams(f, inicio, fim);
    QueryPieces(ps);
    assert ps[|ps| - 2] == Param("inicio_em_inicio", inicio);
    InicioPlain();
  }

  /** The last pair is the end date, encoded. */
  lemma EndPieceReadsBack(f: Filtro, inicio: string, fim: string)
    ensures var pieces := Split(Serialize(QueryParams(f, inicio, fim)), '&');
      |pieces| >= 1 && Split(pieces[|pieces| - 1], '=') == ["inicio_em_fim", Encode(FormUrlEncoded, fim)]
  {
    var ps := QueryParams(f, inicio, fim);
    QueryPieces(ps);
    assert ps[|ps| - 1] == Param("inicio_em_fim", fim);
    FimPlain();
  }

  // ---------------------------------------------------------------------
  // The delete dialog
  // ---------------------------------------------------------------------

  /** The page state around deleting a session. */
  class HistoryPage {
    var deleteModalOpen: bool
    var sessaoSelecionada: Option<Sessao>
    var deleting: bool

    /** The dialog is open exactly when a session is selected. */
    predicate DialogConsistent()
      reads this
    {
      deleteModalOpen <==> sessaoSelecionada.Some?
    }

    constructor()
      ensures !deleteModalOpen && sessaoSelecionada == None && !deleting
      ensures DialogConsistent()
    {
      deleteModalOpen := false;
      sessaoSelecionada := None;
      deleting := false;
    }

    /** `handleOpenDeleteModal`. */
    method OpenDeleteModal(s: Sessao)
      modifies this
      ensures deleteModalOpen && sessaoSelecionada == Some(s) && deleting == old(deleting)
      ensures DialogConsistent()
    {
      sessaoSelecionada := Some(s);
      deleteModalOpen := true;
    }

    /** `handleCloseDeleteModal`: ignored while a deletion is under way. */
    method CloseDeleteModal()
      modifies this
      ensures old(deleting) ==> unchanged(this)
      ensures !old(deleting) ==> !deleteModalOpen && sessaoSelecionada == None && !deleting
      ensures old(DialogConsistent()) ==> DialogConsistent()
    {
      if deleting {
        return;
      }
      deleteModalOpen := false;
      sessaoSelecionada := None;
    }
  }
}
