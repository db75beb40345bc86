/**
 * The exercise library page: the search over exercise names and muscle
 * groups, and the count labels shown above the list.
 */
module Exercises {
  import opened Base
  import opened JsText

  /** A listed exercise, with the fields the page reads. */
  datatype Exercicio = Exercicio(id: int, nome: string, grupoMuscular: Option<string>, equipamento: Option<string>)

  /**
   * The search test: the lower-cased name includes the lower-cased term, or
   * the muscle group is present and its lower case includes it. The
   * equipment is not consulted.
   */
  predicate Matches(ex: Exercicio, term: string): (b: bool)
    ensures term == "" ==> b
  {
    ContainsEmpty(Lower(ex.nome));
    Contains(Lower(ex.nome), Lower(term))
    || (ex.grupoMuscular.Some? && Contains(Lower(ex.grupoMuscular.value), Lower(term)))
  }

  /** `filteredExercises`: the exercises that match, in their order. */
  function FilteredExercises(exs: seq<Exercicio>, term: string): (r: seq<Exercicio>)
    ensures |r| <= |exs|
    ensures forall i :: 0 <= i < |r| ==> r[i] in exs && Matches(r[i], term)
    ensures forall i :: 0 <= i < |exs| && Matches(exs[i], term) ==> exs[i] in r
  {
    if exs == [] then []
    else (if Matches(exs[0], term) then [exs[0]] else []) + FilteredExercises(exs[1..], term)
  }

  /** An empty search keeps every exercise, in order. */
  lemma {:induction false} EmptySearchKeepsAll(exs: seq<Exercicio>)
    ensures FilteredExercises(exs, "") == exs
  {
    if exs != [] {
      ContainsEmpty(Lower(exs[0].nome));
      EmptySearchKeepsAll(exs[1..]);
    }
  }

  /** Filtering keeps the order of the list: it works piece by piece. */
  lemma {:induction false} FilterConcat(a: seq<Exercicio>, b: seq<Exercicio>, term: string)
    ensures FilteredExercises(a + b, term) == FilteredExercises(a, term) + FilteredExercises(b, term)
  {
    if a != [] {
      var head := if Matches(a[0], term) then [a[0]] else [];
      FilterConcat(a[1..], b, term);
      assert (a + b)[1..] == a[1..] + b;
      assert FilteredExercises(a + b, term) == head + FilteredExercises(a[1..] + b, term);
      assert FilteredExercises(a, term) == head + FilteredExercises(a[1..], term);
    } else {
      assert a + b == b;
    }
  }

  /** The equipment plays no part: changing it never changes what the search shows. */
  lemma {:induction false} EquipmentIgnored(exs: seq<Exercicio>, term: string, i: nat, e: Option<string>)
    requires i < |exs|
    ensures FilteredExercises(exs[i := exs[i].(equipamento := e)], term) ==
      FilteredExercises(exs[..i], term) + FilteredExercises([exs[i].(equipamento := e)], term) + FilteredExercises(exs[i + 1..], term)
    ensures (FilteredExercises([exs[i].(equipamento := e)], term) == []) == (FilteredExercises([exs[i]], term) == [])
  {
    var changed := exs[i := exs[i].(equipamento := e)];
    assert changed == exs[..i] + [changed[i]] + exs[i + 1..];
    FilterConcat(exs[..i] + [changed[i]], exs[i + 1..], term);
    FilterConcat(exs[..i], [changed[i]], term);
  }

  /** " exercício", with an "s" when `plural`. */
  function Noun(plural: bool): string {
    " exercício" + (if plural then "s" else "")
  }

  /** The banner above the search: none yet, or the total with a plural "s" above one. */
  function CountLabel(total: nat): (r: string)
    ensures total == 0 ==> r == "Nenhum exercício cadastrado ainda"
    ensures total > 0 ==> r != [] && IsDigit(r[0])
  {
    if total == 0 then "Nenhum exercício cadastrado ainda"
    else NatToString(total) + (Noun(total > 1) + " disponíveis")
  }

  /** The line under the search: how many are shown out of the total, plural unless the total is one. */
  function ShowingLabel(showing: nat, total: nat): (r: string)
    ensures IsPrefix("Mostrando ", r)
  {
    "Mostrando " + (NatToString(showing) + (" de " + (NatToString(total) + Noun(total != 1))))
  }

  /** With at least one exercise, the banner reads back to the total, plural exactly above one. */
  lemma CountLabelReadsBack(total: nat)
    requires total > 0
    ensures ReadNumber(CountLabel(total)) == (total, Noun(total > 1) + " disponíveis")
  {
    ReadPrinted(total, Noun(total > 1) + " disponíveis");
  }

  /**
   * The line under the search reads back to the shown count and the total;
   * its plural agrees with the banner's whenever there is an exercise.
   */
  lemma ShowingLabelReadsBack(showing: nat, total: nat)
    ensures var rest := ReadNumber(ShowingLabel(showing, total)[10..]);
      && rest == (showing, " de " + (NatToString(total) + Noun(total != 1)))
      && ReadNumber(rest.1[4..]) == (total, Noun(total != 1))
    ensures total > 0 ==> (total != 1) == (total > 1)
  {
    var tail := " de " + (NatToString(total) + Noun(total != 1));
    assert ShowingLabel(showing, total)[10..] == NatToString(showing) + tail;
    ReadPrinted(showing, tail);
    assert tail[4..] == NatToString(total) + Noun(total != 1);
    ReadPrinted(total, Noun(total != 1));
  }
}
