/** The dashboard header's greeting name and the profile menu's display name. */
module Header {
  import opened Base
  import opened JsText

  const Fallback := "Atleta"

  /** The first character of trimmed text is not a space. */
  lemma TrimmedStart(s: string)
    ensures Trim(s) != "" ==> !IsSpace(Trim(s)[0])
  {
    var a := TrimStart(s);
    assert Trim(s) == a[..|Trim(s)|];
  }

  /**
   * `firstName`: the trimmed name up to its first U+0020 space, or "Atleta"
   * when the name is missing or blank. It never holds a space, and unless
   * it is the fallback it is how the trimmed name starts.
   */
  function FirstName(userName: Option<string>): (r: string)
    ensures ' ' !in r
    ensures Trim(userName.GetOr("")) == "" ==> r == Fallback
    ensures Trim(userName.GetOr("")) != "" ==> r != "" && IsPrefix(r, Trim(userName.GetOr("")))
    ensures Trim(userName.GetOr("")) != "" ==>
      |r| == |Trim(userName.GetOr(""))| || Trim(userName.GetOr(""))[|r|] == ' '
  {
    var t := Trim(userName.GetOr(""));
    TrimmedStart(userName.GetOr(""));
    OrElse(BeforeFirstSpace(t), Fallback)
  }

  /** Text without a U+0020 space, then a space or nothing, yields that text as its first word. */
  lemma {:induction false} BeforeSpaceOf(x: string, t: string)
    requires ' ' !in x && (t == [] || t[0] == ' ')
    ensures BeforeFirstSpace(x + t) == x
  {
    if x != [] {
      assert (x + t)[0] == x[0] && (x + t)[1..] == x[1..] + t;
      BeforeSpaceOf(x[1..], t);
    } else {
      assert x + t == t;
    }
  }

  /** Trimming "first rest" keeps `first` whole, followed by a space or by nothing. */
  lemma TrimFullName(first: string, rest: string)
    requires first != "" && NoSpace(first)
    ensures var r := Trim(first + " " + rest);
      |r| >= |first| && r[..|first|] == first && (|r| == |first| || r[|first|] == ' ')
  {
    var u := first + " " + rest;
    assert TrimStart(u) == u;
    var r := TrimEnd(u);
    assert u[|first| - 1] == first[|first| - 1];
    assert u[..|first| + 1] == first + " ";
  }

  /** A full name "first rest" greets with `first` when `first` holds no space character. */
  lemma FirstNameOfFullName(first: string, rest: string)
    requires first != "" && NoSpace(first)
    ensures FirstName(Some(first + " " + rest)) == first
  {
    TrimFullName(first, rest);
    var r := Trim(first + " " + rest);
    var t := r[|first|..];
    assert r == first + t;
    assert forall i :: 0 <= i < |first| ==> first[i] != ' ';
    BeforeSpaceOf(first, t);
  }

  /** The profile menu's name: the user's name, or "Atleta" when it is empty or missing. */
  function DisplayName(userName: Option<string>): (r: string)
    ensures userName.Some? && userName.value != "" ==> r == userName.value
    ensures userName.None? || userName.value == "" ==> r == Fallback
  {
    OrElse(userName.GetOr(""), Fallback)
  }
}
