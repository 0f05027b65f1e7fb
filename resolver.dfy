/** The field resolver `get_preferred_or_first` (src/main.py): an existence
    path guards a lookup of a preferred path with a fallback path. Any failure
    inside it (a path that does not parse, no match, a match that is not a
    string) is swallowed and turns into `None`; it never raises. */
module Resolver {
  import opened Wrappers
  import opened Text
  import opened Json

  /** `parse(path).find(root)[0].value`; `None` where that raises (the path
      does not parse, or it finds nothing). */
  function FirstMatch(root: Json, path: string): (r: Option<Json>)
    ensures r.Some? <==> ParsePath(path).Some? && Find(root, ParsePath(path).value) != []
  {
    match ParsePath(path)
    case None => None
    case Some(p) =>
      var ms := Find(root, p);
      if ms == [] then None else Some(ms[0])
  }

  /** `[m.value for m in parse(path).find(root)]`, for a path that parses. */
  function AllMatches(root: Json, path: string): (r: seq<Json>)
    ensures ParsePath(path).Some? ==> r == Find(root, ParsePath(path).value)
    ensures FirstMatch(root, path).Some? <==> r != []
    ensures r != [] ==> FirstMatch(root, path) == Some(r[0])
  {
    match ParsePath(path)
    case None => []
    case Some(p) => Find(root, p)
  }

  /** The first match of a path given by its text. */
  lemma FirstMatchOfPath(root: Json, p: Path)
    requires WellFormed(p)
    ensures FirstMatch(root, PathText(p)) == if Find(root, p) == [] then None else Some(Find(root, p)[0])
  {
    ParsePathText(p);
  }

  /** `parse(path).find(root)[0].value.strip()`; `None` where that raises,
      which includes a first match that is not a string. */
  function FirstStripped(root: Json, path: string): (r: Option<string>)
    ensures r.Some? ==> Trimmed(r.value)
    ensures r.Some? <==> FirstMatch(root, path).Some? && FirstMatch(root, path).value.Str?
  {
    match FirstMatch(root, path)
    case Some(Str(s)) => Some(Strip(s))
    case _ => None
  }

  /** The existence test: the first match of `pathIfExist` is there and is
      not JSON null. */
  predicate Exists(root: Json, pathIfExist: string) {
    FirstMatch(root, pathIfExist).Some? && !FirstMatch(root, pathIfExist).value.Null?
  }

  /** What the resolver promises of its result `r`: nothing when the
      existence path has no non-null match; otherwise the preferred match,
      stripped, when it is a string (even one that strips to ""), and else the
      first match of the fallback path, stripped, when that is a string. */
  predicate Resolves(root: Json, pathIfExist: string, pathOfPreferred: string, pathOfFirst: string, r: Option<string>) {
    && (!Exists(root, pathIfExist) ==> r == None)
    && (Exists(root, pathIfExist) && FirstMatch(root, pathOfPreferred).Some?
        && FirstMatch(root, pathOfPreferred).value.Str?
        ==> r == Some(Strip(FirstMatch(root, pathOfPreferred).value.s)))
    && (Exists(root, pathIfExist) && !(FirstMatch(root, pathOfPreferred).Some?
        && FirstMatch(root, pathOfPreferred).value.Str?)
        ==> r == FirstStripped(root, pathOfFirst))
  }

  /** A resolved value whose existence path matches a non-null value and
      whose preferred path matches a string is that string, stripped. */
  lemma ResolvesPreferred(root: Json, pathIfExist: string, pathOfPreferred: string, pathOfFirst: string,
                          r: Option<string>, v: string)
    requires Resolves(root, pathIfExist, pathOfPreferred, pathOfFirst, r)
    requires FirstMatch(root, pathIfExist).Some? && !FirstMatch(root, pathIfExist).value.Null?
    requires FirstMatch(root, pathOfPreferred) == Some(Str(v))
    ensures r == Some(Strip(v))
  {
  }

  /** `get_preferred_or_first`. */
  function GetPreferredOrFirst(root: Json, pathIfExist: string, pathOfPreferred: string, pathOfFirst: string)
    : (r: Option<string>)
    ensures Resolves(root, pathIfExist, pathOfPreferred, pathOfFirst, r)
    // a result never starts or ends with whitespace
    ensures r.Some? ==> Trimmed(r.value)
  {
    if Exists(root, pathIfExist) then
      match FirstStripped(root, pathOfPreferred)
      case Some(v) => Some(v)
      case None => FirstStripped(root, pathOfFirst)
    else None
  }

  /** An existing value with a string preferred match resolves to that
      string, stripped. */
  lemma PreferredMatchWins(root: Json, pathIfExist: string, pathOfPreferred: string, pathOfFirst: string, v: string)
    requires Exists(root, pathIfExist)
    requires FirstMatch(root, pathOfPreferred) == Some(Str(v))
    ensures GetPreferredOrFirst(root, pathIfExist, pathOfPreferred, pathOfFirst) == Some(Strip(v))
  {
  }

  /** With the same path in all three places (as for `$.id`, `$.email` or
      `$.start_time`), the resolver gives the stripped first match when that
      is a string and `None` otherwise. */
  lemma SinglePath(root: Json, path: string)
    ensures GetPreferredOrFirst(root, path, path, path) ==
      if FirstMatch(root, path).Some? && FirstMatch(root, path).value.Str?
      then Some(Strip(FirstMatch(root, path).value.s)) else None
  {
  }

  /** The resolver does not fall back past a blank preferred value: with the
      Finnish name blank and a Swedish one present, it returns "" where a
      "blank falls back" rule would give the Swedish name. */
  lemma BlankPreferredIsKept(names: Json, event: Json)
    requires names == Obj([("fi", Str("  ")), ("sv", Str("Konsert"))])
    requires event == Obj([("name", names)])
    ensures FirstMatch(event, "$.name.*") == Some(Str("  "))
    ensures FirstStripped(event, "$.name.*") != Some("Konsert")
    ensures GetPreferredOrFirst(event, "$.name.*", "$.name.fi", "$.name.*") == Some("")
  {
    assert StepMatches(event, Field("name")) == [names];
    NameFiMatch(names, event);
    NameWildcardMatch(names, event);
    StripAllSpace("  ");
  }

  lemma NameFiMatch(names: Json, event: Json)
    requires names == Obj([("fi", Str("  ")), ("sv", Str("Konsert"))])
    requires StepMatches(event, Field("name")) == [names]
    ensures FirstMatch(event, "$.name.fi") == Some(Str("  "))
  {
    assert IsName("name") && IsName("fi");
    TwoStepText("name", Field("fi"));
    assert StepMatches(names, Field("fi")) == [Str("  ")];
    MemberThenStep(event, names, "name", Field("fi"), "$.name.fi");
  }

  lemma NameWildcardMatch(names: Json, event: Json)
    requires names == Obj([("fi", Str("  ")), ("sv", Str("Konsert"))])
    requires StepMatches(event, Field("name")) == [names]
    ensures FirstMatch(event, "$.name.*") == Some(Str("  "))
  {
    assert IsName("name");
    TwoStepText("name", Wildcard);
    assert OrderedDict.ValuesOf(names.members) == [Str("  "), Str("Konsert")];
    MemberThenStep(event, names, "name", Wildcard, "$.name.*");
  }

  /** A member that matches one value, followed by one more step: the first
      match of the two-step path is the first match of that step on the
      member's value. */
  lemma MemberThenStep(event: Json, inner: Json, n: string, st: Step, path: string)
    requires IsName(n) && (st.Field? ==> IsName(st.name))
    requires StepMatches(event, Field(n)) == [inner]
    requires path == "$." + n + StepText(st)
    ensures FirstMatch(event, path) ==
      if StepMatches(inner, st) == [] then None else Some(StepMatches(inner, st)[0])
  {
    var p := [Field(n), st];
    assert WellFormed(p);
    FindThroughSingle(event, p, inner);
    assert p[1..] == [st];
    FindOneStep(inner, st);
    TwoStepText(n, st);
    FirstMatchOfPath(event, p);
  }

  lemma TwoStepText(n: string, st: Step)
    ensures PathText([Field(n), st]) == "$." + n + StepText(st)
  {
    TwoStepsText(n, st);
    RootMemberText(n, StepText(st));
  }

  lemma TwoStepsText(n: string, st: Step)
    ensures StepsText([Field(n), st]) == ("." + n) + StepText(st)
  {
    var p := [Field(n), st];
    assert p[0] == Field(n) && p[1..] == [st];
    assert [st][1..] == [];
    assert StepsText([st]) == StepText(st);
  }
}
