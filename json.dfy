/** Decoded JSON documents and the JSONPath subset the feed code queries them
    with: a path is `$` followed by steps `.name` (a member), `.*` (every
    member value) and `[*]` (every array element), and a query returns the
    list of matches in document order, as jsonpath_ng's `find` does. */
module Json {
  import opened Wrappers
  import OrderedDict

  /** A decoded JSON value. Objects keep their members in document order with
      distinct keys, as Python's `json` module builds them. Numbers are
      integers in this model. */
  datatype Json =
    | Null
    | Bool(b: bool)
    | Num(n: int)
    | Str(s: string)
    | Arr(items: seq<Json>)
    | Obj(members: OrderedDict.Entries<string, Json>)

  datatype Step =
    | Field(name: string)  // `.name`
    | Wildcard             // `.*`
    | EachItem             // `[*]`

  type Path = seq<Step>

  /** Python truthiness of a decoded value. */
  predicate Truthy(v: Json) {
    match v
    case Null => false
    case Bool(b) => b
    case Num(n) => n != 0
    case Str(s) => s != []
    case Arr(items) => items != []
    case Obj(ms) => ms != []
  }

  /** The matches of one step applied to one value. A member step finds the
      member of an object and nothing elsewhere; `.*` finds every member value
      of an object, in order; `[*]` finds the elements of an array, nothing for
      a falsy value, and the value itself for any other non-array value
      (jsonpath_ng wraps a lone value in a one-element list). */
  function StepMatches(v: Json, st: Step): (r: seq<Json>)
    ensures st.Field? ==> |r| <= 1
    ensures !Truthy(v) && !v.Obj? ==> r == []
  {
    match st
    case Field(name) =>
      if v.Obj? then
        match OrderedDict.Get(v.members, name)
        case Some(x) => [x]
        case None => []
      else []
    case Wildcard =>
      if v.Obj? then OrderedDict.ValuesOf(v.members) else []
    case EachItem =>
      if v.Arr? then v.items
      else if Truthy(v) then [v]
      else []
  }

  /** All matches of `p` against `v`, in document order. */
  function Find(v: Json, p: Path): seq<Json>
    decreases |p|, 0
  {
    if p == [] then [v] else FindAll(StepMatches(v, p[0]), p[1..])
  }

  /** The matches of `p` against each of `vs`, concatenated. */
  function FindAll(vs: seq<Json>, p: Path): seq<Json>
    decreases |p|, |vs| + 1
  {
    if vs == [] then [] else Find(vs[0], p) + FindAll(vs[1..], p)
  }

  /** A one-step path finds exactly that step's matches. */
  lemma FindOneStep(v: Json, st: Step)
    ensures Find(v, [st]) == StepMatches(v, st)
  {
    FindAllNoSteps(StepMatches(v, st));
    assert [st][1..] == [];
  }

  lemma {:induction false} FindAllNoSteps(vs: seq<Json>)
    ensures FindAll(vs, []) == vs
  {
    if vs != [] {
      FindAllNoSteps(vs[1..]);
      assert [vs[0]] + vs[1..] == vs;
    }
  }

  /** A path applied to a single match is the path applied to that value. */
  lemma FindAllSingle(x: Json, p: Path)
    ensures FindAll([x], p) == Find(x, p)
  {
    assert [x][1..] == [];
    assert Find(x, p) + [] == Find(x, p);
  }

  /** A step that matches exactly one value passes the rest of the path on to
      that value. */
  lemma FindThroughSingle(v: Json, p: Path, x: Json)
    requires p != [] && StepMatches(v, p[0]) == [x]
    ensures Find(v, p) == Find(x, p[1..])
  {
    FindAllSingle(x, p[1..]);
  }

  lemma {:induction false} FindAllAppend(xs: seq<Json>, ys: seq<Json>, p: Path)
    ensures FindAll(xs + ys, p) == FindAll(xs, p) + FindAll(ys, p)
    decreases |xs|
  {
    if xs == [] {
      assert xs + ys == ys;
      assert FindAll(xs, p) == [];
    } else {
      var zs := xs + ys;
      assert zs[0] == xs[0] && zs[1..] == xs[1..] + ys;
      FindAllAppend(xs[1..], ys, p);
      var a, b, c := Find(xs[0], p), FindAll(xs[1..], p), FindAll(ys, p);
      assert FindAll(zs, p) == a + FindAll(xs[1..] + ys, p);
      assert FindAll(xs, p) == a + b;
      ConcatAssoc(a, b, c);
    }
  }

  lemma ConcatAssoc<T>(a: seq<T>, b: seq<T>, c: seq<T>)
    ensures a + (b + c) == (a + b) + c
  {
  }

  /** `$` followed by a member step and more text. */
  lemma RootMemberText(n: string, t: string)
    ensures "$" + (("." + n) + t) == "$." + n + t
  {
    var l, r := "$" + ("." + n), "$." + n;
    assert |l| == |r|;
    forall i | 0 <= i < |l| ensures l[i] == r[i] {
      if i >= 2 { assert l[i] == n[i - 2]; }
    }
    ConcatAssoc("$", "." + n, t);
  }

  /** Following `p + q` is following `p` and then `q` from each match, which is
      how jsonpath_ng evaluates a child expression `p.q`. */
  lemma {:induction false} FindConcat(v: Json, p: Path, q: Path)
    ensures Find(v, p + q) == FindAll(Find(v, p), q)
    decreases |p|, 0
  {
    if p == [] {
      assert p + q == q;
      assert FindAll([v], q) == Find(v, q) + FindAll([], q);
    } else {
      assert (p + q)[1..] == p[1..] + q;
      assert (p + q)[0] == p[0];
      FindAllConcat(StepMatches(v, p[0]), p[1..], q);
    }
  }

  lemma {:induction false} FindAllConcat(vs: seq<Json>, p: Path, q: Path)
    ensures FindAll(vs, p + q) == FindAll(FindAll(vs, p), q)
    decreases |p|, |vs| + 1
  {
    if vs != [] {
      FindConcat(vs[0], p, q);
      FindAllConcat(vs[1..], p, q);
      FindAllAppend(Find(vs[0], p), FindAll(vs[1..], p), q);
    }
  }

  // ---------------------------------------------------------------------------
  // Path strings

  /** Characters that may start a member name (after an optional `@`). */
  predicate NameStart(c: char) {
    ('a' <= c <= 'z') || ('A' <= c <= 'Z') || c == '_'
  }

  /** Characters that may continue a member name. */
  predicate NameChar(c: char) {
    NameStart(c) || ('0' <= c <= '9') || c == '@' || c == '-'
  }

  /** Words the path lexer reads as keywords, not as member names. */
  predicate Reserved(n: string) {
    n == "where" || n == "wherenot"
  }

  /** A member name the path lexer reads as one identifier token. */
  predicate IsName(n: string) {
    && !Reserved(n)
    && (if |n| >= 1 && n[0] == '@' then |n| >= 2 && NameStart(n[1]) else |n| >= 1 && NameStart(n[0]))
    && (forall i :: 0 <= i < |n| ==> NameChar(n[i]) || (i == 0 && n[i] == '@'))
  }

  /** The length of the run of name characters at the start of `s`. */
  function ContLen(s: string): (k: nat)
    ensures k <= |s|
    ensures forall i :: 0 <= i < k ==> NameChar(s[i])
    ensures k < |s| ==> !NameChar(s[k])
  {
    if s != [] && NameChar(s[0]) then 1 + ContLen(s[1..]) else 0
  }

  /** The length of the longest identifier at the start of `s` (0 if none):
      the lexer's maximal munch. */
  function NameLen(s: string): (k: nat)
    ensures k <= |s|
  {
    if |s| >= 1 && NameStart(s[0]) then 1 + ContLen(s[1..])
    else if |s| >= 2 && s[0] == '@' && NameStart(s[1]) then 2 + ContLen(s[2..])
    else 0
  }

  function ParseSteps(s: string): Option<Path>
    decreases |s|
  {
    if s == [] then Some([])
    else if |s| >= 3 && s[..3] == "[*]" then
      match ParseSteps(s[3..])
      case Some(rest) => Some([EachItem] + rest)
      case None => None
    else if |s| >= 2 && s[..2] == ".*" then
      match ParseSteps(s[2..])
      case Some(rest) => Some([Wildcard] + rest)
      case None => None
    else if s[0] == '.' && NameLen(s[1..]) > 0 && !Reserved(s[1..1 + NameLen(s[1..])]) then
      var k := NameLen(s[1..]);
      match ParseSteps(s[1 + k..])
      case Some(rest) => Some([Field(s[1..1 + k])] + rest)
      case None => None
    else None
  }

  /** jsonpath_ng's `parse` on the subset: `None` is a parse error. Whatever
      parses is a well-formed path that prints back as the same text. */
  function ParsePath(s: string): (r: Option<Path>)
    ensures r.Some? ==> WellFormed(r.value) && PathText(r.value) == s
  {
    if |s| >= 1 && s[0] == '$' then
      var r := ParseSteps(s[1..]);
      if r.Some? then
        ParseStepsSound(s[1..]);
        assert s == [s[0]] + s[1..];
        r
      else r
    else None
  }

  function StepText(st: Step): string {
    match st
    case Field(name) => "." + name
    case Wildcard => ".*"
    case EachItem => "[*]"
  }

  function StepsText(p: Path): string {
    if p == [] then [] else StepText(p[0]) + StepsText(p[1..])
  }

  /** The path written out as a string. */
  function PathText(p: Path): string {
    "$" + StepsText(p)
  }

  /** Every member step of `p` names an identifier. */
  predicate WellFormed(p: Path) {
    forall i :: 0 <= i < |p| ==> p[i].Field? ==> IsName(p[i].name)
  }

  lemma {:induction false} ContLenAppend(t: string, rest: string)
    requires forall i :: 0 <= i < |t| ==> NameChar(t[i])
    requires rest == [] || !NameChar(rest[0])
    ensures ContLen(t + rest) == |t|
    decreases |t|
  {
    if t != [] {
      assert (t + rest)[1..] == t[1..] + rest;
      ContLenAppend(t[1..], rest);
    } else {
      assert t + rest == rest;
    }
  }

  lemma NameLenAppend(n: string, rest: string)
    requires IsName(n)
    requires rest == [] || rest[0] == '.' || rest[0] == '['
    ensures NameLen(n + rest) == |n|
    ensures (n + rest)[..|n|] == n
  {
    var s := n + rest;
    if NameStart(n[0]) {
      assert s[1..] == n[1..] + rest;
      ContLenAppend(n[1..], rest);
    } else {
      assert s[2..] == n[2..] + rest;
      ContLenAppend(n[2..], rest);
    }
  }

  /** Parsing one step's text followed by text that parses. */
  lemma ParseStepsCons(st: Step, tail: string, rest: Path)
    requires st.Field? ==> IsName(st.name)
    requires tail == [] || tail[0] == '.' || tail[0] == '['
    requires ParseSteps(tail) == Some(rest)
    ensures ParseSteps(StepText(st) + tail) == Some([st] + rest)
  {
    match st
    case EachItem =>
      var s := StepText(st) + tail;
      assert s[..3] == "[*]" && s[3..] == tail;
    case Wildcard =>
      var s := StepText(st) + tail;
      assert s[..2] == ".*" && s[2..] == tail;
      assert |s| >= 3 ==> s[..3][0] == '.';
    case Field(n) =>
      ParseFieldCons(n, tail, rest);
  }

  lemma ParseFieldCons(n: string, tail: string, rest: Path)
    requires IsName(n)
    requires tail == [] || tail[0] == '.' || tail[0] == '['
    requires ParseSteps(tail) == Some(rest)
    ensures ParseSteps("." + n + tail) == Some([Field(n)] + rest)
  {
    var s := "." + n + tail;
    assert s[1..] == n + tail;
    NameLenAppend(n, tail);
    var k := NameLen(s[1..]);
    assert k == |n|;
    assert s[1..1 + k] == n;
    assert s[1 + k..] == tail;
    assert !(|s| >= 3 && s[..3] == "[*]") by {
      assert |s| >= 3 ==> s[..3][0] == '.';
    }
    assert !(|s| >= 2 && s[..2] == ".*") by {
      assert |s| >= 2 ==> s[..2][1] == n[0];
    }
  }

  /** The text of a step followed by more steps. */
  lemma StepsTextPrepend(st: Step, p: Path)
    ensures StepsText([st] + p) == StepText(st) + StepsText(p)
  {
    assert ([st] + p)[1..] == p;
  }

  lemma {:induction false} ParseStepsText(p: Path)
    requires WellFormed(p)
    ensures ParseSteps(StepsText(p)) == Some(p)
  {
    if p != [] {
      WellFormedTail(p);
      ParseStepsText(p[1..]);
      StepsTextStart(p[1..]);
      ParseStepsCons(p[0], StepsText(p[1..]), p[1..]);
      assert [p[0]] + p[1..] == p;
    }
  }

  lemma WellFormedTail(p: Path)
    requires p != [] && WellFormed(p)
    ensures WellFormed(p[1..])
  {
    forall i | 0 <= i < |p[1..]| ensures p[1..][i].Field? ==> IsName(p[1..][i].name) {
      assert p[1..][i] == p[i + 1];
    }
  }

  /** The text of a non-empty path starts with `.` or `[`. */
  lemma StepsTextStart(p: Path)
    ensures StepsText(p) == [] || StepsText(p)[0] == '.' || StepsText(p)[0] == '['
  {
    if p != [] {
      assert StepsText(p) == StepText(p[0]) + StepsText(p[1..]);
      assert StepText(p[0])[0] == '.' || StepText(p[0])[0] == '[';
    }
  }

  /** Writing a well-formed path out and parsing it gives the path back. */
  lemma ParsePathText(p: Path)
    requires WellFormed(p)
    ensures ParsePath(PathText(p)) == Some(p)
  {
    ParseStepsText(p);
    assert PathText(p)[1..] == StepsText(p);
  }

  lemma {:induction false} ParseStepsSound(s: string)
    requires ParseSteps(s).Some?
    ensures WellFormed(ParseSteps(s).value)
    ensures StepsText(ParseSteps(s).value) == s
    decreases |s|, 1
  {
    if s != [] {
      if |s| >= 3 && s[..3] == "[*]" {
        SoundSymbol(s, EachItem, 3);
      } else if |s| >= 2 && s[..2] == ".*" {
        SoundSymbol(s, Wildcard, 2);
      } else {
        SoundField(s);
      }
    }
  }

  /** The `[*]` and `.*` cases of the soundness proof. */
  lemma {:induction false} SoundSymbol(s: string, st: Step, j: nat)
    requires st == EachItem || st == Wildcard
    requires j == |StepText(st)| && j <= |s| && s[..j] == StepText(st)
    requires st == Wildcard ==> !(|s| >= 3 && s[..3] == "[*]")
    requires ParseSteps(s).Some?
    ensures ParseSteps(s[j..]).Some? && ParseSteps(s) == Some([st] + ParseSteps(s[j..]).value)
    ensures WellFormed(ParseSteps(s).value)
    ensures StepsText(ParseSteps(s).value) == s
    decreases |s|, 0
  {
    ParseStepsSound(s[j..]);
    SoundStep(s, st, j, ParseSteps(s[j..]).value);
  }

  /** The `.name` case of the soundness proof. */
  lemma {:induction false} SoundField(s: string)
    requires s != [] && !(|s| >= 3 && s[..3] == "[*]") && !(|s| >= 2 && s[..2] == ".*")
    requires ParseSteps(s).Some?
    ensures WellFormed(ParseSteps(s).value)
    ensures StepsText(ParseSteps(s).value) == s
    decreases |s|, 0
  {
    ParsedField(s);
    var k := NameLen(s[1..]);
    var rest := ParseSteps(s[1 + k..]).value;
    ParseStepsSound(s[1 + k..]);
    assert s[1..][..k] == s[1..1 + k];
    NameLenIsName(s[1..]);
    SoundStep(s, Field(s[1..1 + k]), 1 + k, rest);
  }

  /** A parse that starts with neither `[*]` nor `.*` starts with a name. */
  lemma ParsedField(s: string)
    requires s != [] && !(|s| >= 3 && s[..3] == "[*]") && !(|s| >= 2 && s[..2] == ".*")
    requires ParseSteps(s).Some?
    ensures s[0] == '.' && 0 < NameLen(s[1..]) && !Reserved(s[1..1 + NameLen(s[1..])])
    ensures ParseSteps(s[1 + NameLen(s[1..])..]).Some?
    ensures ParseSteps(s) ==
      Some([Field(s[1..1 + NameLen(s[1..])])] + ParseSteps(s[1 + NameLen(s[1..])..]).value)
  {
  }

  /** One parsed step in front of a sound parse of the rest. */
  lemma SoundStep(s: string, st: Step, j: nat, rest: Path)
    requires j <= |s| && s[..j] == StepText(st)
    requires st.Field? ==> IsName(st.name)
    requires WellFormed(rest) && StepsText(rest) == s[j..]
    ensures WellFormed([st] + rest)
    ensures StepsText([st] + rest) == s
  {
    StepsTextPrepend(st, rest);
    assert s == s[..j] + s[j..];
    assert forall i :: 1 <= i < |[st] + rest| ==> ([st] + rest)[i] == rest[i - 1];
  }

  /** The identifier the lexer reads at the start of `t` is a name, unless it
      is a keyword. */
  lemma NameLenIsName(t: string)
    requires NameLen(t) > 0 && !Reserved(t[..NameLen(t)])
    ensures IsName(t[..NameLen(t)])
  {
    var k := NameLen(t);
    var n := t[..k];
    if NameStart(t[0]) {
      assert forall i :: 1 <= i < k ==> n[i] == t[1..][i - 1];
    } else {
      assert forall i :: 2 <= i < k ==> n[i] == t[2..][i - 2];
    }
  }

  /** The text of a well-formed path has no `{`: names cannot hold one. */
  lemma {:induction false} StepsTextNoBrace(p: Path)
    requires WellFormed(p)
    ensures '{' !in StepsText(p)
  {
    if p != [] {
      assert WellFormed(p[1..]) by {
        forall i | 0 <= i < |p[1..]| ensures p[1..][i].Field? ==> IsName(p[1..][i].name) {
          assert p[1..][i] == p[i + 1];
        }
      }
      StepsTextNoBrace(p[1..]);
      assert '{' !in StepText(p[0]) by {
        if p[0].Field? {
          assert forall i :: 0 <= i < |p[0].name| ==> p[0].name[i] != '{';
        }
      }
      assert StepsText(p) == StepText(p[0]) + StepsText(p[1..]);
    }
  }

  /** Every character of a string that parses is `$` or a character of the
      steps, none of which is `{`. */
  lemma ParsedHasNoBrace(s: string, k: int)
    requires ParsePath(s).Some? && 0 <= k < |s|
    ensures s[k] != '{'
  {
    var p := ParsePath(s).value;
    StepsTextNoBrace(p);
    assert s == "$" + StepsText(p);
    if k > 0 {
      assert s[k] == StepsText(p)[k - 1];
    }
  }

  /** No string with a `{` in it parses as a path. */
  lemma BraceDoesNotParse(s: string, k: int)
    requires 0 <= k < |s| && s[k] == '{'
    ensures ParsePath(s) == None
  {
    if ParsePath(s).Some? {
      ParsedHasNoBrace(s, k);
      assert false;
    }
  }
}
