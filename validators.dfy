/** The query-parameter patterns of `GET /events` (src/main.py). A pattern
    constraint succeeds when the regular expression matches somewhere in the
    value, so only its anchors tie it to the whole value. */
module Validators {
  import opened Wrappers
  import opened Text

  predicate IsLowerLetter(c: char) {
    'a' <= c <= 'z'
  }

  predicate AllLower(s: string) {
    forall i :: 0 <= i < |s| ==> IsLowerLetter(s[i])
  }

  predicate AllDigits(s: string) {
    forall i :: 0 <= i < |s| ==> IsDigit(s[i])
  }

  // ---------------------------------------------------------------------------
  // location: ^[a-z]*:[0-9]+(,[a-z]*:[0-9]+)*$

  /** The states of the pattern's automaton: reading the letters of a token,
      just past its colon, or reading its digits (the accepting state). */
  datatype LocationState = Letters | Colon | Digits

  /** The pattern run over `s` from state `q`; true when it ends accepting. */
  predicate LocationRun(q: LocationState, s: string)
    decreases |s|
  {
    if s == [] then q == Digits
    else
      var c := s[0];
      match q
      case Letters =>
        if IsLowerLetter(c) then LocationRun(Letters, s[1..])
        else c == ':' && LocationRun(Colon, s[1..])
      case Colon =>
        IsDigit(c) && LocationRun(Digits, s[1..])
      case Digits =>
        if IsDigit(c) then LocationRun(Digits, s[1..])
        else c == ',' && LocationRun(Letters, s[1..])
  }

  /** The `location` pattern, which is anchored at both ends. */
  predicate LocationPattern(s: string) {
    LocationRun(Letters, s)
  }

  /** One location id: lower-case letters (the data source), a colon, and at
      least one digit. */
  predicate IsLocationId(t: string) {
    exists k :: 0 <= k < |t| - 1 && t[k] == ':' && ColonAt(t, k)
  }

  /** Everything before position `k` is a lower-case letter and everything
      after it a digit. */
  predicate ColonAt(t: string, k: int)
    requires 0 <= k < |t|
  {
    && (forall i :: 0 <= i < k ==> IsLowerLetter(t[i]))
    && (forall i :: k < i < |t| ==> IsDigit(t[i]))
  }

  predicate AllLocationIds(ps: seq<string>) {
    forall i :: 0 <= i < |ps| ==> IsLocationId(ps[i])
  }

  /** The pattern accepts exactly the strings whose comma-separated pieces,
      as `location_string.split(",")` cuts them, are all location ids. */
  lemma LocationPatternSpec(s: string)
    ensures LocationPattern(s) <==> AllLocationIds(Split(s, ','))
  {
    LocationRunSpec(Letters, s);
  }

  /** What each state of the run accepts, in terms of the pieces of the rest. */
  predicate StateAccepts(q: LocationState, s: string) {
    var ps := Split(s, ',');
    match q
    case Letters => AllLocationIds(ps)
    case Colon => ps[0] != [] && AllDigits(ps[0]) && AllLocationIds(ps[1..])
    case Digits => AllDigits(ps[0]) && AllLocationIds(ps[1..])
  }

  lemma {:induction false} LocationRunSpec(q: LocationState, s: string)
    ensures LocationRun(q, s) <==> StateAccepts(q, s)
    decreases |s|
  {
    if s == [] {
      var ps := Split(s, ',');
      assert ps == [[]] && ps[0] == [] && ps[1..] == [];
      assert !IsLocationId([]);
      assert !AllLocationIds(ps) by { assert !IsLocationId(ps[0]); }
      assert AllDigits(ps[0]) && AllLocationIds(ps[1..]);
    } else {
      var c := s[0];
      var rest := Split(s[1..], ',');
      var ps := Split(s, ',');
      LocationRunSpec(Letters, s[1..]);
      LocationRunSpec(Colon, s[1..]);
      LocationRunSpec(Digits, s[1..]);
      if c == ',' {
        assert ps == [[]] + rest;
        assert ps[1..] == rest;
        assert ps[0] == [] && !IsLocationId(ps[0]);
      } else {
        var head := [c] + rest[0];
        assert ps == [head] + rest[1..];
        assert ps[1..] == rest[1..];
        assert AllLocationIds(rest) <==> IsLocationId(rest[0]) && AllLocationIds(rest[1..]) by {
          if IsLocationId(rest[0]) && AllLocationIds(rest[1..]) {
            forall i | 0 <= i < |rest| ensures IsLocationId(rest[i]) {
              if i > 0 { assert rest[i] == rest[1..][i - 1]; }
            }
          }
        }
        assert AllLocationIds(ps) <==> IsLocationId(head) && AllLocationIds(rest[1..]) by {
          assert ps[0] == head;
          if IsLocationId(head) && AllLocationIds(rest[1..]) {
            forall i | 0 <= i < |ps| ensures IsLocationId(ps[i]) {
              if i > 0 { assert ps[i] == rest[1..][i - 1]; }
            }
          }
          if AllLocationIds(ps) {
            forall i | 0 <= i < |rest[1..]| ensures IsLocationId(rest[1..][i]) {
              assert rest[1..][i] == ps[i + 1];
            }
          }
        }
        if IsLowerLetter(c) {
          LocationIdCons(c, rest[0]);
        } else if c == ':' {
          LocationIdColon(rest[0]);
        } else {
          LocationIdOther(c, rest[0]);
        }
        assert AllDigits(head) <==> IsDigit(c) && AllDigits(rest[0]) by {
          if IsDigit(c) && AllDigits(rest[0]) {
            forall i | 0 <= i < |head| ensures IsDigit(head[i]) {
              if i > 0 { assert head[i] == rest[0][i - 1]; }
            }
          }
          if AllDigits(head) {
            assert head[0] == c;
            forall i | 0 <= i < |rest[0]| ensures IsDigit(rest[0][i]) {
              assert rest[0][i] == head[i + 1];
            }
          }
        }
      }
    }
  }

  lemma LocationIdCons(c: char, t: string)
    requires IsLowerLetter(c)
    ensures IsLocationId([c] + t) <==> IsLocationId(t)
  {
    var ct := [c] + t;
    assert forall i :: 1 <= i < |ct| ==> ct[i] == t[i - 1];
    if IsLocationId(t) {
      var k :| 0 <= k < |t| - 1 && t[k] == ':' && ColonAt(t, k);
      assert ct[k + 1] == ':' && ColonAt(ct, k + 1);
    }
    if IsLocationId(ct) {
      var k :| 0 <= k < |ct| - 1 && ct[k] == ':' && ColonAt(ct, k);
      assert k != 0;
      forall i | 0 <= i < k - 1 ensures IsLowerLetter(t[i]) {
        assert t[i] == ct[i + 1];
      }
      forall i | k - 1 < i < |t| ensures IsDigit(t[i]) {
        assert t[i] == ct[i + 1];
      }
      assert t[k - 1] == ':' && ColonAt(t, k - 1);
    }
  }

  lemma LocationIdColon(t: string)
    ensures IsLocationId([':'] + t) <==> t != [] && AllDigits(t)
  {
    var ct := [':'] + t;
    assert forall i :: 1 <= i < |ct| ==> ct[i] == t[i - 1];
    if t != [] && AllDigits(t) {
      assert ColonAt(ct, 0);
    }
    if IsLocationId(ct) {
      var k :| 0 <= k < |ct| - 1 && ct[k] == ':' && ColonAt(ct, k);
      assert !IsLowerLetter(ct[0]);
      assert k == 0;
      forall i | 0 <= i < |t| ensures IsDigit(t[i]) {
        assert t[i] == ct[i + 1];
      }
    }
  }

  lemma LocationIdOther(c: char, t: string)
    requires !IsLowerLetter(c) && c != ':'
    ensures !IsLocationId([c] + t)
  {
    var ct := [c] + t;
    forall k | 0 <= k < |ct| - 1 && ct[k] == ':' ensures !ColonAt(ct, k) {
      assert k > 0 && !IsLowerLetter(ct[0]);
    }
  }

  /** `ab:1,c:2` passes; `a:1,` (an empty piece), `A:1` (an upper-case
      letter) and `a:` (no digits) do not. */
  lemma LocationExamples()
    ensures LocationPattern("ab:1,c:2")
    ensures !LocationPattern("a:1,")
    ensures !LocationPattern("A:1")
    ensures !LocationPattern("a:")
  {
    assert LocationRun(Digits, "2");
    assert LocationRun(Letters, "c:2");
    assert LocationRun(Letters, "ab:1,c:2");
    assert !LocationRun(Letters, "");
    assert !LocationRun(Digits, ",");
    assert !LocationRun(Colon, "");
  }

  // ---------------------------------------------------------------------------
  // preferred_language: ^fi|sv|en$

  predicate StartsWith(s: string, p: string) {
    |p| <= |s| && s[..|p|] == p
  }

  predicate EndsWith(s: string, p: string) {
    |p| <= |s| && s[|s| - |p|..] == p
  }

  predicate Contains(s: string, p: string)
    decreases |s|
  {
    StartsWith(s, p) || (s != [] && Contains(s[1..], p))
  }

  /** The pattern as written. Alternation binds loosest, so it reads as
      `(^fi)|(sv)|(en$)`: the value starts with "fi", or contains "sv"
      anywhere, or ends with "en". */
  predicate LanguagePatternAsWritten(s: string) {
    StartsWith(s, "fi") || Contains(s, "sv") || EndsWith(s, "en")
  }

  /** The evidently intended `^(fi|sv|en)$`. */
  predicate LanguagePattern(s: string) {
    s == "fi" || s == "sv" || s == "en"
  }

  /** The intended pattern accepts exactly the three language codes, and each
      of them also passes the pattern as written. */
  lemma LanguagePatternSpec(s: string)
    ensures LanguagePattern(s) <==> s in {"fi", "sv", "en"}
    ensures LanguagePattern(s) ==> LanguagePatternAsWritten(s)
  {
    if s == "sv" {
      assert StartsWith(s, "sv");
    }
  }

  /** The pattern as written lets through values that are not language codes:
      "finnish" (starts with "fi"), "xsvx" (contains "sv") and "broken" (ends
      with "en"); the intended pattern refuses all three. */
  lemma LanguagePatternTooWide()
    ensures LanguagePatternAsWritten("finnish") && !LanguagePattern("finnish")
    ensures LanguagePatternAsWritten("xsvx") && !LanguagePattern("xsvx")
    ensures LanguagePatternAsWritten("broken") && !LanguagePattern("broken")
  {
    assert StartsWith("xsvx"[1..], "sv");
    assert StartsWith("finnish", "fi");
    assert EndsWith("broken", "en");
  }

  // ---------------------------------------------------------------------------
  // The request check

  /** FastAPI's answer to a query that fails its patterns (status 422): one
      error per failing parameter, in declaration order. */
  datatype Unprocessable = Unprocessable(parameters: seq<string>)

  /** Checks the two patterned parameters, each against its pattern as
      written, and reports every one that fails. */
  function ValidateQuery(location: string, preferredLanguage: string): (r: Option<Unprocessable>)
    ensures r.None? <==> AllLocationIds(Split(location, ',')) && LanguagePatternAsWritten(preferredLanguage)
    ensures r.Some? ==> r.value.parameters != []
    ensures r.Some? ==> ("location" in r.value.parameters <==> !AllLocationIds(Split(location, ',')))
    ensures r.Some? ==>
      ("preferred_language" in r.value.parameters <==> !LanguagePatternAsWritten(preferredLanguage))
    ensures r.Some? ==> forall i :: 0 <= i < |r.value.parameters| ==>
      r.value.parameters[i] in ["location", "preferred_language"]
    // the location is reported before the language
    ensures r.Some? && "location" in r.value.parameters ==> r.value.parameters[0] == "location"
  {
    LocationPatternSpec(location);
    var failing :=
      (if LocationPattern(location) then [] else ["location"])
      + (if LanguagePatternAsWritten(preferredLanguage) then [] else ["preferred_language"]);
    if failing == [] then None else Some(Unprocessable(failing))
  }

  /** A language value that is not a language code is let through as long as
      the location is valid, while the intended pattern would refuse it. */
  lemma WideLanguageAccepted(location: string)
    requires AllLocationIds(Split(location, ','))
    ensures ValidateQuery(location, "finnish").None?
    ensures !LanguagePattern("finnish")
  {
    LanguagePatternTooWide();
  }
}
