/**
 * The string helpers of package utils (pkg/utils/stringutils.go): membership in
 * a list, lenient and strict boolean parsing, and reading a boolean from the
 * environment. `strconv.ParseBool`, `strings.TrimSpace` and `strings.ToLower`
 * are given by their documented behaviour; the environment is a map.
 */
module StringUtils {
  import opened Wrappers

  /** The error values these helpers produce. */
  datatype EnvError =
    | NotDefined                   // "env var not defined"
    | InvalidSyntax(input: string) // strconv.ParseBool's *NumError with ErrSyntax

  // ---------------------------------------------------------------------------
  // StringContains

  /** Linear search with an early return on the first match. */
  method StringContains(list: seq<string>, needle: string) returns (found: bool)
    ensures found <==> exists i :: 0 <= i < |list| && list[i] == needle
  {
    var k := 0;
    while k < |list|
      invariant 0 <= k <= |list|
      invariant forall i :: 0 <= i < k ==> list[i] != needle
    {
      if list[k] == needle {
        return true;
      }
      k := k + 1;
    }
    return false;
  }

  // ---------------------------------------------------------------------------
  // strings.TrimSpace

  /** unicode.IsSpace, the white space that strings.TrimSpace removes. */
  predicate IsSpace(c: char) {
    || c == '\t' || c == '\n' || c == '\U{B}' || c == '\U{C}' || c == '\r' || c == ' '
    || c == '\U{85}' || c == '\U{A0}' || c == '\U{1680}'
    || ('\U{2000}' <= c <= '\U{200A}')
    || c == '\U{2028}' || c == '\U{2029}' || c == '\U{202F}' || c == '\U{205F}' || c == '\U{3000}'
  }

  predicate AllSpace(s: string) {
    forall i :: 0 <= i < |s| ==> IsSpace(s[i])
  }

  /** Drops leading white space: what is kept is a suffix that starts with a non-space, and all that is dropped is white space. */
  function TrimLeft(s: string): (r: string)
    ensures |r| <= |s| && r == s[|s| - |r|..]
    ensures r != [] ==> !IsSpace(r[0])
    ensures AllSpace(s[..|s| - |r|])
  {
    if s != [] && IsSpace(s[0]) then
      var r := TrimLeft(s[1..]);
      assert s[..|s| - |r|] == [s[0]] + s[1..][..|s| - 1 - |r|];
      r
    else s
  }

  /** Drops trailing white space: what is kept is a prefix that ends with a non-space, and all that is dropped is white space. */
  function TrimRight(s: string): (r: string)
    ensures |r| <= |s| && r == s[..|r|]
    ensures r != [] ==> !IsSpace(r[|r| - 1])
    ensures AllSpace(s[|r|..])
  {
    if s != [] && IsSpace(s[|s| - 1]) then
      var r := TrimRight(s[..|s| - 1]);
      SpaceTailGrows(s, |r|);
      r
    else s
  }

  /** White space after position k of all but the last character, and a white last character, is white space after k. */
  lemma SpaceTailGrows(s: string, k: nat)
    requires s != [] && k <= |s| - 1 && IsSpace(s[|s| - 1]) && AllSpace(s[..|s| - 1][k..])
    ensures AllSpace(s[k..])
  {
    forall i | 0 <= i < |s| - k ensures IsSpace(s[k..][i]) {
      if i < |s| - 1 - k {
        assert s[k..][i] == s[..|s| - 1][k..][i];
      }
    }
  }

  /**
   * strings.TrimSpace: neither end of the result is white space, and the
   * result is empty exactly when the whole string is white space.
   */
  function TrimSpace(s: string): (r: string)
    ensures |r| <= |s|
    ensures r != [] ==> !IsSpace(r[0]) && !IsSpace(r[|r| - 1])
    ensures r == [] <==> AllSpace(s)
  {
    var l := TrimLeft(s);
    assert l == [] ==> s[..|s| - |l|] == s;
    var r := TrimRight(l);
    assert r == [] ==> l[|r|..] == l;
    r
  }

  lemma {:induction false} TrimLeftPadding(w: string, s: string)
    requires AllSpace(w)
    ensures TrimLeft(w + s) == TrimLeft(s)
  {
    if w != [] {
      assert (w + s)[0] == w[0] && IsSpace(w[0]);
      assert (w + s)[1..] == w[1..] + s;
      TrimLeftPadding(w[1..], s);
    } else {
      assert w + s == s;
    }
  }

  lemma {:induction false} TrimRightPadding(s: string, w: string)
    requires AllSpace(w)
    ensures TrimRight(s + w) == TrimRight(s)
  {
    if w != [] {
      var n := |w|;
      assert (s + w)[|s + w| - 1] == w[n - 1] && IsSpace(w[n - 1]);
      assert (s + w)[..|s + w| - 1] == s + w[..n - 1];
      TrimRightPadding(s, w[..n - 1]);
    } else {
      assert s + w == s;
    }
  }

  /** Trailing white space survives TrimLeft unless the whole string is white space. */
  lemma {:induction false} TrimLeftAppend(s: string, w: string)
    requires AllSpace(w)
    ensures TrimLeft(s + w) == TrimLeft(s) + w || (TrimLeft(s) == [] && TrimLeft(s + w) == [])
  {
    if s == [] {
      assert s + w == w;
      TrimLeftPadding(w, []);
      assert w + [] == w;
    } else if IsSpace(s[0]) {
      assert (s + w)[1..] == s[1..] + w;
      TrimLeftAppend(s[1..], w);
    }
  }

  /** TrimSpace ignores any white space added around its argument. */
  lemma TrimSpacePadding(w1: string, s: string, w2: string)
    requires AllSpace(w1) && AllSpace(w2)
    ensures TrimSpace(w1 + s + w2) == TrimSpace(s)
  {
    assert w1 + s + w2 == w1 + (s + w2);
    TrimLeftPadding(w1, s + w2);
    assert TrimSpace(w1 + s + w2) == TrimRight(TrimLeft(s + w2));
    TrimLeftAppend(s, w2);
    if TrimLeft(s + w2) == TrimLeft(s) + w2 {
      TrimRightPadding(TrimLeft(s), w2);
    } else {
      assert TrimLeft(s + w2) == [] && TrimLeft(s) == [];
    }
  }

  // ---------------------------------------------------------------------------
  // strings.ToLower

  /** Lower-cases the ASCII letters A to Z and keeps every other character. */
  function LowerChar(c: char): (d: char)
    ensures !('A' <= d <= 'Z')
  {
    if 'A' <= c <= 'Z' then (c as int + 32) as char else c
  }

  /** No white space character is a capital letter, so lower-casing keeps white space apart. */
  lemma LowerCharKeepsSpace(c: char)
    ensures IsSpace(LowerChar(c)) == IsSpace(c)
  {
  }

  /** strings.ToLower, character by character. */
  function ToLower(s: string): (r: string)
    ensures |r| == |s|
    ensures forall i :: 0 <= i < |s| ==> r[i] == LowerChar(s[i])
  {
    if s == [] then [] else [LowerChar(s[0])] + ToLower(s[1..])
  }

  /** Lower-casing works piece by piece. */
  lemma {:induction false} ToLowerAppend(a: string, b: string)
    ensures ToLower(a + b) == ToLower(a) + ToLower(b)
    decreases |a|
  {
    if a == [] {
      assert a + b == b;
    } else {
      assert (a + b)[1..] == a[1..] + b;
      ToLowerAppend(a[1..], b);
    }
  }

  lemma {:induction false} TrimLeftToLower(s: string)
    ensures TrimLeft(ToLower(s)) == ToLower(TrimLeft(s))
    decreases |s|
  {
    if s != [] {
      LowerCharKeepsSpace(s[0]);
      if IsSpace(s[0]) {
        assert ToLower(s)[1..] == ToLower(s[1..]);
        TrimLeftToLower(s[1..]);
      }
    }
  }

  lemma {:induction false} TrimRightToLower(s: string)
    ensures TrimRight(ToLower(s)) == ToLower(TrimRight(s))
    decreases |s|
  {
    if s != [] {
      var init, last := s[..|s| - 1], s[|s| - 1];
      LowerCharKeepsSpace(last);
      if IsSpace(last) {
        assert s == init + [last];
        ToLowerAppend(init, [last]);
        assert ToLower(s)[..|s| - 1] == ToLower(init);
        TrimRightToLower(init);
      }
    }
  }

  /** Trimming and lower-casing commute, because no white space character is a capital letter. */
  lemma TrimSpaceToLower(s: string)
    ensures TrimSpace(ToLower(s)) == ToLower(TrimSpace(s))
  {
    TrimLeftToLower(s);
    TrimRightToLower(TrimLeft(s));
  }

  // ---------------------------------------------------------------------------
  // strconv.ParseBool

  const TrueSpellings: set<string> := {"1", "t", "T", "TRUE", "true", "True"}
  const FalseSpellings: set<string> := {"0", "f", "F", "FALSE", "false", "False"}

  /** strconv.ParseBool: exactly the twelve documented spellings parse, anything else is a syntax error. */
  function ParseBool(s: string): (r: Result<bool, EnvError>)
    ensures r.Ok? <==> s in TrueSpellings + FalseSpellings
    ensures r.Ok? ==> (r.value <==> s in TrueSpellings)
    ensures r.Err? ==> r.error == InvalidSyntax(s)
  {
    match s
    case "1" | "t" | "T" | "TRUE" | "true" | "True" => Ok(true)
    case "0" | "f" | "F" | "FALSE" | "false" | "False" => Ok(false)
    case _ => Err(InvalidSyntax(s))
  }

  // ---------------------------------------------------------------------------
  // StringToBool

  /** A lower-cased string is none of the capitalised true spellings. */
  lemma LoweredHasNoCapital(u: string)
    ensures ToLower(u) !in {"T", "TRUE", "True"}
  {
    if u != [] {
      assert ToLower(u)[0] == LowerChar(u[0]);
    }
  }

  /**
   * Lenient conversion: trim, lower-case, accept "y", otherwise ParseBool with
   * errors read as false. After trimming and lower-casing, exactly "1", "t",
   * "true" and "y" are true.
   */
  function StringToBool(s: string): (r: bool)
    ensures r <==> ToLower(TrimSpace(s)) in {"1", "t", "true", "y"}
  {
    var t := ToLower(TrimSpace(s));
    LoweredHasNoCapital(TrimSpace(s));
    if t == "y" then true
    else match ParseBool(t)
      case Ok(b) => b
      case Err(_) => false
  }

  /** White space around the argument never changes the answer. */
  lemma StringToBoolIgnoresPadding(w1: string, s: string, w2: string)
    requires AllSpace(w1) && AllSpace(w2)
    ensures StringToBool(w1 + s + w2) == StringToBool(s)
  {
    TrimSpacePadding(w1, s, w2);
  }

  /** Two arguments that differ only in the case of ASCII letters give the same answer. */
  lemma StringToBoolIgnoresCase(s: string, t: string)
    requires ToLower(s) == ToLower(t)
    ensures StringToBool(s) == StringToBool(t)
  {
    TrimSpaceToLower(s);
    TrimSpaceToLower(t);
  }

  // ---------------------------------------------------------------------------
  // Environment

  /** os.Getenv: an unset variable reads as the empty string, like one set to it. */
  function Getenv(env: map<string, string>, key: string): (r: string)
    ensures r == "" <==> key !in env || env[key] == ""
    ensures r != "" ==> r == env[key]
  {
    if key in env then env[key] else ""
  }

  /** getEnvStr: an error exactly when the value is empty, so unset and set-to-empty look alike. */
  function GetEnvStr(env: map<string, string>, key: string): (r: Result<string, EnvError>)
    ensures r.Err? <==> key !in env || env[key] == ""
    ensures r.Err? ==> r.error == NotDefined
    ensures r.Ok? ==> r.value == env[key]
  {
    var v := Getenv(env, key);
    if v == "" then Err(NotDefined) else Ok(v)
  }

  /** GetEnvBool: the variable's value through ParseBool, untrimmed and case-sensitive. */
  function GetEnvBool(env: map<string, string>, key: string): (r: Result<bool, EnvError>)
    ensures r.Ok? <==> key in env && env[key] in TrueSpellings + FalseSpellings
    ensures r.Ok? ==> (r.value <==> env[key] in TrueSpellings)
    ensures r.Err? && (key !in env || env[key] == "") ==> r.error == NotDefined
    ensures r.Err? && key in env && env[key] != "" ==> r.error == InvalidSyntax(env[key])
  {
    match GetEnvStr(env, key)
    case Err(e) => Err(e)
    case Ok(s) =>
      match ParseBool(s)
      case Err(e) => Err(e)
      case Ok(v) => Ok(v)
  }

  /** A string that neither starts nor ends with white space is its own trimmed form. */
  lemma TrimSpaceUnpadded(s: string)
    requires s != [] ==> !IsSpace(s[0]) && !IsSpace(s[|s| - 1])
    ensures TrimSpace(s) == s
  {
  }

  lemma ToLowerOfLength1(s: string)
    requires |s| == 1
    ensures ToLower(s) == [LowerChar(s[0])]
  {
  }

  lemma ToLowerOfLength4(s: string)
    requires |s| == 4
    ensures ToLower(s) == [LowerChar(s[0]), LowerChar(s[1]), LowerChar(s[2]), LowerChar(s[3])]
  {
  }

  lemma TrueSpellingLength(s: string)
    requires s in TrueSpellings
    ensures |s| == 1 ==> s[0] in "1tT"
    ensures |s| != 1 ==> |s| == 4 && s[0] in "Tt" && s[1] in "Rr" && s[2] in "Uu" && s[3] in "Ee"
  {
  }

  lemma FalseSpellingLength(s: string)
    requires s in FalseSpellings
    ensures |s| == 1 ==> s[0] in "0fF"
    ensures |s| != 1 ==> |s| == 5
  {
  }

  lemma LoweredTrueWord(t: string)
    requires |t| == 4 && t[0] == 't' && t[1] == 'r' && t[2] == 'u' && t[3] == 'e'
    ensures t == "true"
  {
  }

  /** The true spellings lower-case to "1", "t" or "true". */
  lemma LowerOfTrueSpelling(s: string)
    requires |s| == 1 ==> s[0] in "1tT"
    requires |s| != 1 ==> |s| == 4 && s[0] in "Tt" && s[1] in "Rr" && s[2] in "Uu" && s[3] in "Ee"
    ensures ToLower(s) in {"1", "t", "true"}
  {
    if |s| == 1 {
      ToLowerOfLength1(s);
      assert LowerChar(s[0]) in "1t";
    } else {
      ToLowerOfLength4(s);
      LoweredTrueWord(ToLower(s));
    }
  }

  /** The false spellings lower-case to "0", "f" or a five-letter word. */
  lemma LowerOfFalseSpelling(s: string)
    requires |s| == 1 ==> s[0] in "0fF"
    requires |s| != 1 ==> |s| == 5
    ensures ToLower(s) !in {"1", "t", "true", "y"}
  {
    if |s| == 1 {
      ToLowerOfLength1(s);
      assert LowerChar(s[0]) in "0f";
    }
  }

  /** Where GetEnvBool succeeds, the lenient StringToBool agrees with it. */
  lemma GetEnvBoolAgreesWithStringToBool(env: map<string, string>, key: string)
    requires GetEnvBool(env, key).Ok?
    ensures StringToBool(env[key]) == GetEnvBool(env, key).value
  {
    var s := env[key];
    TrimSpaceUnpadded(s);
    if s in TrueSpellings {
      TrueSpellingLength(s);
      LowerOfTrueSpelling(s);
    } else {
      FalseSpellingLength(s);
      LowerOfFalseSpelling(s);
    }
  }

  /** "y" is true for StringToBool but a syntax error for GetEnvBool. */
  lemma GetEnvBoolHasNoYesShortcut(env: map<string, string>, key: string)
    requires key in env && env[key] == "y"
    ensures GetEnvBool(env, key) == Err(InvalidSyntax("y"))
    ensures StringToBool(env[key])
  {
    TrimSpaceUnpadded(env[key]);
    assert ToLower(env[key]) == [LowerChar('y')];
  }

  /** Every documented spelling starts with a character that is not white space. */
  lemma SpellingsAreUnpadded(x: string)
    ensures x in TrueSpellings + FalseSpellings ==> x != [] && !IsSpace(x[0])
  {
  }

  /** Surrounding white space is trimmed by StringToBool but rejected by GetEnvBool. */
  lemma GetEnvBoolDoesNotTrim(env: map<string, string>, key: string, w: string, s: string)
    requires key in env && env[key] == w + s
    requires w != [] && AllSpace(w) && s in TrueSpellings + FalseSpellings
    ensures GetEnvBool(env, key) == Err(InvalidSyntax(w + s))
    ensures StringToBool(env[key]) == (s in TrueSpellings)
  {
    assert (w + s)[0] == w[0] && IsSpace(w[0]);
    SpellingsAreUnpadded(w + s);
    StringToBoolIgnoresPadding(w, s, "");
    assert w + s + "" == w + s;
    GetEnvBoolAgreesWithStringToBool(map[key := s], key);
  }

  /**
   * A capitalisation of a documented spelling that is not itself documented
   * (such as "tRUE") is folded by StringToBool but rejected by GetEnvBool.
   */
  lemma GetEnvBoolIsCaseSensitive(env: map<string, string>, key: string, w: string)
    requires w in TrueSpellings + FalseSpellings
    requires key in env && env[key] !in TrueSpellings + FalseSpellings && ToLower(env[key]) == ToLower(w)
    ensures GetEnvBool(env, key) == Err(InvalidSyntax(env[key]))
    ensures StringToBool(env[key]) == (w in TrueSpellings)
  {
    StringToBoolIgnoresCase(env[key], w);
    GetEnvBoolAgreesWithStringToBool(map[key := w], key);
  }
}
