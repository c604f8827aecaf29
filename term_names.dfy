/** The term-name prettifier of the exported model table (`prettify_terms`):
    interaction colons become " * ", the intercept aliases collapse to "Intercept",
    `ident[T.Level]` becomes `ident [Level]` and `np.power(x, 2)` becomes `x^2`.
    The two regular-expression substitutions are modelled as the left-to-right scan
    that `re.sub` performs: try to match at the current position, and either emit the
    replacement and resume after the match, or emit one character and move on. */
module TermNames {
  import opened Wrappers

  const Aliases: set<string> := {"Intercept", "const", "(Intercept)", "Intercept[0]"}

  /** Step 1: every ":" becomes " * ". */
  function ReplaceColons(s: string): (r: string)
    ensures ':' !in r
  {
    if s == [] then []
    else (if s[0] == ':' then " * " else [s[0]]) + ReplaceColons(s[1..])
  }

  // ---------- `([A-Za-z_][A-Za-z0-9_]*)(\[T\.([^\]]+)\])` -> `\1 [\3]` ----------

  predicate IsIdentStart(c: char) {
    ('A' <= c <= 'Z') || ('a' <= c <= 'z') || c == '_'
  }

  predicate IsIdentChar(c: char) {
    IsIdentStart(c) || ('0' <= c <= '9')
  }

  /** A non-empty ASCII identifier, as the pattern's first group matches it. */
  predicate IsIdentifier(s: string) {
    |s| > 0 && IsIdentStart(s[0]) && forall i :: 0 <= i < |s| ==> IsIdentChar(s[i])
  }

  /** The end of the run of identifier characters that starts at `i`. */
  function IdentEnd(s: string, i: nat): (k: nat)
    requires i <= |s|
    ensures i <= k <= |s|
    ensures forall j :: i <= j < k ==> IsIdentChar(s[j])
    ensures k < |s| ==> !IsIdentChar(s[k])
    decreases |s| - i
  {
    if i == |s| || !IsIdentChar(s[i]) then i else IdentEnd(s, i + 1)
  }

  /** The first position at or after `i` holding `c`, or |s|. */
  function FindChar(s: string, c: char, i: nat): (k: nat)
    requires i <= |s|
    ensures i <= k <= |s|
    ensures forall j :: i <= j < k ==> s[j] != c
    ensures k < |s| ==> s[k] == c
    decreases |s| - i
  {
    if i == |s| || s[i] == c then i else FindChar(s, c, i + 1)
  }

  /** "[T." starts at position k. */
  predicate LevelMarkerAt(s: string, k: int) {
    0 <= k && k + 3 <= |s| && s[k] == '[' && s[k + 1] == 'T' && s[k + 2] == '.'
  }

  /** The level pattern matched at the start of `s`: the identifier is the whole
      identifier run (the next character must be "[", which no identifier character
      is), and the level runs to the first "]". Returns the positions of "[" and "]". */
  function LevelMatch(s: string): (r: Option<(nat, nat)>)
    ensures r.Some? ==> var (k, m) := r.value;
      && 0 < k && k + 3 < m < |s| && LevelMarkerAt(s, k) && s[m] == ']'
      && IsIdentStart(s[0]) && (forall j :: 0 <= j < k ==> IsIdentChar(s[j]))
      && (forall j :: k + 3 <= j < m ==> s[j] != ']')
  {
    if |s| == 0 || !IsIdentStart(s[0]) then None
    else
      var k := IdentEnd(s, 1);
      if !LevelMarkerAt(s, k) then None
      else
        var m := FindChar(s, ']', k + 3);
        if m == |s| || m == k + 3 then None else Some((k, m))
  }

  /** Step 3: `re.sub` of the level pattern. */
  function RewriteLevels(s: string): (r: string)
    decreases |s|
  {
    if s == [] then []
    else match LevelMatch(s)
      case Some((k, m)) => s[..k] + " [" + s[k + 3..m] + "]" + RewriteLevels(s[m + 1..])
      case None => [s[0]] + RewriteLevels(s[1..])
  }

  // ---------- `np\.power\(([^,]+),\s*2\)` -> `\1^2` ----------

  /** `\s` of Python's `re` on str patterns: the characters for which str.isspace holds. */
  predicate IsRegexSpace(c: char) {
    ('\t' <= c <= '\r') || ('\U{1C}' <= c <= ' ') || c == '\U{85}' || c == '\U{A0}'
    || c == '\U{1680}' || ('\U{2000}' <= c <= '\U{200A}') || c == '\U{2028}' || c == '\U{2029}'
    || c == '\U{202F}' || c == '\U{205F}' || c == '\U{3000}'
  }

  const PowerOpen: string := "np.power("

  /** The end of the run of whitespace that starts at `i`. */
  function SpaceEnd(s: string, i: nat): (k: nat)
    requires i <= |s|
    ensures i <= k <= |s|
    ensures forall j :: i <= j < k ==> IsRegexSpace(s[j])
    ensures k < |s| ==> !IsRegexSpace(s[k])
    decreases |s| - i
  {
    if i == |s| || !IsRegexSpace(s[i]) then i else SpaceEnd(s, i + 1)
  }

  /** The power pattern matched at the start of `s`: the argument runs to the first
      comma (it may not be empty), all whitespace after the comma is skipped, and
      "2)" must follow. Returns the comma's position and the end of the match. */
  function PowerMatch(s: string): (r: Option<(nat, nat)>)
    ensures r.Some? ==> var (c, e) := r.value;
      && 9 < c < e <= |s| && s[..9] == PowerOpen && s[c] == ','
      && (forall j :: 9 <= j < c ==> s[j] != ',')
      && s[e - 2] == '2' && s[e - 1] == ')'
      && (forall j :: c < j < e - 2 ==> IsRegexSpace(s[j]))
  {
    if |s| < 9 || s[..9] != PowerOpen then None
    else
      var c := FindChar(s, ',', 9);
      if c == |s| || c == 9 then None
      else
        var w := SpaceEnd(s, c + 1);
        if w + 2 <= |s| && s[w] == '2' && s[w + 1] == ')' then Some((c, w + 2)) else None
  }

  /** Step 4: `re.sub` of the power pattern. */
  function RewritePower(s: string): (r: string)
    decreases |s|
  {
    if s == [] then []
    else match PowerMatch(s)
      case Some((c, e)) => s[9..c] + "^2" + RewritePower(s[e..])
      case None => [s[0]] + RewritePower(s[1..])
  }

  /** `prettify_terms`. */
  function Prettify(term: string): (r: string)
    ensures ReplaceColons(term) in Aliases ==> r == "Intercept"
  {
    var t := ReplaceColons(term);
    if t in Aliases then "Intercept" else RewritePower(RewriteLevels(t))
  }

  // ---------- properties ----------

  lemma {:induction false} ReplaceColonsIdentity(s: string)
    requires ':' !in s
    ensures ReplaceColons(s) == s
  {
    if s != [] {
      ReplaceColonsIdentity(s[1..]);
    }
  }

  /** Colon replacement works character by character, so it distributes over
      concatenation. */
  lemma {:induction false} ReplaceColonsAppend(a: string, b: string)
    ensures ReplaceColons(a + b) == ReplaceColons(a) + ReplaceColons(b)
  {
    if a == [] {
      assert a + b == b;
    } else {
      assert (a + b)[0] == a[0] && (a + b)[1..] == a[1..] + b;
      ReplaceColonsAppend(a[1..], b);
    }
  }

  /** The four intercept aliases all print as "Intercept". */
  lemma PrettifyAliases(term: string)
    requires term in Aliases
    ensures Prettify(term) == "Intercept"
  {
    ReplaceColonsIdentity(term);
  }

  /** The level rewrite only ever adds spaces and square brackets. */
  lemma {:induction false} RewriteLevelsAlphabet(s: string)
    ensures forall c :: c in RewriteLevels(s) ==> c in s || c in " []"
  {
    if s != [] {
      match LevelMatch(s)
      case Some((k, m)) =>
        RewriteLevelsAlphabet(s[m + 1..]);
        assert forall c :: c in s[..k] || c in s[k + 3..m] || c in s[m + 1..] ==> c in s;
      case None =>
        RewriteLevelsAlphabet(s[1..]);
        assert forall c :: c in s[1..] ==> c in s;
    }
  }

  /** The power rewrite only ever adds "^" and "2". */
  lemma {:induction false} RewritePowerAlphabet(s: string)
    ensures forall c :: c in RewritePower(s) ==> c in s || c in "^2"
  {
    if s != [] {
      match PowerMatch(s)
      case Some((c, e)) =>
        RewritePowerAlphabet(s[e..]);
        assert forall x :: x in s[9..c] || x in s[e..] ==> x in s;
      case None =>
        RewritePowerAlphabet(s[1..]);
        assert forall x :: x in s[1..] ==> x in s;
    }
  }

  /** Colons are replaced before anything else, so no prettified name holds one. */
  lemma NoColonAfterPrettify(term: string)
    ensures ':' !in Prettify(term)
  {
    var t := ReplaceColons(term);
    if t !in Aliases {
      RewriteLevelsAlphabet(t);
      RewritePowerAlphabet(RewriteLevels(t));
    }
  }

  /** An identifier followed by `[T.Level]` becomes `identifier [Level]`, and the
      scan resumes right after the closing bracket. */
  lemma LevelRewritten(id: string, level: string, rest: string)
    requires IsIdentifier(id)
    requires |level| > 0 && ']' !in level
    ensures RewriteLevels(id + "[T." + level + "]" + rest)
         == id + " [" + level + "]" + RewriteLevels(rest)
  {
    var s := id + "[T." + level + "]" + rest;
    var k, m := |id|, |id| + 3 + |level|;
    assert s[..k] == id && s[k..k + 3] == "[T." && s[k + 3..m] == level;
    assert s[m] == ']' && s[m + 1..] == rest;
    assert IdentEnd(s, 1) == k by {
      IdentEndOfIdentifier(s, k);
    }
    assert FindChar(s, ']', k + 3) == m by {
      assert forall j :: k + 3 <= j < m ==> s[j] == level[j - k - 3];
      FindCharAt(s, ']', k + 3, m);
    }
    assert LevelMatch(s) == Some((k, m));
  }

  lemma {:induction false} IdentEndOfIdentifier(s: string, k: nat)
    requires 1 <= k < |s|
    requires forall j :: 0 <= j < k ==> IsIdentChar(s[j])
    requires !IsIdentChar(s[k])
    ensures IdentEnd(s, 1) == k
  {
    IdentEndFrom(s, 1, k);
  }

  lemma {:induction false} IdentEndFrom(s: string, i: nat, k: nat)
    requires i <= k < |s|
    requires forall j :: i <= j < k ==> IsIdentChar(s[j])
    requires !IsIdentChar(s[k])
    ensures IdentEnd(s, i) == k
    decreases k - i
  {
    if i < k {
      IdentEndFrom(s, i + 1, k);
    }
  }

  lemma {:induction false} FindCharAt(s: string, c: char, i: nat, m: nat)
    requires i <= m < |s| && s[m] == c
    requires forall j :: i <= j < m ==> s[j] != c
    ensures FindChar(s, c, i) == m
    decreases m - i
  {
    if i < m {
      FindCharAt(s, c, i + 1, m);
    }
  }

  /** A "[T." that is not immediately preceded by an identifier character (the
      `C(Condition)[T.L2]` form, whose "[" follows ")") is never rewritten: a string
      whose every marker is like that comes out of the level rewrite unchanged. */
  lemma {:induction false} BareLevelsUntouched(s: string)
    requires forall k :: LevelMarkerAt(s, k) ==> k == 0 || !IsIdentChar(s[k - 1])
    ensures RewriteLevels(s) == s
  {
    if s != [] {
      match LevelMatch(s)
      case Some(_) =>
        assert false;
      case None =>
        forall k | LevelMarkerAt(s[1..], k)
          ensures k == 0 || !IsIdentChar(s[1..][k - 1])
        {
          assert LevelMarkerAt(s, k + 1);
        }
        BareLevelsUntouched(s[1..]);
    }
  }

  /** `np.power(x, 2)` (any whitespace after the comma) becomes `x^2`, and the scan
      resumes right after the closing parenthesis. */
  lemma PowerRewritten(x: string, ws: string, rest: string)
    requires |x| > 0 && ',' !in x
    requires forall j :: 0 <= j < |ws| ==> IsRegexSpace(ws[j])
    ensures RewritePower(PowerOpen + x + "," + ws + "2)" + rest) == x + "^2" + RewritePower(rest)
  {
    var s := PowerOpen + x + "," + ws + "2)" + rest;
    var c := 9 + |x|;
    var w := c + 1 + |ws|;
    assert s[..9] == PowerOpen && s[9..c] == x && s[c] == ',';
    assert s[w] == '2' && s[w + 1] == ')' && s[w + 2..] == rest;
    assert FindChar(s, ',', 9) == c by {
      assert forall j :: 9 <= j < c ==> s[j] == x[j - 9];
      FindCharAt(s, ',', 9, c);
    }
    assert SpaceEnd(s, c + 1) == w by {
      assert forall j :: c + 1 <= j < w ==> s[j] == ws[j - c - 1];
      SpaceEndFrom(s, c + 1, w);
    }
    assert PowerMatch(s) == Some((c, w + 2));
  }

  lemma {:induction false} SpaceEndFrom(s: string, i: nat, k: nat)
    requires i <= k < |s|
    requires forall j :: i <= j < k ==> IsRegexSpace(s[j])
    requires !IsRegexSpace(s[k])
    ensures SpaceEnd(s, i) == k
    decreases k - i
  {
    if i < k {
      SpaceEndFrom(s, i + 1, k);
    }
  }

  /** "np.power(" occurs at position k. */
  predicate PowerOpenAt(s: string, k: int) {
    0 <= k && k + 9 <= |s| && s[k] == 'n' && s[k + 1] == 'p' && s[k..k + 9] == PowerOpen
  }

  /** Text without "np.power(" passes the power rewrite unchanged. */
  lemma {:induction false} NoPowerUntouched(s: string)
    requires forall k :: !PowerOpenAt(s, k)
    ensures RewritePower(s) == s
  {
    if s != [] {
      assert PowerMatch(s) == None by {
        assert !PowerOpenAt(s, 0);
      }
      forall k ensures !PowerOpenAt(s[1..], k) {
        if PowerOpenAt(s[1..], k) {
          PowerOpenShift(s, k);
        }
      }
      NoPowerUntouched(s[1..]);
      assert [s[0]] + s[1..] == s;
    }
  }

  /** A name that is not an intercept alias once its colons are replaced goes
      through both substitutions. */
  lemma PrettifyRewrites(term: string)
    requires ReplaceColons(term) !in Aliases
    ensures Prettify(term) == RewritePower(RewriteLevels(ReplaceColons(term)))
  {
  }

  /** A plain name (no ":", no "[T.", no "np.power(", not an alias) is shown as it
      is. */
  lemma PlainNameUnchanged(term: string)
    requires ':' !in term && term !in Aliases
    requires forall k :: !LevelMarkerAt(term, k)
    requires forall k :: !PowerOpenAt(term, k)
    ensures Prettify(term) == term
  {
    ReplaceColonsIdentity(term);
    BareLevelsUntouched(term);
    NoPowerUntouched(term);
  }

  lemma PowerOpenShift(s: string, k: int)
    requires |s| > 0 && PowerOpenAt(s[1..], k)
    ensures PowerOpenAt(s, k + 1)
  {
    assert s[1..][k..k + 9] == s[k + 1..k + 10];
  }

  /** Worked example: a squared term. */
  lemma SquaredTermExample()
    ensures Prettify("np.power(Gaze_c, 2)") == "Gaze_c^2"
  {
    var p := "np.power(Gaze_c, 2)";
    ReplaceColonsIdentity(p);
    NotAnAlias(p);
    PrettifyRewrites(p);
    SquaredTermLevels();
    SquaredTermPower();
  }

  lemma NotAnAlias(t: string)
    requires |t| > 12
    ensures t !in Aliases
  {
  }

  lemma SquaredTermLevels()
    ensures RewriteLevels("np.power(Gaze_c, 2)") == "np.power(Gaze_c, 2)"
  {
    BareLevelsUntouched("np.power(Gaze_c, 2)");
  }

  lemma SquaredTermPower()
    ensures RewritePower("np.power(Gaze_c, 2)") == "Gaze_c^2"
  {
    PowerRewritten("Gaze_c", " ", "");
    assert "np.power(Gaze_c, 2)" == PowerOpen + "Gaze_c" + "," + " " + "2)" + "";
  }

  /** An interaction of two colon-free names is written with " * ". */
  lemma InteractionJoined(a: string, b: string)
    requires ':' !in a && ':' !in b
    ensures ReplaceColons(a + ":" + b) == a + " * " + b
  {
    ReplaceColonsAppend(a + ":", b);
    ReplaceColonsAppend(a, ":");
    ReplaceColonsIdentity(a);
    ReplaceColonsIdentity(b);
    assert ReplaceColons(":") == " * " by {
      assert ":"[1..] == [];
    }
  }

  /** Worked example: a level indicator of the `C(...)` form keeps its "[T."
      marker, because its "[" follows ")". */
  lemma WrappedLevelExample()
    ensures Prettify("C(Condition)[T.L2]") == "C(Condition)[T.L2]"
  {
    var t := "C(Condition)[T.L2]";
    ReplaceColonsIdentity(t);
    NotAnAlias(t);
    PrettifyRewrites(t);
    WrappedLevelLevels();
    WrappedLevelPower();
  }

  lemma WrappedLevelLevels()
    ensures RewriteLevels("C(Condition)[T.L2]") == "C(Condition)[T.L2]"
  {
    BareLevelsUntouched("C(Condition)[T.L2]");
  }

  lemma WrappedLevelPower()
    ensures RewritePower("C(Condition)[T.L2]") == "C(Condition)[T.L2]"
  {
    NoPowerUntouched("C(Condition)[T.L2]");
  }
}
