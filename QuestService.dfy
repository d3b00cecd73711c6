/**
  The string logic of the quest-generation endpoint (urban-explorer/main.py):
  the request's theme literal with its default, the theme guideline placed
  into the prompt, and the cleaning of the language model's reply before it
  is parsed as JSON.
*/
module QuestService {
  import opened Wrappers

  // ----- the request theme -----

  datatype QuestTheme = DefaultMode | ArtisticMode | FoodieMode | PhotographerMode | SocialMode

  /** The literal each theme is written as in a request. */
  function ThemeLabel(t: QuestTheme): string {
    match t
    case DefaultMode => "默认模式"
    case ArtisticMode => "文艺青年模式"
    case FoodieMode => "美食探索者模式"
    case PhotographerMode => "摄影师模式"
    case SocialMode => "社交达人模式"
  }

  /**
    Validation of the request's `theme` field: absent means the default, a
    present value must be one of the five literals, anything else is refused
    (`None`).
  */
  function ParseQuestTheme(field: Option<string>): (r: Option<QuestTheme>)
    ensures field.None? ==> r == Some(DefaultMode)
    ensures field.Some? && r.Some? ==> ThemeLabel(r.value) == field.value
    ensures field.Some? && r.None? ==> forall t :: ThemeLabel(t) != field.value
  {
    match field
    case None => Some(DefaultMode)
    case Some(s) =>
      if s == "默认模式" then Some(DefaultMode)
      else if s == "文艺青年模式" then Some(ArtisticMode)
      else if s == "美食探索者模式" then Some(FoodieMode)
      else if s == "摄影师模式" then Some(PhotographerMode)
      else if s == "社交达人模式" then Some(SocialMode)
      else None
  }

  /** Every theme's literal is accepted as that theme, and no two themes share a literal. */
  lemma ThemeLabelRoundTrip(t: QuestTheme, u: QuestTheme)
    ensures ParseQuestTheme(Some(ThemeLabel(t))) == Some(t)
    ensures ThemeLabel(t) == ThemeLabel(u) ==> t == u
  {
  }

  // ----- the theme guideline -----

  const Critical: string := "CRITICAL:"
  const GuidelineLead: string := Critical + " All generated tasks MUST be tailored to the "
  const GuidelineRest: string := ". This is the top priority and should heavily influence the nature of the tasks."

  /** The guideline for a theme value: nothing for an empty value or the default, else the CRITICAL sentence naming it. */
  function ThemeGuideline(theme: string): (g: string)
    ensures g == "" <==> theme == "" || theme == "默认模式"
  {
    if theme != "" && theme != "默认模式" then GuidelineLead + ("'" + theme + "'") + GuidelineRest else ""
  }

  /** `s` occurs in `t` at position `i`. */
  predicate OccursAt(s: string, t: string, i: nat) {
    i + |s| <= |t| && t[i..i + |s|] == s
  }

  /**
    For a validated theme, the guideline is empty exactly for the default;
    otherwise it starts with "CRITICAL:" and holds the theme's literal
    between single quotes.
  */
  lemma GuidelineForTheme(t: QuestTheme)
    ensures ThemeGuideline(ThemeLabel(t)) == "" <==> t == DefaultMode
    ensures t != DefaultMode ==>
      && OccursAt(Critical, ThemeGuideline(ThemeLabel(t)), 0)
      && OccursAt("'" + ThemeLabel(t) + "'", ThemeGuideline(ThemeLabel(t)), |GuidelineLead|)
  {
    if t != DefaultMode {
      var quoted := "'" + ThemeLabel(t) + "'";
      var g := ThemeGuideline(ThemeLabel(t));
      assert g == GuidelineLead + quoted + GuidelineRest;
      assert g[..|Critical|] == Critical by {
        assert g == Critical + (g[|Critical|..]);
      }
      assert g[|GuidelineLead|..|GuidelineLead| + |quoted|] == quoted;
    }
  }

  // ----- stripping -----

  /** The characters Python's `str.isspace` accepts, which `strip()` removes. */
  const PySpaceChars: set<char> := {
    '\t', '\n', '\U{B}', '\U{C}', '\r', '\U{1C}', '\U{1D}', '\U{1E}', '\U{1F}', ' ',
    '\U{85}', '\U{A0}', '\U{1680}',
    '\U{2000}', '\U{2001}', '\U{2002}', '\U{2003}', '\U{2004}', '\U{2005}',
    '\U{2006}', '\U{2007}', '\U{2008}', '\U{2009}', '\U{200A}',
    '\U{2028}', '\U{2029}', '\U{202F}', '\U{205F}', '\U{3000}'}

  /** The set `lstrip("```json")` removes: its argument read as a set of characters. */
  const JsonFenceChars: set<char> := {'`', 'j', 's', 'o', 'n'}

  const Backtick: set<char> := {'`'}

  /** Every character of `s` belongs to `cs`. */
  predicate AllIn(s: string, cs: set<char>) {
    forall i :: 0 <= i < |s| ==> s[i] in cs
  }

  /** How many leading characters of `s` belong to `cs`. */
  function LeadingCount(s: string, cs: set<char>): (k: nat)
    ensures k <= |s|
  {
    if s == [] || s[0] !in cs then 0
    else 1 + LeadingCount(s[1..], cs)
  }

  /** How many trailing characters of `s` belong to `cs`. */
  function TrailingCount(s: string, cs: set<char>): (k: nat)
    ensures k <= |s|
  {
    if s == [] || s[|s| - 1] !in cs then 0
    else 1 + TrailingCount(s[..|s| - 1], cs)
  }

  /** `s.lstrip(chars)`: drop the longest prefix made only of characters of `cs`. */
  function LStripSet(s: string, cs: set<char>): string
  {
    s[LeadingCount(s, cs)..]
  }

  /** `s.rstrip(chars)`: drop the longest suffix made only of characters of `cs`. */
  function RStripSet(s: string, cs: set<char>): string
  {
    s[..|s| - TrailingCount(s, cs)]
  }

  /** `s.strip()`: drop white space at both ends. */
  function Strip(s: string): string {
    RStripSet(LStripSet(s, PySpaceChars), PySpaceChars)
  }

  /** The cleaning chain applied to the model's reply before `json.loads`. */
  function CleanReply(raw: string): string {
    Strip(RStripSet(LStripSet(Strip(raw), JsonFenceChars), Backtick))
  }

  /** The count is of the longest run of `cs` at the front. */
  lemma {:induction false} LeadingCountSpec(s: string, cs: set<char>)
    ensures AllIn(s[..LeadingCount(s, cs)], cs)
    ensures LeadingCount(s, cs) < |s| ==> s[LeadingCount(s, cs)] !in cs
  {
    if s != [] && s[0] in cs {
      LeadingCountSpec(s[1..], cs);
      var k := LeadingCount(s[1..], cs);
      forall i | 0 <= i < k + 1 ensures s[i] in cs {
        if i > 0 {
          assert s[i] == s[1..][..k][i - 1];
        }
      }
      if k + 1 < |s| {
        assert s[k + 1] == s[1..][k];
      }
    }
  }

  /** The count is of the longest run of `cs` at the back. */
  lemma {:induction false} TrailingCountSpec(s: string, cs: set<char>)
    ensures AllIn(s[|s| - TrailingCount(s, cs)..], cs)
    ensures TrailingCount(s, cs) < |s| ==> s[|s| - 1 - TrailingCount(s, cs)] !in cs
  {
    if s != [] && s[|s| - 1] in cs {
      var init := s[..|s| - 1];
      TrailingCountSpec(init, cs);
      var k := TrailingCount(init, cs);
      forall i | |s| - (k + 1) <= i < |s| ensures s[i] in cs {
        if i < |s| - 1 {
          assert s[i] == init[|init| - k..][i - (|s| - (k + 1))];
        }
      }
      if k + 1 < |s| {
        assert s[|s| - 1 - (k + 1)] == init[|init| - 1 - k];
      }
    }
  }

  /**
    `lstrip(chars)` removes a prefix made only of characters of `cs`, and
    what remains does not start with one of them.
  */
  lemma LStripSpec(s: string, cs: set<char>)
    ensures AllIn(s[..|s| - |LStripSet(s, cs)|], cs)
    ensures LStripSet(s, cs) == [] || LStripSet(s, cs)[0] !in cs
  {
    LeadingCountSpec(s, cs);
  }

  /**
    `rstrip(chars)` removes a suffix made only of characters of `cs`, and
    what remains does not end with one of them.
  */
  lemma RStripSpec(s: string, cs: set<char>)
    ensures AllIn(s[|RStripSet(s, cs)|..], cs)
    ensures RStripSet(s, cs) == [] || RStripSet(s, cs)[|RStripSet(s, cs)| - 1] !in cs
  {
    TrailingCountSpec(s, cs);
  }

  /** The cleaned reply neither starts nor ends with white space. */
  lemma CleanTrimmed(raw: string)
    ensures var r := CleanReply(raw);
      r == [] || (r[0] !in PySpaceChars && r[|r| - 1] !in PySpaceChars)
  {
    var d := RStripSet(LStripSet(Strip(raw), JsonFenceChars), Backtick);
    var e := LStripSet(d, PySpaceChars);
    LStripSpec(d, PySpaceChars);
    RStripSpec(e, PySpaceChars);
    var r := RStripSet(e, PySpaceChars);
    if r != [] {
      assert r[0] == e[0];
    }
  }

  // ----- what cleaning keeps -----

  /** `t` is the slice `s[i..j]` of `s`. */
  predicate SliceOf(t: string, s: string, i: nat, j: nat) {
    i <= j <= |s| && t == s[i..j]
  }

  lemma SliceOfSlice(s: string, a: nat, b: nat, c: nat, d: nat)
    requires a <= b <= |s| && c <= d <= b - a
    ensures s[a..b][c..d] == s[a + c..a + d]
  {
    forall k | 0 <= k < d - c ensures s[a..b][c..d][k] == s[a + c..a + d][k] {
      assert s[a..b][c..d][k] == s[a..b][c + k] == s[a + c + k];
    }
  }

  /** Composing two slices gives a slice. */
  lemma SliceTrans(u: string, t: string, s: string, i: nat, j: nat, k: nat, l: nat)
    requires SliceOf(u, t, k, l) && SliceOf(t, s, i, j)
    ensures SliceOf(u, s, i + k, i + l)
  {
    SliceOfSlice(s, i, j, k, l);
  }

  /** An `lstrip` followed by an `rstrip`, whatever the two sets, leaves a contiguous slice. */
  lemma StripSetsIsSlice(s: string, front: set<char>, back: set<char>) returns (i: nat, j: nat)
    ensures SliceOf(RStripSet(LStripSet(s, front), back), s, i, j)
  {
    var a := LStripSet(s, front);
    var b := RStripSet(a, back);
    SliceTrans(b, a, s, |s| - |a|, |s|, 0, |b|);
    i, j := |s| - |a|, |s| - |a| + |b|;
  }

  /** A slice of a slice of a slice is a slice of the whole. */
  lemma SliceChain(c: string, d: string, b: string, raw: string, i1: nat, j1: nat, i2: nat, j2: nat, i3: nat, j3: nat)
    requires SliceOf(b, raw, i1, j1) && SliceOf(d, b, i2, j2) && SliceOf(c, d, i3, j3)
    ensures SliceOf(c, raw, i1 + i2 + i3, i1 + i2 + j3)
  {
    SliceTrans(d, b, raw, i1, j1, i2, j2);
    SliceTrans(c, d, raw, i1 + i2, i1 + j2, i3, j3);
  }

  /** Whatever the reply, the cleaned text is a contiguous piece of it. */
  lemma CleanIsSlice(raw: string) returns (i: nat, j: nat)
    ensures SliceOf(CleanReply(raw), raw, i, j)
  {
    var b := Strip(raw);
    var d := RStripSet(LStripSet(b, JsonFenceChars), Backtick);
    var i1, j1 := StripSetsIsSlice(raw, PySpaceChars, PySpaceChars);
    var i2, j2 := StripSetsIsSlice(b, JsonFenceChars, Backtick);
    var i3, j3 := StripSetsIsSlice(d, PySpaceChars, PySpaceChars);
    SliceChain(Strip(d), d, b, raw, i1, j1, i2, j2, i3, j3);
    i, j := i1 + i2 + i3, i1 + i2 + j3;
  }

  /**
    `lstrip("```json")` strips a set, not a prefix: it removes "json" with no
    fence in front, and also runs such as "son" that follow the fence.
  */
  lemma LStripRemovesSetNotPrefix()
    ensures LStripSet("json{}", JsonFenceChars) == "{}"
    ensures LStripSet("```jsonson{}", JsonFenceChars) == "{}"
    ensures LStripSet("```json", JsonFenceChars) == ""
  {
    LStripBareJson();
    LStripRepeatedLetters();
    LStripWholeFence();
  }

  lemma LStripBareJson()
    ensures LStripSet("json{}", JsonFenceChars) == "{}"
  {
    LStripPrefix("json", "{}", JsonFenceChars);
    assert "json{}" == "json" + "{}";
  }

  lemma LStripRepeatedLetters()
    ensures LStripSet("```jsonson{}", JsonFenceChars) == "{}"
  {
    LStripPrefix("```jsonson", "{}", JsonFenceChars);
    assert "```jsonson{}" == "```jsonson" + "{}";
  }

  lemma LStripWholeFence()
    ensures LStripSet("```json", JsonFenceChars) == ""
  {
    LStripPrefix("```json", "", JsonFenceChars);
    assert "```json" == "```json" + "";
  }

  // ----- the fenced body round trip -----

  /** A reply body: an object written between braces. */
  predicate Braced(b: string) {
    |b| >= 2 && b[0] == '{' && b[|b| - 1] == '}'
  }

  /** A prefix made of `cs`, followed by nothing or by a character outside `cs`, is exactly what `lstrip` removes. */
  lemma {:induction false} LStripPrefix(p: string, s: string, cs: set<char>)
    requires AllIn(p, cs) && (s == [] || s[0] !in cs)
    ensures LStripSet(p + s, cs) == s
  {
    LeadingCountPrefix(p, s, cs);
    assert (p + s)[|p|..] == s;
  }

  lemma {:induction false} LeadingCountPrefix(p: string, s: string, cs: set<char>)
    requires AllIn(p, cs) && (s == [] || s[0] !in cs)
    ensures LeadingCount(p + s, cs) == |p|
  {
    if p != [] {
      assert (p + s)[0] == p[0];
      assert (p + s)[1..] == p[1..] + s;
      LeadingCountPrefix(p[1..], s, cs);
    } else {
      assert p + s == s;
    }
  }

  /** A suffix made of `cs`, preceded by nothing or by a character outside `cs`, is exactly what `rstrip` removes. */
  lemma {:induction false} RStripSuffix(s: string, p: string, cs: set<char>)
    requires AllIn(p, cs) && (s == [] || s[|s| - 1] !in cs)
    ensures RStripSet(s + p, cs) == s
  {
    TrailingCountSuffix(s, p, cs);
    assert (s + p)[..|s|] == s;
  }

  lemma {:induction false} TrailingCountSuffix(s: string, p: string, cs: set<char>)
    requires AllIn(p, cs) && (s == [] || s[|s| - 1] !in cs)
    ensures TrailingCount(s + p, cs) == |p|
  {
    if p != [] {
      var q := p[..|p| - 1];
      assert (s + p)[|s + p| - 1] == p[|p| - 1];
      assert (s + p)[..|s + p| - 1] == s + q;
      TrailingCountSuffix(s, q, cs);
    } else {
      assert s + p == s;
    }
  }

  /** No white-space character is a fence character. */
  lemma FenceCharsAreNotSpace()
    ensures forall c :: c in JsonFenceChars ==> c !in PySpaceChars
    ensures '`' !in PySpaceChars && '{' !in PySpaceChars && '}' !in PySpaceChars
    ensures '{' !in JsonFenceChars && '}' !in Backtick
  {
  }

  /** The cleaning chain, step by step. */
  lemma CleanChain(raw: string, c: string, d: string, e: string)
    requires Strip(raw) == raw && LStripSet(raw, JsonFenceChars) == c
    requires RStripSet(c, Backtick) == d && Strip(d) == e
    ensures CleanReply(raw) == e
  {
  }

  /** The first character of a non-empty concatenation. */
  lemma FirstOfConcat(x: string, y: string)
    requires x + y != []
    ensures (x + y)[0] == if x == [] then y[0] else x[0]
  {
  }

  /** The last character of a non-empty concatenation. */
  lemma LastOfConcat(x: string, y: string)
    requires x + y != []
    ensures (x + y)[|x + y| - 1] == if y == [] then x[|x| - 1] else y[|y| - 1]
  {
  }

  /** A braced body padded with white space strips back to the body. */
  lemma StripPadded(w1: string, b: string, w2: string)
    requires AllIn(w1, PySpaceChars) && Braced(b) && AllIn(w2, PySpaceChars)
    ensures Strip(w1 + (b + w2)) == b
  {
    FenceCharsAreNotSpace();
    FirstOfConcat(b, w2);
    LStripPrefix(w1, b + w2, PySpaceChars);
    RStripSuffix(b, w2, PySpaceChars);
  }

  /** White space, a braced body, white space: starts outside the fence set and ends outside the backtick set. */
  lemma PaddedEnds(w1: string, b: string, w2: string)
    requires AllIn(w1, PySpaceChars) && Braced(b) && AllIn(w2, PySpaceChars)
    ensures w1 + (b + w2) != []
    ensures (w1 + (b + w2))[0] !in JsonFenceChars
    ensures (w1 + (b + w2))[|w1 + (b + w2)| - 1] !in Backtick
  {
    FenceCharsAreNotSpace();
    FirstOfConcat(b, w2);
    FirstOfConcat(w1, b + w2);
    LastOfConcat(b, w2);
    LastOfConcat(w1, b + w2);
  }

  /** Fence characters in front of a text ending in backticks: `strip()` changes nothing. */
  lemma FencedStripUnchanged(f: string, inner: string, k: string)
    requires f != [] && AllIn(f, JsonFenceChars) && k != [] && AllIn(k, Backtick)
    ensures Strip(f + (inner + k)) == f + (inner + k)
  {
    FenceCharsAreNotSpace();
    FirstOfConcat(f, inner + k);
    LastOfConcat(inner, k);
    LastOfConcat(f, inner + k);
    StripUnchanged(f + (inner + k));
  }

  /** `lstrip("```json")` removes the fence characters and `rstrip("`")` the closing backticks, and no more. */
  lemma FenceStepsPeel(f: string, inner: string, k: string)
    requires AllIn(f, JsonFenceChars) && AllIn(k, Backtick)
    requires inner != [] && inner[0] !in JsonFenceChars && inner[|inner| - 1] !in Backtick
    ensures LStripSet(f + (inner + k), JsonFenceChars) == inner + k
    ensures RStripSet(inner + k, Backtick) == inner
  {
    FirstOfConcat(inner, k);
    LStripPrefix(f, inner + k, JsonFenceChars);
    RStripSuffix(inner, k, Backtick);
  }

  /**
    A reply shaped as fence characters (not starting with white space), white
    space, a braced body, white space, and closing backticks cleans to the body.
  */
  lemma CleanShapedReply(f: string, w1: string, b: string, w2: string, k: string)
    requires f != [] && AllIn(f, JsonFenceChars) && AllIn(w1, PySpaceChars)
    requires Braced(b) && AllIn(w2, PySpaceChars) && k != [] && AllIn(k, Backtick)
    ensures CleanReply(f + ((w1 + (b + w2)) + k)) == b
  {
    var inner := w1 + (b + w2);
    PaddedEnds(w1, b, w2);
    FencedStripUnchanged(f, inner, k);
    FenceStepsPeel(f, inner, k);
    StripPadded(w1, b, w2);
    CleanChain(f + (inner + k), inner + k, inner, b);
  }

  /** A string not starting with a character of `cs` is left alone by `lstrip`. */
  lemma LStripKeeps(s: string, cs: set<char>)
    requires s != [] && s[0] !in cs
    ensures LStripSet(s, cs) == s
  {
  }

  /** A string not ending with a character of `cs` is left alone by `rstrip`. */
  lemma RStripKeeps(s: string, cs: set<char>)
    requires s != [] && s[|s| - 1] !in cs
    ensures RStripSet(s, cs) == s
  {
  }

  /** A string not starting or ending with white space is left alone by `strip()`. */
  lemma StripUnchanged(s: string)
    requires s != [] && s[0] !in PySpaceChars && s[|s| - 1] !in PySpaceChars
    ensures Strip(s) == s
  {
    LStripKeeps(s, PySpaceChars);
    RStripKeeps(s, PySpaceChars);
  }

  /** A braced body comes through cleaning unchanged. */
  lemma CleanBareBody(b: string)
    requires Braced(b)
    ensures CleanReply(b) == b
  {
    FenceCharsAreNotSpace();
    StripUnchanged(b);
    LStripKeeps(b, JsonFenceChars);
    RStripKeeps(b, Backtick);
    CleanChain(b, b, b, b);
  }

  /** The characters of the fence lines belong to the sets the cleaning strips. */
  lemma FenceLiterals()
    ensures AllIn("```json", JsonFenceChars) && AllIn("\n", PySpaceChars) && AllIn("```", Backtick)
  {
  }

  /** The fenced layout, regrouped as fence, padded body and closing backticks. */
  lemma FencedLayout(b: string)
    ensures "```json\n" + b + "\n```" == "```json" + (("\n" + (b + "\n")) + "```")
  {
  }

  /** A braced body inside a "```json" fence, on lines of its own, comes out of cleaning as the body alone. */
  lemma CleanFencedBody(b: string)
    requires Braced(b)
    ensures CleanReply("```json\n" + b + "\n```") == b
  {
    FenceLiterals();
    CleanShapedReply("```json", "\n", b, "\n", "```");
    FencedLayout(b);
  }
}
