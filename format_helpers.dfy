/** Display formatting of feature-property keys and values
    (src/utils/formatHelpers.ts). */
module FormatHelpers {
  import opened Wrappers
  import opened JsText
  import opened Types

  /** The technical property keys never shown to users. */
  const ExcludedKeys: seq<string> := [
    "Season", "OBJECTID", "OBJECTID1", "FID", "id", "fid", "Id", "gridcode",
    "Shape_Length", "SHAPE_Length", "Shape_Area", "SHAPE_Area", "change_type"
  ]

  /** `isKeyExcluded`: exact, case-sensitive membership in the list. */
  predicate IsKeyExcluded(key: string) {
    key in ExcludedKeys
  }

  /** The list holds thirteen distinct keys. */
  lemma ExcludedKeysDistinct()
    ensures |ExcludedKeys| == 13
    ensures forall i, j :: 0 <= i < j < |ExcludedKeys| ==> ExcludedKeys[i] != ExcludedKeys[j]
  {
  }

  /** Matching is case-sensitive: "Id" and "id" are excluded, "ID" is not. */
  lemma ExclusionIsCaseSensitive()
    ensures IsKeyExcluded("Id") && IsKeyExcluded("id") && !IsKeyExcluded("ID")
    ensures IsKeyExcluded("OBJECTID") && !IsKeyExcluded("Season ")
  {
  }

  // ---------------------------------------------------------------------------
  // character classes of the regular expressions

  predicate IsUpper(c: char) { 'A' <= c <= 'Z' }

  predicate IsLower(c: char) { 'a' <= c <= 'z' }

  /** `\w` without the `u` flag. */
  predicate IsWordChar(c: char) { IsUpper(c) || IsLower(c) || IsDigit(c) || c == '_' }

  /** `toUpperCase` on a character `\w` can match. */
  function ToUpper(c: char): (u: char)
    ensures IsWordChar(u) <==> IsWordChar(c)
    ensures !IsLower(u)
    ensures !IsLower(c) ==> u == c
  {
    if IsLower(c) then (c as int - 32) as char else c
  }

  // ---------------------------------------------------------------------------
  // the rewrite steps of formatKey

  /** `.replace(/([A-Z])/g, " $1")`: a space before every capital. */
  function SpaceBeforeCapitals(s: string): string {
    if s == [] then []
    else (if IsUpper(s[0]) then [' ', s[0]] else [s[0]]) + SpaceBeforeCapitals(s[1..])
  }

  /** `.replace(/x/g, y)` for single characters. */
  function ReplaceChar(s: string, from: char, to: char): string {
    seq(|s|, i requires 0 <= i < |s| => if s[i] == from then to else s[i])
  }

  /** Whether position `i` of `s` starts a maximal run of word characters (`\b\w`). */
  predicate StartsWord(s: string, i: int)
    requires 0 <= i < |s|
  {
    IsWordChar(s[i]) && (i == 0 || !IsWordChar(s[i - 1]))
  }

  /** `.replace(/\b\w/g, (char) => char.toUpperCase())`. */
  function CapitalizeWords(s: string): string {
    seq(|s|, i requires 0 <= i < |s| => if StartsWord(s, i) then ToUpper(s[i]) else s[i])
  }

  /** `s` with every occurrence of `c` removed. */
  function Without(s: string, c: char): string {
    if s == [] then [] else (if s[0] == c then [] else [s[0]]) + Without(s[1..], c)
  }

  /** The keys that `formatKey` maps to fixed labels. */
  predicate IsSpecialKey(key: string) {
    key in ["Ha", "ha", "area_ha", "Area", "ha_change"]
  }

  /** The general rewrite, before trimming. */
  function RewriteKey(key: string): string {
    CapitalizeWords(ReplaceChar(ReplaceChar(SpaceBeforeCapitals(key), '_', ' '), '-', ' '))
  }

  /** `formatKey`. */
  function FormatKey(key: string): string {
    if key in ["Ha", "ha", "area_ha", "Area"] then "Area (Ha)"
    else if key == "ha_change" then "Area of change (Ha)"
    else Trim(RewriteKey(key))
  }

  // ---------------------------------------------------------------------------
  // properties of formatKey

  /** The area keys bypass the general rewrite. */
  lemma FormatKeySpecialCases()
    ensures FormatKey("Ha") == "Area (Ha)" && FormatKey("ha") == "Area (Ha)"
    ensures FormatKey("area_ha") == "Area (Ha)" && FormatKey("Area") == "Area (Ha)"
    ensures FormatKey("ha_change") == "Area of change (Ha)"
  {
  }

  /** Every capital letter of `r` stands right after a space. */
  predicate CapitalsSpaced(r: string) {
    forall j :: 0 <= j < |r| && IsUpper(r[j]) ==> j > 0 && r[j - 1] == ' '
  }

  /** After the first step every capital letter stands right after a space. */
  lemma {:induction false} CapitalsFollowSpace(s: string)
    ensures CapitalsSpaced(SpaceBeforeCapitals(s))
  {
    if s != [] {
      var head := if IsUpper(s[0]) then [' ', s[0]] else [s[0]];
      var rest := SpaceBeforeCapitals(s[1..]);
      var r := head + rest;
      CapitalsFollowSpace(s[1..]);
      forall j | 0 <= j < |r| && IsUpper(r[j])
        ensures j > 0 && r[j - 1] == ' '
      {
        if j >= |head| {
          var k := j - |head|;
          assert r[j] == rest[k];
          assert r[j - 1] == rest[k - 1];
        } else {
          assert r[j] == head[j];
          assert j > 0 ==> r[j - 1] == head[j - 1];
        }
      }
    }
  }

  /** The first step only inserts spaces: without spaces, the text is unchanged. */
  lemma {:induction false} SpaceBeforeCapitalsOnlyAddsSpaces(s: string)
    ensures Without(SpaceBeforeCapitals(s), ' ') == Without(s, ' ')
  {
    if s != [] {
      var head := if IsUpper(s[0]) then [' ', s[0]] else [s[0]];
      WithoutAppend(head, SpaceBeforeCapitals(s[1..]), ' ');
      SpaceBeforeCapitalsOnlyAddsSpaces(s[1..]);
      if IsUpper(s[0]) {
        assert head[1..] == [s[0]];
      }
    }
  }

  lemma {:induction false} WithoutAppend(a: string, b: string, c: char)
    ensures Without(a + b, c) == Without(a, c) + Without(b, c)
  {
    if a != [] {
      WithoutAppend(a[1..], b, c);
      assert (a + b)[1..] == a[1..] + b;
    } else {
      assert a + b == b;
    }
  }

  /** The general rewrite leaves no underscore and no dash. */
  lemma RewriteKeyNoSeparators(key: string)
    ensures '_' !in RewriteKey(key) && '-' !in RewriteKey(key)
  {
    var a := ReplaceChar(ReplaceChar(SpaceBeforeCapitals(key), '_', ' '), '-', ' ');
    var r := CapitalizeWords(a);
    assert forall i :: 0 <= i < |a| ==> a[i] != '_' && a[i] != '-';
    forall i | 0 <= i < |r|
      ensures r[i] != '_' && r[i] != '-'
    {
      assert r[i] == a[i] || r[i] == ToUpper(a[i]);
    }
  }

  /** Every character `formatKey` emits for a general key comes from the
      rewrite, so none is an underscore or a dash. */
  lemma FormatKeyNoSeparators(key: string)
    requires !IsSpecialKey(key)
    ensures '_' !in FormatKey(key) && '-' !in FormatKey(key)
  {
    var r := RewriteKey(key);
    RewriteKeyNoSeparators(key);
    var a := LeadingSpace(r);
    assert FormatKey(key) == r[a..a + |FormatKey(key)|];
  }

  /** A general key's label has no whitespace at either end. */
  lemma FormatKeyTrimmed(key: string)
    requires !IsSpecialKey(key)
    ensures var r := FormatKey(key);
      r != [] ==> !IsWhitespace(r[0]) && !IsWhitespace(r[|r| - 1])
  {
  }

  /** The rewrite upper-cases the first character of every word. */
  lemma CapitalizeWordsStarts(s: string)
    ensures var r := CapitalizeWords(s);
      |r| == |s| && forall i :: 0 <= i < |r| && StartsWord(r, i) ==> !IsLower(r[i])
  {
    var r := CapitalizeWords(s);
    forall i | 0 <= i < |r| && StartsWord(r, i)
      ensures !IsLower(r[i])
    {
      assert IsWordChar(s[i]);
      if i > 0 {
        assert IsWordChar(r[i - 1]) <==> IsWordChar(s[i - 1]);
      }
    }
  }

  /** No word of `s` starts with a lowercase letter. */
  predicate WordsCapitalized(s: string) {
    forall i :: 0 <= i < |s| && StartsWord(s, i) ==> !IsLower(s[i])
  }

  lemma WhitespaceIsNoWordChar(c: char)
    requires IsWhitespace(c)
    ensures !IsWordChar(c)
  {
  }

  /** A word start of a slice not preceded by a word character is a word
      start of the whole text. */
  lemma SliceWordStart(w: string, a: nat, r: string, i: int)
    requires a + |r| <= |w| && r == w[a..a + |r|]
    requires a > 0 ==> !IsWordChar(w[a - 1])
    requires 0 <= i < |r| && StartsWord(r, i)
    ensures r[i] == w[a + i] && StartsWord(w, a + i)
  {
    if i > 0 {
      assert r[i - 1] == w[a + i - 1];
    }
  }

  /** Trimming whitespace keeps every word start a word start. */
  lemma TrimKeepsWordsCapitalized(w: string)
    requires WordsCapitalized(w)
    ensures WordsCapitalized(Trim(w))
  {
    var r := Trim(w);
    var a := LeadingSpace(w);
    if a > 0 {
      WhitespaceIsNoWordChar(w[a - 1]);
    }
    forall i | 0 <= i < |r| && StartsWord(r, i)
      ensures !IsLower(r[i])
    {
      SliceWordStart(w, a, r, i);
    }
  }

  /** A key outside the special ones takes the general rewrite and the trim. */
  lemma GeneralKey(key: string)
    requires !IsSpecialKey(key)
    ensures FormatKey(key) == Trim(RewriteKey(key))
  {
  }

  /** No word of a general key's label starts with a lowercase letter. */
  lemma FormatKeyWordsCapitalized(key: string)
    requires !IsSpecialKey(key)
    ensures WordsCapitalized(FormatKey(key))
  {
    CapitalizeWordsStarts(ReplaceChar(ReplaceChar(SpaceBeforeCapitals(key), '_', ' '), '-', ' '));
    TrimKeepsWordsCapitalized(RewriteKey(key));
    GeneralKey(key);
  }

  predicate AllLower(s: string) {
    forall i :: 0 <= i < |s| ==> IsLower(s[i])
  }

  /** A word with its first letter upper-cased. */
  function Capitalized(w: string): string
    requires w != []
  {
    [ToUpper(w[0])] + w[1..]
  }

  lemma {:induction false} SpaceBeforeCapitalsAppend(a: string, b: string)
    ensures SpaceBeforeCapitals(a + b) == SpaceBeforeCapitals(a) + SpaceBeforeCapitals(b)
  {
    if a != [] {
      SpaceBeforeCapitalsAppend(a[1..], b);
      assert (a + b)[1..] == a[1..] + b;
    } else {
      assert a + b == b;
    }
  }

  /** Text without capitals passes the first step unchanged. */
  lemma {:induction false} SpaceBeforeCapitalsNone(s: string)
    requires forall i :: 0 <= i < |s| ==> !IsUpper(s[i])
    ensures SpaceBeforeCapitals(s) == s
  {
    if s != [] {
      SpaceBeforeCapitalsNone(s[1..]);
      assert [s[0]] + s[1..] == s;
    }
  }

  predicate AllWordChars(s: string) {
    forall i :: 0 <= i < |s| ==> IsWordChar(s[i])
  }

  /** Two words joined by a space come out with both initials upper-cased. */
  lemma CapitalizeTwoWords(a: string, b: string)
    requires a != [] && AllWordChars(a) && b != [] && AllWordChars(b)
    ensures CapitalizeWords(a + " " + b) == Capitalized(a) + " " + Capitalized(b)
  {
    var s := a + " " + b;
    var want := Capitalized(a) + " " + Capitalized(b);
    var w := CapitalizeWords(s);
    forall i | 0 <= i < |s|
      ensures w[i] == want[i]
    {
      if i == 0 {
        assert StartsWord(s, 0);
      } else if i < |a| {
        assert s[i - 1] == a[i - 1] && s[i] == a[i] == want[i];
      } else if i == |a| {
        assert s[i] == ' ' == want[i];
      } else if i == |a| + 1 {
        assert s[i] == b[0] && s[i - 1] == ' ';
        assert StartsWord(s, i);
      } else {
        var k := i - |a| - 1;
        assert s[i] == b[k] == want[i];
        assert s[i - 1] == b[k - 1];
      }
    }
    assert w == want;
  }

  /** Capitals appear in the special keys only as their first letter. */
  lemma SpecialKeysHaveNoInnerCapital(key: string)
    ensures IsSpecialKey(key) ==> forall i :: 1 <= i < |key| ==> !IsUpper(key[i])
  {
  }

  /** Text without `from` is left as it is by `ReplaceChar`. */
  lemma ReplaceAbsent(s: string, from: char, to: char)
    requires from !in s
    ensures ReplaceChar(s, from, to) == s
  {
    forall i | 0 <= i < |s|
      ensures ReplaceChar(s, from, to)[i] == s[i]
    {
      assert s[i] in s;
    }
  }

  /** The first step on a two-word camelCase key. */
  lemma SpaceBeforeCamelCase(a: string, c: char, b: string)
    requires AllLower(a) && IsUpper(c) && AllLower(b)
    ensures SpaceBeforeCapitals(a + [c] + b) == a + " " + ([c] + b)
  {
    SpaceBeforeCapitalsAppend(a + [c], b);
    SpaceBeforeCapitalsAppend(a, [c]);
    SpaceBeforeCapitalsNone(a);
    SpaceBeforeCapitalsNone(b);
    assert SpaceBeforeCapitals([c]) == [' ', c];
  }

  /** A key with a capital after its first letter takes the general rewrite. */
  lemma InnerCapitalIsGeneral(key: string, i: int)
    requires 1 <= i < |key| && IsUpper(key[i])
    ensures FormatKey(key) == Trim(RewriteKey(key))
  {
    SpecialKeysHaveNoInnerCapital(key);
  }

  /** The rewrite of a two-word camelCase key. */
  lemma RewriteCamelCase(a: string, c: char, b: string)
    requires a != [] && AllLower(a) && IsUpper(c) && AllLower(b)
    ensures RewriteKey(a + [c] + b) == Capitalized(a) + " " + ([c] + b)
  {
    var cb := [c] + b;
    var s1 := a + " " + cb;
    SpaceBeforeCamelCase(a, c, b);
    assert forall i :: 0 <= i < |s1| ==> IsWordChar(s1[i]) || s1[i] == ' ';
    ReplaceAbsent(s1, '_', ' ');
    ReplaceAbsent(s1, '-', ' ');
    CapitalizeTwoWords(a, cb);
    assert Capitalized(cb) == cb;
  }

  /** Two-word camelCase: `formatKey("carbonLoss")` is "Carbon Loss"
      (a = "carbon", c = 'L', b = "oss"). */
  lemma FormatKeyCamelCase(a: string, c: char, b: string)
    requires a != [] && AllLower(a) && IsUpper(c) && AllLower(b)
    ensures FormatKey(a + [c] + b) == Capitalized(a) + " " + [c] + b
  {
    var key := a + [c] + b;
    assert key[|a|] == c;
    InnerCapitalIsGeneral(key, |a|);
    RewriteCamelCase(a, c, b);
    var text := Capitalized(a) + " " + ([c] + b);
    TrimTrimmed(text);
    assert text == Capitalized(a) + " " + [c] + b;
  }

  /** The rewrite of a two-word snake_case key. */
  lemma RewriteSnakeCase(a: string, b: string)
    requires a != [] && AllLower(a) && b != [] && AllLower(b)
    ensures RewriteKey(a + "_" + b) == Capitalized(a) + " " + Capitalized(b)
  {
    var key := a + "_" + b;
    SpaceBeforeCapitalsNone(key);
    var s1 := a + " " + b;
    assert ReplaceChar(key, '_', ' ') == s1;
    ReplaceAbsent(s1, '-', ' ');
    CapitalizeTwoWords(a, b);
  }

  /** Two-word snake_case: `formatKey("flood_signal")` is "Flood Signal"
      (a = "flood", b = "signal"); the two special snake_case keys are excepted. */
  lemma FormatKeySnakeCase(a: string, b: string)
    requires a != [] && AllLower(a) && b != [] && AllLower(b)
    requires !IsSpecialKey(a + "_" + b)
    ensures FormatKey(a + "_" + b) == Capitalized(a) + " " + Capitalized(b)
  {
    RewriteSnakeCase(a, b);
    TrimTrimmed(Capitalized(a) + " " + Capitalized(b));
  }

  // ---------------------------------------------------------------------------
  // formatValue

  /** `formatValue` for every value but non-integral numbers and objects. */
  function FormatValue(v: PropertyValue): string {
    match v
    case Undefined => "N/A"
    case Null => "N/A"
    case Bool(b) => if b then "Yes" else "No"
    case Int(n) => IntToString(n)
    case Str(s) => s
  }

  /** Missing values read "N/A", booleans "Yes"/"No", strings pass through,
      and an integral number's text reads back as that number. */
  lemma FormatValueCases(v: PropertyValue)
    ensures v.Undefined? || v.Null? ==> FormatValue(v) == "N/A"
    ensures v.Bool? ==> FormatValue(v) == (if v.b then "Yes" else "No")
    ensures v.Str? ==> FormatValue(v) == v.s
    ensures v.Int? ==> ParseInteger(FormatValue(v)) == Some(v.n)
  {
    if v.Int? {
      ParseIntToString(v.n);
    }
  }
}
