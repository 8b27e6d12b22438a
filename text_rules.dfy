/** The string rewrites the builder performs with regular expressions:
    `offset_col`, the sanitised `for` id of a multiple checkbox's label,
    `control_specific_class`, and `String#strip`. Ruby's `\w`, `\d` and `\s`
    are the ASCII classes. */
module TextRules {

  predicate IsDigit(c: char) { '0' <= c <= '9' }

  predicate IsLower(c: char) { 'a' <= c <= 'z' }

  predicate IsUpper(c: char) { 'A' <= c <= 'Z' }

  /** Ruby's `\w`: `[a-zA-Z0-9_]`. */
  predicate IsWordChar(c: char) { IsLower(c) || IsUpper(c) || IsDigit(c) || c == '_' }

  /** Ruby's `\s`: `[ \t\r\n\f\v]`. */
  predicate IsSpace(c: char) {
    c == ' ' || c == '\t' || c == '\r' || c == '\n' || c == '\U{000C}' || c == '\U{000B}'
  }

  // ---------------------------------------------------------------------------
  // offset_col: label_col.sub(/^col-(\w+)-(\d)$/, 'offset-\1-\2')
  // ---------------------------------------------------------------------------

  /** A line the pattern `col-(\w+)-(\d)` matches in full. */
  predicate IsColClass(line: string) {
    && |line| >= 7
    && line[..4] == "col-"
    && line[|line| - 2] == '-'
    && IsDigit(line[|line| - 1])
    && forall i :: 4 <= i < |line| - 2 ==> IsWordChar(line[i])
  }

  /** The replacement `offset-\1-\2` for a matching line. */
  function OffsetOf(line: string): (r: string)
    requires IsColClass(line)
    ensures |r| == |line| + 3
    ensures r[..7] == "offset-" && r[7..] == line[4..]
  {
    "offset-" + line[4..]
  }

  function IndexOfNewline(s: string): (k: nat)
    requires '\n' in s
    ensures k < |s| && s[k] == '\n' && '\n' !in s[..k]
  {
    if s[0] == '\n' then 0 else 1 + IndexOfNewline(s[1..])
  }

  /** `offset_col`. With `^` and `$` anchored at line boundaries, `sub`
      rewrites the first line of the string that is a whole column class and
      leaves every other character alone. */
  function OffsetCol(s: string): (r: string)
    ensures '\n' !in s && IsColClass(s) ==> r == OffsetOf(s)
    ensures '\n' !in s && !IsColClass(s) ==> r == s
    ensures |r| == |s| || |r| == |s| + 3
    decreases |s|
  {
    if '\n' !in s then
      if IsColClass(s) then OffsetOf(s) else s
    else
      var k := IndexOfNewline(s);
      if IsColClass(s[..k]) then OffsetOf(s[..k]) + s[k..]
      else s[..k + 1] + OffsetCol(s[k + 1..])
  }

  /** An offset class never looks like a column class again. */
  lemma OffsetIsNotColClass(line: string)
    requires IsColClass(line)
    ensures !IsColClass(OffsetOf(line))
  {
    assert OffsetOf(line)[..4] == "offs";
  }

  /** On a one-line class `offset_col` is idempotent, and a rewritten class
      turns back into the original one when "offset-" is replaced by "col-". */
  lemma OffsetColRoundTrip(s: string)
    requires '\n' !in s
    ensures OffsetCol(OffsetCol(s)) == OffsetCol(s)
    ensures OffsetCol(s) != s <==> IsColClass(s)
    ensures IsColClass(s) ==> "col-" + OffsetCol(s)[7..] == s
  {
    if IsColClass(s) {
      var r := OffsetOf(s);
      OffsetIsNotColClass(s);
      assert '\n' !in r by {
        forall i | 0 <= i < |r| ensures r[i] != '\n' {
          if i >= 7 { assert r[i] == s[i - 3]; }
        }
      }
      assert OffsetCol(r) == r;
      assert r != s by { assert |r| == |s| + 3; }
      assert "col-" + r[7..] == s by { assert "col-" + s[4..] == s; }
    }
  }

  /** The builder's default label column "col-sm-2" becomes "offset-sm-2";
      a two-digit column such as "col-sm-10" is left as it is. */
  lemma OffsetColExamples()
    ensures OffsetCol("col-sm-2") == "offset-sm-2"
    ensures OffsetCol("col-sm-10") == "col-sm-10"
  {
    assert IsColClass("col-sm-2");
    assert "col-sm-10"[7] != '-';
  }

  // ---------------------------------------------------------------------------
  // The label `for` id of a multiple checkbox:
  //   checked_value.to_s.gsub(/\s/, "_").gsub(/[^-\w]/, "").downcase
  // ---------------------------------------------------------------------------

  /** A character that can appear in the sanitised suffix. */
  predicate IsIdChar(c: char) { IsLower(c) || IsDigit(c) || c == '_' || c == '-' }

  function Downcase(c: char): char {
    if IsUpper(c) then (c as int + 32) as char else c
  }

  /** What one input character becomes: white space "_", a word character or
      hyphen itself lower-cased, anything else nothing. */
  function SuffixOf(c: char): string {
    if IsSpace(c) then "_"
    else if IsWordChar(c) || c == '-' then [Downcase(c)]
    else ""
  }

  /** The rewrite of `checked_value.to_s` that makes the label's `for`
      attribute match the id Rails gives the checkbox. */
  function LabelIdSuffix(s: string): (r: string)
    ensures |r| <= |s|
    ensures forall i :: 0 <= i < |r| ==> IsIdChar(r[i])
  {
    if s == [] then "" else SuffixOf(s[0]) + LabelIdSuffix(s[1..])
  }

  /** Characters that are already lower-case word characters or hyphens
      pass through unchanged. */
  lemma {:induction false} LabelIdSuffixKeepsIdChars(s: string)
    requires forall i :: 0 <= i < |s| ==> IsIdChar(s[i])
    ensures LabelIdSuffix(s) == s
  {
    if s != [] {
      LabelIdSuffixKeepsIdChars(s[1..]);
    }
  }

  /** Sanitising an id twice changes nothing. */
  lemma LabelIdSuffixIdempotent(s: string)
    ensures LabelIdSuffix(LabelIdSuffix(s)) == LabelIdSuffix(s)
  {
    LabelIdSuffixKeepsIdChars(LabelIdSuffix(s));
  }

  /** The rewrite works character by character, so it distributes over
      concatenation. */
  lemma {:induction false} LabelIdSuffixAppend(a: string, b: string)
    ensures LabelIdSuffix(a + b) == LabelIdSuffix(a) + LabelIdSuffix(b)
  {
    if a == [] {
      assert a + b == b;
    } else {
      var c, rest := a[0], a[1..];
      assert a == [c] + rest;
      assert a + b == [c] + (rest + b);
      LabelIdSuffixCons(c, rest + b);
      LabelIdSuffixCons(c, rest);
      LabelIdSuffixAppend(rest, b);
      var head, x, y := SuffixOf(c), LabelIdSuffix(rest), LabelIdSuffix(b);
      assert head + (x + y) == (head + x) + y;
    }
  }

  lemma LabelIdSuffixCons(c: char, s: string)
    ensures LabelIdSuffix([c] + s) == SuffixOf(c) + LabelIdSuffix(s)
  {
    assert ([c] + s)[0] == c && ([c] + s)[1..] == s;
  }

  lemma LabelIdSuffixExample()
    ensures LabelIdSuffix("Foo Bar!") == "foo_bar"
  {
    assert LabelIdSuffix("Foo") == "foo" by {
      assert "Foo" == "F" + "oo";
    }
    assert LabelIdSuffix(" Bar!") == "_bar" by {
      assert " Bar!" == " " + "Bar!";
    }
    assert "Foo Bar!" == "Foo" + " Bar!";
    LabelIdSuffixAppend("Foo", " Bar!");
    assert "foo" + "_bar" == "foo_bar";
  }

  // ---------------------------------------------------------------------------
  // control_specific_class(helper): "rails-bootstrap-forms-" + helper.gsub(/_/, "-")
  // ---------------------------------------------------------------------------

  const ControlClassPrefix := "rails-bootstrap-forms-"

  function ControlSpecificClass(helper: string): (r: string)
    ensures |r| == |ControlClassPrefix| + |helper|
    ensures r[..|ControlClassPrefix|] == ControlClassPrefix
    ensures '_' !in r[|ControlClassPrefix|..]
    ensures forall i :: 0 <= i < |helper| ==> r[|ControlClassPrefix| + i] == (if helper[i] == '_' then '-' else helper[i])
  {
    var dashed := seq(|helper|, i requires 0 <= i < |helper| => if helper[i] == '_' then '-' else helper[i]);
    ControlClassPrefix + dashed
  }

  // ---------------------------------------------------------------------------
  // String#strip
  // ---------------------------------------------------------------------------

  /** White space and NUL, the characters `strip` removes. */
  predicate IsStripChar(c: char) { IsSpace(c) || c == '\0' }

  function Strip(s: string): (r: string)
    ensures |r| <= |s|
    ensures r != [] ==> !IsStripChar(r[0]) && !IsStripChar(r[|r| - 1])
    ensures s != [] && !IsStripChar(s[0]) && !IsStripChar(s[|s| - 1]) ==> r == s
    decreases |s|
  {
    if s == [] then s
    else if IsStripChar(s[0]) then Strip(s[1..])
    else if IsStripChar(s[|s| - 1]) then Strip(s[..|s| - 1])
    else s
  }

  /** Every character of `s` is one `strip` removes. */
  predicate AllStrip(s: string) {
    forall k :: 0 <= k < |s| ==> IsStripChar(s[k])
  }

  /** `r` is `s[i..j]`, and only strip characters lie outside that slice. */
  predicate TrimmedSlice(s: string, r: string, i: int, j: int) {
    0 <= i <= j <= |s| && r == s[i..j] && AllStrip(s[..i]) && AllStrip(s[j..])
  }

  /** A slice of `s[1..]` is a slice of `s`, with one more strip character
      before it. */
  lemma TrimmedAfterFirst(s: string, r: string, i: int, j: int)
    requires s != [] && IsStripChar(s[0]) && TrimmedSlice(s[1..], r, i, j)
    ensures TrimmedSlice(s, r, i + 1, j + 1)
  {
    var t := s[1..];
    assert s[i + 1..j + 1] == t[i..j];
    assert s[..i + 1] == [s[0]] + t[..i];
    assert s[j + 1..] == t[j..];
  }

  /** A slice of `s` without its last character is a slice of `s`, with one
      more strip character after it. */
  lemma TrimmedBeforeLast(s: string, r: string, i: int, j: int)
    requires s != [] && IsStripChar(s[|s| - 1]) && TrimmedSlice(s[..|s| - 1], r, i, j)
    ensures TrimmedSlice(s, r, i, j)
  {
    var t := s[..|s| - 1];
    assert s[i..j] == t[i..j];
    assert s[..i] == t[..i];
    assert s[j..] == t[j..] + [s[|s| - 1]];
  }

  /** `strip` removes only leading and trailing strip characters: the result
      is a slice of the input with nothing but strip characters around it. */
  lemma {:induction false} StripTrimsEnds(s: string)
    ensures exists i, j :: TrimmedSlice(s, Strip(s), i, j)
    decreases |s|
  {
    if s == [] {
      assert TrimmedSlice(s, Strip(s), 0, 0);
    } else if IsStripChar(s[0]) {
      StripTrimsEnds(s[1..]);
      var i, j :| TrimmedSlice(s[1..], Strip(s[1..]), i, j);
      TrimmedAfterFirst(s, Strip(s), i, j);
    } else if IsStripChar(s[|s| - 1]) {
      StripTrimsEnds(s[..|s| - 1]);
      var i, j :| TrimmedSlice(s[..|s| - 1], Strip(s[..|s| - 1]), i, j);
      TrimmedBeforeLast(s, Strip(s), i, j);
    } else {
      assert s[0..|s|] == s && s[..0] == [] && s[|s|..] == [];
      assert TrimmedSlice(s, Strip(s), 0, |s|);
    }
  }
}
