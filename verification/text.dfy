/** The pieces of Python's string library that the two pages rely on:
    `str.isspace`, `str.lower`, `str.join`, `str.split(c)`, the `in` operator on
    strings, `str.strip`, `str.split()` and the substitution of one space for
    each run of whitespace, with the facts about them that the normaliser
    of the book page relies on. */
module Text {

  datatype Option<T> = None | Some(value: T)

  /** Python's `str.isspace()`; the same set of characters is what `\s`
      matches in a str pattern and what `str.strip()` removes. */
  predicate IsSpace(c: char) {
    || ('\t' <= c <= '\r')
    || ('\U{1C}' <= c <= '\U{1F}')
    || c == ' '
    || c == '\U{85}'
    || c == '\U{A0}'
    || c == '\U{1680}'
    || ('\U{2000}' <= c <= '\U{200A}')
    || c == '\U{2028}'
    || c == '\U{2029}'
    || c == '\U{202F}'
    || c == '\U{205F}'
    || c == '\U{3000}'
  }

  /** `str.lower()` on one character, for the ASCII letters. */
  function LowerChar(c: char): char {
    if 'A' <= c <= 'Z' then (c as int + 32) as char else c
  }

  function Lower(s: string): string {
    seq(|s|, i requires 0 <= i < |s| => LowerChar(s[i]))
  }

  lemma LowerCharFacts(c: char)
    ensures LowerChar(LowerChar(c)) == LowerChar(c)
    ensures IsSpace(LowerChar(c)) == IsSpace(c)
    ensures LowerChar(c) == ' ' <==> c == ' '
  {
  }

  /** `sep.join(parts)`. */
  function Join(sep: string, parts: seq<string>): string {
    if |parts| == 0 then ""
    else if |parts| == 1 then parts[0]
    else parts[0] + sep + Join(sep, parts[1..])
  }

  lemma JoinHead(sep: string, parts: seq<string>)
    requires parts != [] && parts[0] != []
    ensures Join(sep, parts) != [] && Join(sep, parts)[0] == parts[0][0]
  {
  }

  /** `s.split(c)` for a one-character separator: every occurrence of `c`
      ends a piece, so the result always has at least one piece. */
  function SplitOn(s: string, c: char): (r: seq<string>)
    ensures |r| >= 1
  {
    if s == [] then [""]
    else
      var rest := SplitOn(s[1..], c);
      if s[0] == c then [""] + rest
      else [[s[0]] + rest[0]] + rest[1..]
  }

  lemma {:induction false} SplitOnWithout(a: string, c: char)
    requires c !in a
    ensures SplitOn(a, c) == [a]
  {
    if a != [] {
      SplitOnWithout(a[1..], c);
      assert [a[0]] + a[1..] == a;
    }
  }

  lemma {:induction false} SplitOnFirst(a: string, b: string, c: char)
    requires c !in a
    ensures SplitOn(a + [c] + b, c) == [a] + SplitOn(b, c)
  {
    if a == [] {
      assert a + [c] + b == [c] + b;
      assert ([c] + b)[1..] == b;
    } else {
      SplitOnFirst(a[1..], b, c);
      assert (a + [c] + b)[1..] == a[1..] + [c] + b;
      assert [a[0]] + a[1..] == a;
    }
  }

  /** Splitting a joined text at the separator gives back the pieces, as
      long as no piece contains the separator itself. */
  lemma {:induction false} SplitJoin(parts: seq<string>, c: char)
    requires |parts| >= 1
    requires forall i :: 0 <= i < |parts| ==> c !in parts[i]
    ensures SplitOn(Join([c], parts), c) == parts
  {
    if |parts| == 1 {
      SplitOnWithout(parts[0], c);
    } else {
      SplitJoin(parts[1..], c);
      SplitOnFirst(parts[0], Join([c], parts[1..]), c);
      assert [parts[0]] + parts[1..] == parts;
    }
  }

  /** `pat in text`: `pat` occurs as a contiguous piece of `text`. */
  predicate Contains(text: string, pat: string)
    decreases |text|
  {
    pat <= text || (text != [] && Contains(text[1..], pat))
  }

  // ---------- str.strip and whitespace collapsing ----------

  /** `s.lstrip()`: drops the leading whitespace. */
  function TrimStart(s: string): (r: string)
    ensures |r| <= |s| && r == s[|s| - |r|..]
    ensures r == [] || !IsSpace(r[0])
    ensures forall i :: 0 <= i < |s| - |r| ==> IsSpace(s[i])
  {
    if s != [] && IsSpace(s[0]) then TrimStart(s[1..]) else s
  }

  /** `s.rstrip()`: drops the trailing whitespace. */
  function TrimEnd(s: string): (r: string)
    ensures |r| <= |s| && r == s[..|r|]
    ensures r == [] || !IsSpace(r[|r| - 1])
    ensures forall i :: |r| <= i < |s| ==> IsSpace(s[i])
  {
    if s != [] && IsSpace(s[|s| - 1]) then TrimEnd(s[..|s| - 1]) else s
  }

  function Strip(s: string): string {
    TrimEnd(TrimStart(s))
  }

  /** The regular-expression substitution of whitespace runs: every maximal
      run of whitespace becomes one space. */
  function Collapse(s: string): string
    decreases |s|
  {
    if s == [] then []
    else if IsSpace(s[0]) then [' '] + Collapse(TrimStart(s[1..]))
    else [s[0]] + Collapse(s[1..])
  }

  /** A word of `str.split()`: a non-empty run of non-whitespace characters. */
  predicate IsWord(w: string) {
    w != [] && forall j :: 0 <= j < |w| ==> !IsSpace(w[j])
  }

  /** The length of the run of non-whitespace characters that starts `s`. */
  function WordLen(s: string): (k: nat)
    ensures k <= |s|
    ensures forall i :: 0 <= i < k ==> !IsSpace(s[i])
    ensures k == |s| || IsSpace(s[k])
    ensures s != [] && !IsSpace(s[0]) ==> k >= 1
  {
    if s == [] || IsSpace(s[0]) then 0 else 1 + WordLen(s[1..])
  }

  /** `s.split()` with no separator: the maximal runs of non-whitespace
      characters, in order. */
  function Words(s: string): seq<string>
    decreases |s|
  {
    var t := TrimStart(s);
    if t == [] then []
    else
      var k := WordLen(t);
      [t[..k]] + Words(t[k..])
  }

  /** No piece of `s.split()` is empty or holds whitespace. */
  lemma {:induction false} WordsAreWords(s: string)
    ensures forall i :: 0 <= i < |Words(s)| ==> IsWord(Words(s)[i])
    decreases |s|
  {
    var t := TrimStart(s);
    if t != [] {
      var k := WordLen(t);
      var w := t[..k];
      assert IsWord(w) by {
        forall j | 0 <= j < k ensures !IsSpace(w[j]) {
          assert w[j] == t[j];
        }
      }
      WordsAreWords(t[k..]);
    }
  }

  /** The characters of `s` that are not whitespace, in order. */
  function NonSpace(s: string): string {
    if s == [] then []
    else (if IsSpace(s[0]) then [] else [s[0]]) + NonSpace(s[1..])
  }

  // ---------- facts about collapsing, stripping and lowering ----------

  /** Every whitespace character is a plain space, and none is followed by
      another whitespace character. */
  predicate SpacesCollapsed(s: string) {
    forall i :: 0 <= i < |s| && IsSpace(s[i]) ==> s[i] == ' ' && (i + 1 == |s| || !IsSpace(s[i + 1]))
  }

  predicate Trimmed(s: string) {
    s == [] || (!IsSpace(s[0]) && !IsSpace(s[|s| - 1]))
  }

  predicate LowerFixed(s: string) {
    forall i :: 0 <= i < |s| ==> LowerChar(s[i]) == s[i]
  }

  lemma {:induction false} NonSpaceAppend(a: string, b: string)
    ensures NonSpace(a + b) == NonSpace(a) + NonSpace(b)
  {
    if a != [] {
      assert (a + b)[0] == a[0];
      assert (a + b)[1..] == a[1..] + b;
      NonSpaceAppend(a[1..], b);
      var head := if IsSpace(a[0]) then [] else [a[0]];
      assert NonSpace(a + b) == head + NonSpace(a[1..] + b);
      assert NonSpace(a) == head + NonSpace(a[1..]);
    } else {
      assert a + b == b;
    }
  }

  lemma {:induction false} NonSpaceTrimStart(s: string)
    ensures NonSpace(TrimStart(s)) == NonSpace(s)
  {
    if s != [] && IsSpace(s[0]) {
      NonSpaceTrimStart(s[1..]);
    }
  }

  lemma {:induction false} NonSpaceTrimEnd(s: string)
    ensures NonSpace(TrimEnd(s)) == NonSpace(s)
  {
    if s != [] && IsSpace(s[|s| - 1]) {
      var init := s[..|s| - 1];
      NonSpaceTrimEnd(init);
      assert s == init + [s[|s| - 1]];
      NonSpaceAppend(init, [s[|s| - 1]]);
    }
  }

  lemma CollapseHead(s: string)
    requires s != []
    ensures Collapse(s) != [] && Collapse(s)[0] == (if IsSpace(s[0]) then ' ' else s[0])
  {
  }

  lemma {:induction false} CollapseCollapses(s: string)
    ensures SpacesCollapsed(Collapse(s))
    decreases |s|
  {
    if s != [] {
      if IsSpace(s[0]) {
        var t := TrimStart(s[1..]);
        CollapseCollapses(t);
        if t != [] {
          CollapseHead(t);
        }
        ConsCollapsed(' ', Collapse(t));
      } else {
        CollapseCollapses(s[1..]);
        ConsCollapsed(s[0], Collapse(s[1..]));
      }
    }
  }

  /** One character in front of a collapsed string keeps it collapsed, as
      long as a whitespace character is a space followed by no whitespace. */
  lemma ConsCollapsed(c: char, u: string)
    requires SpacesCollapsed(u) && (IsSpace(c) ==> c == ' ' && (u == [] || !IsSpace(u[0])))
    ensures SpacesCollapsed([c] + u)
  {
    forall i | 1 <= i < |u| + 1 ensures ([c] + u)[i] == u[i - 1] { }
  }

  lemma {:induction false} CollapseNonSpace(s: string)
    ensures NonSpace(Collapse(s)) == NonSpace(s)
    decreases |s|
  {
    if s != [] {
      if IsSpace(s[0]) {
        var t := TrimStart(s[1..]);
        CollapseNonSpace(t);
        NonSpaceTrimStart(s[1..]);
        var c := Collapse(t);
        assert ([' '] + c)[1..] == c;
      } else {
        CollapseNonSpace(s[1..]);
        var c := Collapse(s[1..]);
        assert ([s[0]] + c)[1..] == c;
      }
    }
  }

  lemma CollapseFacts(s: string)
    ensures SpacesCollapsed(Collapse(s))
    ensures NonSpace(Collapse(s)) == NonSpace(s)
  {
    CollapseCollapses(s);
    CollapseNonSpace(s);
  }

  /** Collapsing copies a leading word unchanged. */
  lemma {:induction false} CollapseWord(t: string)
    ensures Collapse(t) == t[..WordLen(t)] + Collapse(t[WordLen(t)..])
    decreases |t|
  {
    if t != [] && !IsSpace(t[0]) {
      var u := t[1..];
      var j := WordLen(u);
      CollapseWord(u);
      assert WordLen(t) == 1 + j;
      assert Collapse(t) == [t[0]] + Collapse(u);
      AppendAssoc([t[0]], u[..j], Collapse(u[j..]));
      assert t[..1 + j] == [t[0]] + u[..j];
      assert t[1 + j..] == u[j..];
    } else {
      assert WordLen(t) == 0;
      assert t[0..] == t;
    }
  }

  /** Dropping trailing whitespace only looks at the end of a string. */
  lemma {:induction false} TrimEndAppend(a: string, b: string)
    requires TrimEnd(b) != []
    ensures TrimEnd(a + b) == a + TrimEnd(b)
    decreases |b|
  {
    if IsSpace(b[|b| - 1]) {
      var init := b[..|b| - 1];
      assert (a + b)[..|a + b| - 1] == a + init;
      TrimEndAppend(a, init);
    }
  }

  /** A text starting with a word collapses to a text starting with it. */
  lemma CollapseStart(s: string)
    requires s == [] || !IsSpace(s[0])
    ensures TrimStart(Collapse(s)) == Collapse(s)
  {
    if s != [] {
      CollapseHead(s);
    }
  }

  /** Collapsing and then dropping the leading whitespace is dropping it
      first and then collapsing. */
  lemma StripCollapse(s: string)
    ensures TrimStart(Collapse(s)) == Collapse(TrimStart(s))
  {
    if s != [] && IsSpace(s[0]) {
      var t := TrimStart(s[1..]);
      CollapseStart(t);
      assert ([' '] + Collapse(t))[1..] == Collapse(t);
    } else {
      CollapseStart(s);
    }
  }

  /** A text that opens with a word: the word, then the rest, which is
      empty or opens with whitespace. */
  lemma LeadingWord(t: string)
    requires t != [] && !IsSpace(t[0])
    ensures var k := WordLen(t);
      && 1 <= k && !IsSpace(t[..k][k - 1])
      && Collapse(t) == t[..k] + Collapse(t[k..])
      && (t[k..] == [] || IsSpace(t[k..][0]))
  {
    CollapseWord(t);
  }

  /** A run of whitespace at the front collapses to one space. */
  lemma LeadingSpace(r: string)
    requires r != [] && IsSpace(r[0])
    ensures Collapse(r) == [' '] + Collapse(TrimStart(r))
  {
  }

  lemma TrimEndWord(w: string)
    requires w != [] && !IsSpace(w[|w| - 1])
    ensures TrimEnd(w) == w && TrimEnd(w + [' ']) == w
  {
    assert (w + [' '])[..|w|] == w;
  }

  lemma AppendAssoc(a: string, b: string, c: string)
    ensures a + (b + c) == a + b + c
  {
  }

  /** One more word in front of a text whose end is trimmed to the join of
      `rest`. */
  lemma JoinStep(w: string, c: string, rest: seq<string>)
    requires rest != [] && rest[0] != [] && TrimEnd(c) == Join(" ", rest)
    ensures TrimEnd(w + [' '] + c) == Join(" ", [w] + rest)
  {
    JoinHead(" ", rest);
    TrimEndAppend(w + [' '], c);
    assert ([w] + rest)[1..] == rest;
  }

  /** Collapsing whitespace and stripping the ends joins the words of the
      text with single spaces. */
  lemma {:induction false} CollapseWords(s: string)
    ensures TrimEnd(Collapse(TrimStart(s))) == Join(" ", Words(s))
    decreases |s|
  {
    var t := TrimStart(s);
    if t == [] {
      assert Words(s) == [];
    } else {
      var k := WordLen(t);
      var w, r := t[..k], t[k..];
      LeadingWord(t);
      TrimEndWord(w);
      assert Words(s) == [w] + Words(r);
      if TrimStart(r) == [] {
        assert Words(r) == [];
        assert Join(" ", Words(s)) == w;
        if r != [] {
          LeadingSpace(r);
          assert Collapse(r) == [' '];
        } else {
          assert Collapse(t) == w + [];
        }
      } else {
        var c := Collapse(TrimStart(r));
        CollapseWords(r);
        WordsAreWords(r);
        LeadingSpace(r);
        assert Collapse(t) == w + Collapse(r);
        assert Collapse(r) == [' '] + c;
        AppendAssoc(w, [' '], c);
        JoinStep(w, c, Words(r));
      }
    }
  }

  /** A piece of a collapsed string is collapsed. */
  lemma CollapsedSlice(s: string, a: nat, b: nat)
    requires SpacesCollapsed(s) && a <= b <= |s|
    ensures SpacesCollapsed(s[a..b])
  {
    forall i | 0 <= i < b - a && IsSpace(s[a..b][i])
      ensures s[a..b][i] == ' ' && (i + 1 == b - a || !IsSpace(s[a..b][i + 1]))
    {
      assert s[a..b][i] == s[a + i];
    }
  }

  lemma StripFacts(s: string)
    requires SpacesCollapsed(s)
    ensures SpacesCollapsed(Strip(s)) && Trimmed(Strip(s))
    ensures NonSpace(Strip(s)) == NonSpace(s)
  {
    var t := TrimStart(s);
    NonSpaceTrimStart(s);
    NonSpaceTrimEnd(t);
    CollapsedSlice(s, |s| - |t|, |s|);
    CollapsedSlice(t, 0, |TrimEnd(t)|);
  }

  lemma {:induction false} LowerNonSpace(s: string)
    ensures NonSpace(Lower(s)) == Lower(NonSpace(s))
  {
    if s != [] {
      LowerNonSpace(s[1..]);
      LowerCharFacts(s[0]);
      assert Lower(s)[1..] == Lower(s[1..]);
      var head := if IsSpace(s[0]) then [] else [s[0]];
      assert Lower(head + NonSpace(s[1..])) == Lower(head) + Lower(NonSpace(s[1..]));
    }
  }

  lemma LowerFacts(s: string)
    ensures LowerFixed(Lower(s))
    ensures SpacesCollapsed(s) ==> SpacesCollapsed(Lower(s))
    ensures Trimmed(s) ==> Trimmed(Lower(s))
    ensures NonSpace(Lower(s)) == Lower(NonSpace(s))
  {
    forall c: char ensures LowerChar(LowerChar(c)) == LowerChar(c) && IsSpace(LowerChar(c)) == IsSpace(c)
      && (LowerChar(c) == ' ' <==> c == ' ')
    {
      LowerCharFacts(c);
    }
    LowerNonSpace(s);
  }

  lemma {:induction false} CollapseFixesCollapsed(s: string)
    requires SpacesCollapsed(s)
    ensures Collapse(s) == s
    decreases |s|
  {
    if s != [] {
      assert SpacesCollapsed(s[1..]);
      CollapseFixesCollapsed(s[1..]);
      assert [s[0]] + s[1..] == s;
    }
  }
}
