/**
 * The Java and Guava string operations the exporters apply: `String.trim`,
 * `String.replace` with a literal target, and Guava's
 * `CharMatcher.whitespace().collapseFrom(s, ' ')`.
 */
module Text {

  /** `String.trim()`: drop leading and trailing characters up to U+0020. */
  function TrimStart(s: string): (r: string)
    ensures |r| <= |s| && r == s[|s| - |r|..]
    ensures r == [] || r[0] > ' '
    ensures forall i :: 0 <= i < |s| - |r| ==> s[i] <= ' '
  {
    if s != [] && s[0] <= ' ' then TrimStart(s[1..]) else s
  }

  function TrimEnd(s: string): (r: string)
    ensures |r| <= |s| && r == s[..|r|]
    ensures r == [] || r[|r| - 1] > ' '
    ensures forall i :: |r| <= i < |s| ==> s[i] <= ' '
  {
    if s != [] && s[|s| - 1] <= ' ' then TrimEnd(s[..|s| - 1]) else s
  }

  function Trim(s: string): string
  {
    TrimEnd(TrimStart(s))
  }

  /**
   * The trimmed string is the run of `s` left once every character up to
   * U+0020 is cut from both ends: it starts and ends above U+0020, and what
   * was cut before and after it is all at or below U+0020.
   */
  lemma TrimIsInner(s: string)
    ensures var r := Trim(s);
      (r == [] || (r[0] > ' ' && r[|r| - 1] > ' ')) &&
      exists a, b :: 0 <= a <= b <= |s| && r == s[a..b]
        && (forall i :: 0 <= i < a ==> s[i] <= ' ')
        && (forall i :: b <= i < |s| ==> s[i] <= ' ')
  {
    var t := TrimStart(s);
    var r := TrimEnd(t);
    var a := |s| - |t|;
    var b := a + |r|;
    assert r == s[a..b];
    assert t == s[a..];
    assert forall i :: b <= i < |s| ==> s[i] <= ' ' by {
      forall i | b <= i < |s| ensures s[i] <= ' ' {
        assert s[i] == t[i - a];
      }
    }
  }

  /** `s.replace(pat, rep)`: every non-overlapping occurrence, scanning left to right. */
  function Replace(s: string, pat: string, rep: string): string
    requires |pat| > 0
  {
    if |s| < |pat| then s
    else if s[..|pat|] == pat then rep + Replace(s[|pat|..], pat, rep)
    else [s[0]] + Replace(s[1..], pat, rep)
  }

  /** Replacing a one-character target leaves no occurrence of it, when the replacement has none. */
  lemma {:induction false} ReplaceRemoves(s: string, c: char, rep: string)
    requires c !in rep
    ensures c !in Replace(s, [c], rep)
  {
    if |s| >= 1 {
      ReplaceRemoves(s[1..], c, rep);
    }
  }

  /** A replacement introduces no character that neither `s` nor the replacement holds. */
  lemma {:induction false} ReplaceKeepsOut(s: string, pat: string, rep: string, c: char)
    requires |pat| > 0 && c !in s && c !in rep
    ensures c !in Replace(s, pat, rep)
  {
    if |s| >= |pat| {
      if s[..|pat|] == pat {
        ReplaceKeepsOut(s[|pat|..], pat, rep, c);
      } else {
        ReplaceKeepsOut(s[1..], pat, rep, c);
      }
    }
  }

  /** Replacing a one-character target that does not occur changes nothing. */
  lemma {:induction false} ReplaceAbsent(s: string, c: char, rep: string)
    requires c !in s
    ensures Replace(s, [c], rep) == s
  {
    if |s| >= 1 {
      assert s[..1] != [c] && s == [s[0]] + s[1..];
      ReplaceAbsent(s[1..], c, rep);
    }
  }

  /** A one-character target never straddles a seam, so replacing distributes over concatenation. */
  lemma {:induction false} ReplaceCharConcat(a: string, b: string, c: char, rep: string)
    ensures Replace(a + b, [c], rep) == Replace(a, [c], rep) + Replace(b, [c], rep)
  {
    if a == [] {
      assert a + b == b;
    } else {
      assert (a + b)[..1] == a[..1] && (a + b)[1..] == a[1..] + b;
      ReplaceCharConcat(a[1..], b, c, rep);
    }
  }

  /** A string framed by one space each side trims back to itself when its ends are above U+0020. */
  lemma TrimFramed(j: string)
    requires j != [] && j[0] > ' ' && j[|j| - 1] > ' '
    ensures Trim(" " + j + " ") == j
  {
    var t := j + " ";
    assert (" " + j + " ")[1..] == t;
    TrimStartSpace(" " + j + " ", t);
    TrimEndSpace(t, j);
  }

  lemma TrimStartSpace(s: string, t: string)
    requires s != [] && s[0] == ' ' && s[1..] == t && t != [] && t[0] > ' '
    ensures TrimStart(s) == t
  {
  }

  lemma TrimEndSpace(t: string, j: string)
    requires t == j + " " && j != [] && j[|j| - 1] > ' '
    ensures TrimEnd(t) == j
  {
    assert t[..|t| - 1] == j;
  }

  /** `String.join(sep, xs)`: the elements with `sep` between neighbours. */
  function Join(xs: seq<string>, sep: string): string
  {
    if xs == [] then [] else if |xs| == 1 then xs[0] else xs[0] + sep + Join(xs[1..], sep)
  }

  /** `List.toString()` of a list of strings. */
  function ListText(xs: seq<string>): string
  {
    "[" + Join(xs, ", ") + "]"
  }

  /** A character in neither the separator nor any element is not in the joined text. */
  lemma {:induction false} JoinKeepsOut(xs: seq<string>, sep: string, c: char)
    requires c !in sep && forall i :: 0 <= i < |xs| ==> c !in xs[i]
    ensures c !in Join(xs, sep)
  {
    if |xs| > 1 {
      JoinKeepsOut(xs[1..], sep, c);
    }
  }

  /** Joining non-empty elements: the text starts with the first element's first character and ends with the last element's last. */
  lemma {:induction false} JoinEnds(xs: seq<string>, sep: string)
    requires xs != [] && forall i :: 0 <= i < |xs| ==> xs[i] != []
    ensures Join(xs, sep) != []
    ensures Join(xs, sep)[0] == xs[0][0]
    ensures Join(xs, sep)[|Join(xs, sep)| - 1] == xs[|xs| - 1][|xs[|xs| - 1]| - 1]
  {
    if |xs| > 1 {
      JoinEnds(xs[1..], sep);
    }
  }

  /** Guava's `CharMatcher.whitespace()`: the Unicode White_Space characters. */
  predicate Whitespace(c: char)
  {
    ('\U{0009}' <= c <= '\U{000D}') || c == ' ' || c == '\U{0085}' || c == '\U{00A0}'
    || c == '\U{1680}' || ('\U{2000}' <= c <= '\U{200A}') || c == '\U{2028}' || c == '\U{2029}'
    || c == '\U{202F}' || c == '\U{205F}' || c == '\U{3000}'
  }

  /** What is left of `s` once its leading whitespace is dropped. */
  function DropWhitespace(s: string): (r: string)
    ensures |r| <= |s| && r == s[|s| - |r|..]
    ensures r == [] || !Whitespace(r[0])
    ensures forall i :: 0 <= i < |s| - |r| ==> Whitespace(s[i])
  {
    if s != [] && Whitespace(s[0]) then DropWhitespace(s[1..]) else s
  }

  /** `collapseFrom(s, ' ')`: each run of whitespace becomes one space. */
  function Collapse(s: string): (r: string)
    ensures r == [] <==> s == []
    ensures s != [] ==> (Whitespace(r[0]) <==> Whitespace(s[0]))
    decreases |s|
  {
    if s == [] then []
    else if Whitespace(s[0]) then [' '] + Collapse(DropWhitespace(s[1..]))
    else [s[0]] + Collapse(s[1..])
  }

  /** No two whitespace characters are adjacent, and every whitespace character is a space. */
  predicate Collapsed(r: string)
  {
    (forall i :: 0 <= i < |r| && Whitespace(r[i]) ==> r[i] == ' ')
    && (forall i :: 0 <= i < |r| - 1 ==> !(Whitespace(r[i]) && Whitespace(r[i + 1])))
  }

  lemma {:induction false} CollapseIsCollapsed(s: string)
    ensures Collapsed(Collapse(s))
    decreases |s|
  {
    if s != [] {
      var r := Collapse(s);
      if Whitespace(s[0]) {
        var t := DropWhitespace(s[1..]);
        CollapseIsCollapsed(t);
        assert r == [' '] + Collapse(t);
        assert forall i :: 1 <= i < |r| ==> r[i] == Collapse(t)[i - 1];
      } else {
        CollapseIsCollapsed(s[1..]);
        assert r == [s[0]] + Collapse(s[1..]);
        assert forall i :: 1 <= i < |r| ==> r[i] == Collapse(s[1..])[i - 1];
      }
    }
  }

  /** Collapsing introduces no character other than a space. */
  lemma {:induction false} CollapseKeepsOut(s: string, c: char)
    requires c !in s && c != ' '
    ensures c !in Collapse(s)
    decreases |s|
  {
    if s != [] {
      if Whitespace(s[0]) {
        CollapseKeepsOut(DropWhitespace(s[1..]), c);
      } else {
        CollapseKeepsOut(s[1..], c);
      }
    }
  }

  /** The non-whitespace characters of `s`, in order. */
  function Solid(s: string): string
  {
    if s == [] then [] else (if Whitespace(s[0]) then [] else [s[0]]) + Solid(s[1..])
  }

  /** Dropping leading whitespace keeps every non-whitespace character. */
  lemma {:induction false} DropKeepsSolid(s: string)
    ensures Solid(DropWhitespace(s)) == Solid(s)
  {
    if s != [] && Whitespace(s[0]) {
      DropKeepsSolid(s[1..]);
    }
  }

  /** Collapsing keeps every non-whitespace character, in order: only whitespace runs change. */
  lemma {:induction false} CollapseKeepsSolid(s: string)
    ensures Solid(Collapse(s)) == Solid(s)
    decreases |s|
  {
    if s != [] {
      var r := Collapse(s);
      if Whitespace(s[0]) {
        var t := DropWhitespace(s[1..]);
        CollapseKeepsSolid(t);
        DropKeepsSolid(s[1..]);
        assert r[1..] == Collapse(t);
      } else {
        CollapseKeepsSolid(s[1..]);
        assert r[1..] == Collapse(s[1..]);
      }
    }
  }

  /** A text that is already collapsed is left unchanged. */
  lemma {:induction false} CollapseFixesCollapsed(s: string)
    requires Collapsed(s)
    ensures Collapse(s) == s
    decreases |s|
  {
    if s != [] {
      CollapsedRun(s, 1, |s|);
      if Whitespace(s[0]) {
        assert s[1..] == [] || !Whitespace(s[1..][0]);
        CollapseFixesCollapsed(s[1..]);
      } else {
        CollapseFixesCollapsed(s[1..]);
      }
    }
  }

  /** Collapsing twice is collapsing once. */
  lemma CollapseIdempotent(s: string)
    ensures Collapse(Collapse(s)) == Collapse(s)
  {
    CollapseIsCollapsed(s);
    CollapseFixesCollapsed(Collapse(s));
  }

  /** A run of a collapsed string is collapsed. */
  lemma CollapsedRun(s: string, a: nat, b: nat)
    requires Collapsed(s) && a <= b <= |s|
    ensures Collapsed(s[a..b])
  {
    var r := s[a..b];
    assert forall i :: 0 <= i < |r| ==> r[i] == s[a + i];
  }
}
