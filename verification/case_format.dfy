/**
 * Case conversion of enum constant names: `String.toLowerCase`,
 * `String.toUpperCase` and Guava's `CaseFormat.UPPER_UNDERSCORE.to(...)`
 * towards UPPER_CAMEL and LOWER_CAMEL. Only ASCII letters change case;
 * every other character is kept as it is.
 */
module CaseFormat {

  predicate IsUpper(c: char) { 'A' <= c <= 'Z' }

  predicate IsLower(c: char) { 'a' <= c <= 'z' }

  function LowerChar(c: char): char
  {
    if IsUpper(c) then (c as int + 32) as char else c
  }

  function UpperChar(c: char): char
  {
    if IsLower(c) then (c as int - 32) as char else c
  }

  /** `String.toLowerCase` on ASCII text. */
  function Lower(s: string): (r: string)
    ensures |r| == |s|
    ensures forall i :: 0 <= i < |s| ==> r[i] == LowerChar(s[i])
  {
    seq(|s|, i requires 0 <= i < |s| => LowerChar(s[i]))
  }

  /** `String.toUpperCase` on ASCII text. */
  function Upper(s: string): (r: string)
    ensures |r| == |s|
    ensures forall i :: 0 <= i < |s| ==> r[i] == UpperChar(s[i])
  {
    seq(|s|, i requires 0 <= i < |s| => UpperChar(s[i]))
  }

  lemma LowerCons(w: string)
    requires w != []
    ensures Lower(w) == [LowerChar(w[0])] + Lower(w[1..])
  {
  }

  /**
   * The words of an UPPER_UNDERSCORE name: the pieces between '_'
   * separators, empty pieces included (there is always at least one).
   */
  function Words(s: string): (ws: seq<string>)
    ensures |ws| >= 1
  {
    if s == [] then [[]]
    else if s[0] == '_' then [[]] + Words(s[1..])
    else PrependToFirst(s[0], Words(s[1..]))
  }

  function PrependToFirst(c: char, ws: seq<string>): (r: seq<string>)
    requires |ws| >= 1
    ensures |r| == |ws|
  {
    [[c] + ws[0]] + ws[1..]
  }

  /** A word with its first letter upper case and the rest lower case. */
  function Capitalize(w: string): string
  {
    if w == [] then [] else [UpperChar(w[0])] + Lower(w[1..])
  }

  function CapitalizeAll(ws: seq<string>): string
  {
    if ws == [] then [] else Capitalize(ws[0]) + CapitalizeAll(ws[1..])
  }

  /** `UPPER_UNDERSCORE.to(UPPER_CAMEL, s)`: every word capitalized, separators dropped. */
  function UpperCamel(s: string): string
  {
    CapitalizeAll(Words(s))
  }

  /** `UPPER_UNDERSCORE.to(LOWER_CAMEL, s)`: the first word all lower case, the others capitalized. */
  function LowerCamel(s: string): string
  {
    var ws := Words(s);
    Lower(ws[0]) + CapitalizeAll(ws[1..])
  }

  /**
   * A well-formed constant name: capital letters in words joined by single
   * underscores, with no underscore at either end. Every enum constant of the
   * model is such a name.
   */
  predicate ConstantCase(s: string)
  {
    && |s| > 0 && s[0] != '_' && s[|s| - 1] != '_'
    && (forall i :: 0 <= i < |s| ==> IsUpper(s[i]) || s[i] == '_')
    && (forall i :: 0 <= i < |s| - 1 ==> s[i] == '_' ==> s[i + 1] != '_')
  }

  predicate AllUpper(w: string)
  {
    forall i :: 0 <= i < |w| ==> IsUpper(w[i])
  }

  /** The separators put back: words joined with '_'. */
  function Join(ws: seq<string>): string
    requires |ws| >= 1
  {
    ws[0] + JoinTail(ws[1..])
  }

  function JoinTail(ws: seq<string>): string
  {
    if ws == [] then [] else "_" + ws[0] + JoinTail(ws[1..])
  }

  /**
   * The inverse conversion from camel case back to UPPER_UNDERSCORE: each
   * capital letter after the first character starts a new word.
   */
  function FromCamel(t: string): string
  {
    if t == [] then [] else [UpperChar(t[0])] + Snake(t[1..])
  }

  function Snake(u: string): string
  {
    if u == [] then [] else SnakeChar(u[0]) + Snake(u[1..])
  }

  /** One character after the first: a capital starts a new word, any other is upper-cased. */
  function SnakeChar(c: char): string
  {
    if IsUpper(c) then ['_', c] else [UpperChar(c)]
  }

  // ---------------------------------------------------------------------
  // Lemmas

  /** Splitting a name and joining its words with '_' gives the name back. */
  lemma {:induction false} JoinWords(s: string)
    ensures Join(Words(s)) == s
  {
    if s != [] {
      JoinWords(s[1..]);
      var w := Words(s[1..]);
      if s[0] == '_' {
        JoinAfterSeparator(w);
      } else {
        JoinPrepend(s[0], w);
      }
      assert s == [s[0]] + s[1..];
    }
  }

  lemma JoinAfterSeparator(w: seq<string>)
    requires |w| >= 1
    ensures Join([[]] + w) == "_" + Join(w)
  {
    assert ([[]] + w)[1..] == w;
  }

  lemma JoinPrepend(c: char, w: seq<string>)
    requires |w| >= 1
    ensures Join(PrependToFirst(c, w)) == [c] + Join(w)
  {
    var p := PrependToFirst(c, w);
    assert p[0] == [c] + w[0] && p[1..] == w[1..];
  }

  lemma {:induction false} WordsWithoutSeparator(w: string)
    requires '_' !in w
    ensures Words(w) == [w]
  {
    if w != [] {
      WordsWithoutSeparator(w[1..]);
      assert w[0] != '_' && w == [w[0]] + w[1..];
    }
  }

  lemma {:induction false} WordsSplit(w: string, t: string)
    requires '_' !in w
    ensures Words(w + "_" + t) == [w] + Words(t)
  {
    if w == [] {
      assert w + "_" + t == "_" + t;
    } else {
      WordsSplit(w[1..], t);
      var s := w + "_" + t;
      assert s[0] == w[0] != '_';
      assert s[1..] == w[1..] + "_" + t;
      assert w == [w[0]] + w[1..];
    }
  }

  /** Every word of a constant-case name is a non-empty run of capital letters. */
  lemma {:induction false} ConstantCaseWords(s: string)
    requires ConstantCase(s)
    ensures forall w | w in Words(s) :: w != [] && AllUpper(w)
    decreases |s|
  {
    if '_' in s {
      var j := FirstSeparator(s);
      var w, t := s[..j], s[j + 1..];
      assert s == w + "_" + t;
      WordsSplit(w, t);
      ConstantCaseAfterSeparator(s, j);
      ConstantCaseWords(t);
    } else {
      WordsWithoutSeparator(s);
    }
  }

  /** What follows the first separator of a constant name is a constant name. */
  lemma ConstantCaseAfterSeparator(s: string, j: nat)
    requires ConstantCase(s) && j < |s| && s[j] == '_'
    ensures ConstantCase(s[j + 1..])
  {
    var t := s[j + 1..];
    assert s[j + 1] != '_';
    assert forall k :: 0 <= k < |t| ==> t[k] == s[j + 1 + k];
  }

  function FirstSeparator(s: string): (j: nat)
    requires '_' in s
    ensures j < |s| && s[j] == '_' && '_' !in s[..j]
  {
    if s[0] == '_' then 0 else FirstSeparator(s[1..]) + 1
  }

  lemma {:induction false} SnakeAppend(a: string, b: string)
    ensures Snake(a + b) == Snake(a) + Snake(b)
  {
    if a == [] {
      assert a + b == b;
    } else {
      var c, r := a[0], a[1..];
      assert a == [c] + r;
      assert a + b == [c] + (r + b);
      SnakeCons(c, r);
      SnakeCons(c, r + b);
      SnakeAppend(r, b);
      var h, x, y := SnakeChar(c), Snake(r), Snake(b);
      assert h + (x + y) == (h + x) + y;
    }
  }

  lemma SnakeCons(c: char, r: string)
    ensures Snake([c] + r) == SnakeChar(c) + Snake(r)
  {
    assert ([c] + r)[1..] == r;
  }

  lemma {:induction false} SnakeOfLower(w: string)
    requires AllUpper(w)
    ensures Snake(Lower(w)) == w
  {
    if w != [] {
      SnakeOfLower(w[1..]);
      assert Lower(w)[1..] == Lower(w[1..]);
    }
  }

  lemma SnakeOfCapitalized(w: string)
    requires w != [] && AllUpper(w)
    ensures Snake(Capitalize(w)) == "_" + w
  {
    var u, rest := UpperChar(w[0]), w[1..];
    SnakeCons(u, Lower(rest));
    SnakeOfLower(rest);
    assert Capitalize(w) == [u] + Lower(rest);
    assert u == w[0] && SnakeChar(u) == ['_', w[0]];
    assert ['_', w[0]] + rest == "_" + w;
  }

  lemma {:induction false} SnakeOfCapitalizeAll(ws: seq<string>)
    requires forall w | w in ws :: w != [] && AllUpper(w)
    ensures Snake(CapitalizeAll(ws)) == JoinTail(ws)
  {
    if ws != [] {
      assert ws[0] in ws;
      assert forall w | w in ws[1..] :: w in ws;
      SnakeAppend(Capitalize(ws[0]), CapitalizeAll(ws[1..]));
      SnakeOfCapitalized(ws[0]);
      SnakeOfCapitalizeAll(ws[1..]);
    }
  }

  lemma FromCamelOfWords(c: char, ws: seq<string>, t: string)
    requires |ws| >= 1 && ws[0] != [] && forall w | w in ws :: w != [] && AllUpper(w)
    requires UpperChar(c) == ws[0][0]
    requires t == [c] + Lower(ws[0][1..]) + CapitalizeAll(ws[1..])
    ensures FromCamel(t) == Join(ws)
  {
    assert ws[0] in ws;
    assert forall w | w in ws[1..] :: w in ws;
    SnakeOfCapitalizeAll(ws[1..]);
    FromCamelSplit(c, ws[0], CapitalizeAll(ws[1..]), t);
  }

  lemma FromCamelSplit(c: char, first: string, rest: string, t: string)
    requires first != [] && AllUpper(first) && UpperChar(c) == first[0]
    requires t == [c] + Lower(first[1..]) + rest
    ensures FromCamel(t) == first + Snake(rest)
  {
    assert t[1..] == Lower(first[1..]) + rest;
    SnakeAppend(Lower(first[1..]), rest);
    SnakeOfLower(first[1..]);
    assert first == [first[0]] + first[1..];
  }

  /** UPPER_CAMEL conversion of a constant name is undone by `FromCamel`. */
  lemma UpperCamelRoundTrip(s: string)
    requires ConstantCase(s)
    ensures FromCamel(UpperCamel(s)) == s
  {
    var ws := Words(s);
    ConstantCaseWords(s);
    assert ws[0] in ws;
    JoinWords(s);
    var c := UpperChar(ws[0][0]);
    assert UpperCamel(s) == [c] + Lower(ws[0][1..]) + CapitalizeAll(ws[1..]);
    FromCamelOfWords(c, ws, UpperCamel(s));
  }

  /** LOWER_CAMEL conversion of a constant name is undone by `FromCamel`. */
  lemma LowerCamelRoundTrip(s: string)
    requires ConstantCase(s)
    ensures FromCamel(LowerCamel(s)) == s
  {
    var ws := Words(s);
    ConstantCaseWords(s);
    assert ws[0] in ws;
    JoinWords(s);
    var c := LowerChar(ws[0][0]);
    LowerCons(ws[0]);
    assert LowerCamel(s) == [c] + Lower(ws[0][1..]) + CapitalizeAll(ws[1..]);
    FromCamelOfWords(c, ws, LowerCamel(s));
  }

  /** Distinct constant names have distinct lower camel forms. */
  lemma LowerCamelInjective(s: string, t: string)
    requires ConstantCase(s) && ConstantCase(t) && LowerCamel(s) == LowerCamel(t)
    ensures s == t
  {
    LowerCamelRoundTrip(s);
    LowerCamelRoundTrip(t);
  }

  /** Distinct constant names have distinct upper camel forms. */
  lemma UpperCamelInjective(s: string, t: string)
    requires ConstantCase(s) && ConstantCase(t) && UpperCamel(s) == UpperCamel(t)
    ensures s == t
  {
    UpperCamelRoundTrip(s);
    UpperCamelRoundTrip(t);
  }

  /**
   * Upper and lower camel forms of a constant name differ only in their
   * first character, which is the capital letter and its lower case.
   */
  lemma CamelFormsAgreeAfterFirst(s: string)
    requires ConstantCase(s)
    ensures |UpperCamel(s)| == |LowerCamel(s)| > 0
    ensures UpperCamel(s)[1..] == LowerCamel(s)[1..]
    ensures IsUpper(UpperCamel(s)[0]) && LowerCamel(s)[0] == LowerChar(UpperCamel(s)[0])
  {
    var ws := Words(s);
    ConstantCaseWords(s);
    assert ws[0] in ws;
    assert ws[0] != [] && IsUpper(ws[0][0]);
    CamelHeads(ws);
  }

  /** The two camel forms of a word list whose first word starts with a capital. */
  lemma CamelHeads(ws: seq<string>)
    requires ws != [] && ws[0] != [] && IsUpper(ws[0][0])
    ensures var up, low := CapitalizeAll(ws), Lower(ws[0]) + CapitalizeAll(ws[1..]);
      |up| == |low| > 0 && up[1..] == low[1..] && IsUpper(up[0]) && low[0] == LowerChar(up[0])
  {
    var w := ws[0];
    var rest := Lower(w[1..]);
    var more := CapitalizeAll(ws[1..]);
    LowerCons(w);
    CapitalizeAllHead(ws);
    Regroup(UpperChar(w[0]), rest, more);
    Regroup(LowerChar(w[0]), rest, more);
    SameTail(w[0], rest + more, CapitalizeAll(ws), Lower(w) + more);
  }

  lemma CapitalizeAllHead(ws: seq<string>)
    requires ws != [] && ws[0] != []
    ensures CapitalizeAll(ws) == ([UpperChar(ws[0][0])] + Lower(ws[0][1..])) + CapitalizeAll(ws[1..])
  {
  }

  lemma Regroup(c: char, a: string, b: string)
    ensures ([c] + a) + b == [c] + (a + b)
  {
  }

  lemma SameTail(c: char, tail: string, up: string, low: string)
    requires IsUpper(c) && up == [UpperChar(c)] + tail && low == [LowerChar(c)] + tail
    ensures |up| == |low| > 0 && up[1..] == low[1..]
    ensures IsUpper(up[0]) && low[0] == LowerChar(up[0])
  {
  }

  /** Camel forms contain no separator. */
  lemma {:induction false} CapitalizeAllHasNoSeparator(ws: seq<string>)
    requires forall w | w in ws :: AllUpper(w)
    ensures '_' !in CapitalizeAll(ws)
  {
    if ws != [] {
      assert ws[0] in ws;
      CapitalizeAllHasNoSeparator(ws[1..]);
    }
  }

  lemma CamelFormsHaveNoSeparator(s: string)
    requires ConstantCase(s)
    ensures '_' !in UpperCamel(s) && '_' !in LowerCamel(s)
  {
    ConstantCaseWords(s);
    var ws := Words(s);
    CapitalizeAllHasNoSeparator(ws);
    CapitalizeAllHasNoSeparator(ws[1..]);
    assert ws[0] in ws;
  }

  lemma CharCaseRoundTrip(c: char)
    requires IsUpper(c) || c == '_'
    ensures UpperChar(c) == c
    ensures UpperChar(LowerChar(c)) == c && !IsUpper(LowerChar(c))
  {
  }

  /** Upper-casing a constant name leaves it unchanged; lower-casing then upper-casing restores it. */
  lemma CaseRoundTrip(s: string)
    requires ConstantCase(s)
    ensures Upper(s) == s
    ensures Upper(Lower(s)) == s
    ensures forall i :: 0 <= i < |s| ==> !IsUpper(Lower(s)[i])
  {
    forall i | 0 <= i < |s|
      ensures Upper(s)[i] == s[i] && Upper(Lower(s))[i] == s[i] && !IsUpper(Lower(s)[i])
    {
      CharCaseRoundTrip(s[i]);
    }
  }

  lemma CharCaseFacts(c: char)
    ensures UpperChar(LowerChar(c)) == UpperChar(c) && LowerChar(UpperChar(c)) == LowerChar(c)
    ensures !IsUpper(LowerChar(c)) && !IsLower(UpperChar(c))
    ensures LowerChar(c) == c <==> !IsUpper(c)
    ensures UpperChar(c) == c <==> !IsLower(c)
  {
  }

  /**
   * Lower and upper case agree with each other on any text: converting to
   * one case then the other is converting to the other directly, a lowered
   * text has no capital and a raised one no small letter, and a character
   * is kept exactly when it is not a letter of the case being changed.
   */
  lemma CasesAgree(s: string)
    ensures Upper(Lower(s)) == Upper(s) && Lower(Upper(s)) == Lower(s)
    ensures forall i :: 0 <= i < |s| ==> !IsUpper(Lower(s)[i]) && !IsLower(Upper(s)[i])
    ensures forall i :: 0 <= i < |s| ==> (Lower(s)[i] == s[i] <==> !IsUpper(s[i]))
    ensures forall i :: 0 <= i < |s| ==> (Upper(s)[i] == s[i] <==> !IsLower(s[i]))
  {
    forall i | 0 <= i < |s|
      ensures Upper(Lower(s))[i] == Upper(s)[i] && Lower(Upper(s))[i] == Lower(s)[i]
      ensures !IsUpper(Lower(s)[i]) && !IsLower(Upper(s)[i])
      ensures (Lower(s)[i] == s[i] <==> !IsUpper(s[i])) && (Upper(s)[i] == s[i] <==> !IsLower(s[i]))
    {
      CharCaseFacts(s[i]);
    }
  }

  /** A single-word name: lower camel case is plain lower case. */
  lemma SingleWordLowerCamel(s: string)
    requires '_' !in s
    ensures LowerCamel(s) == Lower(s)
    ensures UpperCamel(s) == Capitalize(s)
  {
    WordsWithoutSeparator(s);
  }

  /** Lower-casing checked letter by letter. */
  lemma LowerSpelled(n: string, l: string)
    requires |n| == |l| && forall i :: 0 <= i < |n| ==> LowerChar(n[i]) == l[i]
    ensures Lower(n) == l
  {
  }

  /** Capitalizing checked letter by letter. */
  lemma CapitalizeSpelled(w: string, c: string)
    requires |w| == |c| > 0 && UpperChar(w[0]) == c[0]
    requires forall i :: 1 <= i < |w| ==> LowerChar(w[i]) == c[i]
    ensures Capitalize(w) == c
  {
    LowerSpelled(w[1..], c[1..]);
  }

  /** Words without separators, joined by '_', split back into those words. */
  lemma {:induction false} WordsOfJoin(ws: seq<string>)
    requires |ws| >= 1 && forall i :: 0 <= i < |ws| ==> '_' !in ws[i]
    ensures Words(Join(ws)) == ws
  {
    if |ws| == 1 {
      WordsWithoutSeparator(ws[0]);
      assert Join(ws) == ws[0];
    } else {
      var rest := ws[1..];
      WordsOfJoin(rest);
      assert JoinTail(rest) == "_" + rest[0] + JoinTail(rest[1..]);
      assert Join(ws) == ws[0] + "_" + Join(rest);
      WordsSplit(ws[0], Join(rest));
    }
  }

  lemma CapitalizeAllCons(w: string, ws: seq<string>)
    ensures CapitalizeAll([w] + ws) == Capitalize(w) + CapitalizeAll(ws)
  {
    assert ([w] + ws)[1..] == ws;
  }

  /** The camel forms of a one-word name. */
  lemma CamelOne(a: string)
    requires '_' !in a
    ensures UpperCamel(a) == Capitalize(a)
    ensures LowerCamel(a) == Lower(a)
  {
    WordsWithoutSeparator(a);
    CapitalizeAllCons(a, []);
  }

  /** The camel forms of a two-word name. */
  lemma CamelTwo(a: string, b: string)
    requires '_' !in a && '_' !in b
    ensures UpperCamel(a + "_" + b) == Capitalize(a) + Capitalize(b)
    ensures LowerCamel(a + "_" + b) == Lower(a) + Capitalize(b)
  {
    WordsSplit(a, b);
    CamelOne(b);
    CapitalizeAllCons(a, Words(b));
    assert ([a] + Words(b))[1..] == Words(b);
  }

  /** The upper camel form of a word joined by '_' to a name. */
  lemma CamelCons(a: string, t: string)
    requires '_' !in a
    ensures UpperCamel(a + "_" + t) == Capitalize(a) + UpperCamel(t)
  {
    WordsSplit(a, t);
    CapitalizeAllCons(a, Words(t));
  }

  /** The upper camel form of a three-word name. */
  lemma CamelThree(a: string, b: string, c: string)
    requires '_' !in a && '_' !in b && '_' !in c
    ensures UpperCamel(a + "_" + (b + "_" + c)) == Capitalize(a) + (Capitalize(b) + Capitalize(c))
  {
    CamelCons(a, b + "_" + c);
    CamelTwo(b, c);
  }
}
