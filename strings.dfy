/**
 * The two functions of Go's `strings` package that cleanInput and the command
 * loop use. Fields splits around maximal runs of white space; ToLower is
 * modelled for ASCII letters only.
 */
module Strings {

  /** unicode.IsSpace: the characters with the Unicode White_Space property. */
  predicate IsSpace(c: char)
  {
    || ('\t' <= c <= '\r') || c == ' ' || c == '\U{85}' || c == '\U{A0}'
    || c == '\U{1680}' || ('\U{2000}' <= c <= '\U{200A}')
    || c == '\U{2028}' || c == '\U{2029}' || c == '\U{202F}' || c == '\U{205F}' || c == '\U{3000}'
  }

  predicate IsUpper(c: char)
  {
    'A' <= c <= 'Z'
  }

  /** A field: non-empty and free of white space. */
  predicate IsWord(w: string)
  {
    w != [] && forall i :: 0 <= i < |w| ==> !IsSpace(w[i])
  }

  /** A run of white space, possibly empty. */
  predicate IsBlank(s: string)
  {
    forall i :: 0 <= i < |s| ==> IsSpace(s[i])
  }

  /** unicode.ToLower restricted to ASCII: upper-case letters move down by 32. */
  function LowerChar(c: char): (r: char)
    ensures !IsUpper(r)
    ensures IsSpace(r) <==> IsSpace(c)
    ensures IsUpper(c) ==> r as int == c as int + 32
    ensures !IsUpper(c) ==> r == c
  {
    if IsUpper(c) then (c as int + 32) as char else c
  }

  /** strings.ToLower, character by character. */
  function ToLower(s: string): (r: string)
  {
    seq(|s|, i requires 0 <= i < |s| => LowerChar(s[i]))
  }

  /** Length of the word at the front of `s`: the characters before the first space. */
  function WordLength(s: string): (n: nat)
    ensures n <= |s|
    ensures forall i :: 0 <= i < n ==> !IsSpace(s[i])
    ensures n < |s| ==> IsSpace(s[n])
  {
    if s == [] || IsSpace(s[0]) then 0 else 1 + WordLength(s[1..])
  }

  /** strings.Fields: the maximal runs of non-space characters, in order; every one is a word. */
  function Fields(s: string): (ws: seq<string>)
    ensures forall i :: 0 <= i < |ws| ==> IsWord(ws[i])
    decreases |s|
  {
    if s == [] then []
    else if IsSpace(s[0]) then Fields(s[1..])
    else
      var n := WordLength(s);
      [s[..n]] + Fields(s[n..])
  }

  /** The words laid out between the gaps: gaps[0] ws[0] gaps[1] ... ws[n-1] gaps[n]. */
  function Layout(ws: seq<string>, gaps: seq<string>): string
    requires |gaps| == |ws| + 1
  {
    if ws == [] then gaps[0] else gaps[0] + ws[0] + Layout(ws[1..], gaps[1..])
  }

  /** Gaps that are blank, with every gap between two words non-empty. */
  predicate Separates(gaps: seq<string>)
  {
    && (forall i :: 0 <= i < |gaps| ==> IsBlank(gaps[i]))
    && (forall i :: 0 < i < |gaps| - 1 ==> gaps[i] != [])
  }

  /** Concatenation of a list of strings. */
  function Concat(ws: seq<string>): string
  {
    if ws == [] then [] else ws[0] + Concat(ws[1..])
  }

  /** The non-space characters of `s`, in order. */
  function NonSpace(s: string): string
  {
    if s == [] then [] else (if IsSpace(s[0]) then [] else [s[0]]) + NonSpace(s[1..])
  }

  lemma {:induction false} NonSpaceAppend(a: string, b: string)
    ensures NonSpace(a + b) == NonSpace(a) + NonSpace(b)
  {
    if a == [] {
      assert a + b == b;
    } else {
      assert (a + b)[1..] == a[1..] + b;
      NonSpaceAppend(a[1..], b);
    }
  }

  lemma {:induction false} NonSpaceOfWord(w: string)
    requires forall i :: 0 <= i < |w| ==> !IsSpace(w[i])
    ensures NonSpace(w) == w
  {
    if w != [] {
      NonSpaceOfWord(w[1..]);
    }
  }

  lemma {:induction false} NonSpaceOfBlank(s: string)
    requires IsBlank(s)
    ensures NonSpace(s) == []
  {
    if s != [] {
      NonSpaceOfBlank(s[1..]);
    }
  }

  /** Fields loses only white space: the fields, joined, are the input's non-space characters. */
  lemma {:induction false} FieldsKeepsText(s: string)
    ensures Concat(Fields(s)) == NonSpace(s)
    decreases |s|
  {
    if s == [] {
    } else if IsSpace(s[0]) {
      FieldsKeepsText(s[1..]);
    } else {
      var n := WordLength(s);
      var ws := Fields(s);
      assert ws == [s[..n]] + Fields(s[n..]);
      assert ws[1..] == Fields(s[n..]);
      FieldsKeepsText(s[n..]);
      NonSpaceOfWord(s[..n]);
      assert s == s[..n] + s[n..];
      NonSpaceAppend(s[..n], s[n..]);
    }
  }

  /** Leading white space is skipped. */
  lemma {:induction false} FieldsSkipsBlank(g: string, rest: string)
    requires IsBlank(g)
    ensures Fields(g + rest) == Fields(rest)
    decreases |g|
  {
    if g != [] {
      assert (g + rest)[1..] == g[1..] + rest;
      FieldsSkipsBlank(g[1..], rest);
    } else {
      assert g + rest == rest;
    }
  }

  /** A word followed by the end or by white space is the first field. */
  lemma {:induction false} FieldsOfWordThen(w: string, rest: string)
    requires IsWord(w)
    requires rest == [] || IsSpace(rest[0])
    ensures Fields(w + rest) == [w] + Fields(rest)
  {
    var s := w + rest;
    WordAtFront(w, rest);
    assert s[..|w|] == w;
    assert s[|w|..] == rest;
  }

  lemma {:induction false} WordAtFront(w: string, rest: string)
    requires forall i :: 0 <= i < |w| ==> !IsSpace(w[i])
    requires rest == [] || IsSpace(rest[0])
    ensures WordLength(w + rest) == |w|
  {
    if w != [] {
      assert (w + rest)[1..] == w[1..] + rest;
      WordAtFront(w[1..], rest);
    } else {
      assert w + rest == rest;
    }
  }

  /**
   * Fields collapses leading, trailing and inner runs of white space and keeps
   * the words in order: laying words out between blank gaps and splitting gives them back.
   */
  lemma {:induction false} FieldsOfLayout(ws: seq<string>, gaps: seq<string>)
    requires |gaps| == |ws| + 1
    requires forall i :: 0 <= i < |ws| ==> IsWord(ws[i])
    requires Separates(gaps)
    ensures Fields(Layout(ws, gaps)) == ws
    decreases |ws|
  {
    if ws == [] {
      FieldsSkipsBlank(gaps[0], []);
      assert gaps[0] + [] == gaps[0];
    } else {
      var rest := Layout(ws[1..], gaps[1..]);
      assert Separates(gaps[1..]) by {
        forall i | 0 < i < |gaps[1..]| - 1 ensures gaps[1..][i] != [] {
          assert gaps[1..][i] == gaps[i + 1];
        }
      }
      FieldsOfLayout(ws[1..], gaps[1..]);
      assert rest == [] || IsSpace(rest[0]) by {
        if ws[1..] != [] {
          assert gaps[1] != [];
          assert rest == gaps[1] + (ws[1..][0] + Layout(ws[2..], gaps[2..]));
        } else {
          assert rest == gaps[1];
        }
      }
      FieldsOfWordThen(ws[0], rest);
      assert gaps[0] + ws[0] + rest == gaps[0] + (ws[0] + rest);
      FieldsSkipsBlank(gaps[0], ws[0] + rest);
    }
  }

  /** Every character of a field comes from the input. */
  lemma {:induction false} FieldCharsFromInput(s: string, i: int, j: int)
    requires 0 <= i < |Fields(s)| && 0 <= j < |Fields(s)[i]|
    ensures Fields(s)[i][j] in s
    decreases |s|
  {
    if IsSpace(s[0]) {
      FieldCharsFromInput(s[1..], i, j);
    } else {
      var n := WordLength(s);
      if i == 0 {
        assert Fields(s)[0] == s[..n];
      } else {
        assert Fields(s)[i] == Fields(s[n..])[i - 1];
        FieldCharsFromInput(s[n..], i - 1, j);
      }
    }
  }
}
