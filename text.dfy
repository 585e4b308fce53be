/** The string primitives the router relies on: Python's `str.lower()`,
    `str.split()` with no separator, `" ".join(...)` and `str.replace("_", " ")`. */
module Text {

  /** The characters `str.split()` treats as separators (Python's `str.isspace`). */
  predicate IsSpace(c: char) {
    c == ' ' || ('\t' <= c <= '\r') || ('\U{1c}' <= c <= '\U{1f}')
    || c == '\U{85}' || c == '\U{a0}' || c == '\U{1680}'
    || ('\U{2000}' <= c <= '\U{200a}') || c == '\U{2028}' || c == '\U{2029}'
    || c == '\U{202f}' || c == '\U{205f}' || c == '\U{3000}'
  }

  predicate IsUpper(c: char) {
    'A' <= c <= 'Z'
  }

  function LowerChar(c: char): (r: char)
    ensures !IsUpper(r)
    ensures IsSpace(r) <==> IsSpace(c)
    ensures !IsUpper(c) ==> r == c
  {
    if IsUpper(c) then (c as int - 'A' as int + 'a' as int) as char else c
  }

  /** `s.lower()`, for the ASCII letters. */
  function Lower(s: string): (r: string)
    ensures |r| == |s|
    ensures forall c :: c in r ==> !IsUpper(c)
    ensures forall k :: 0 <= k < |s| ==> r[k] == LowerChar(s[k])
  {
    seq(|s|, k requires 0 <= k < |s| => LowerChar(s[k]))
  }

  predicate NoSpace(w: string) {
    forall k :: 0 <= k < |w| ==> !IsSpace(w[k])
  }

  /** `s` with its leading separators removed. */
  function DropSpaces(s: string): (r: string)
    ensures |r| <= |s| && r == s[|s| - |r|..]
    ensures forall c :: c in r ==> c in s
    ensures r != [] ==> !IsSpace(r[0])
  {
    if s == [] || !IsSpace(s[0]) then s else DropSpaces(s[1..])
  }

  /** The longest prefix of `s` without a separator. */
  function TakeWord(s: string): (w: string)
    ensures |w| <= |s| && w == s[..|w|]
    ensures forall c :: c in w ==> c in s
    ensures NoSpace(w)
    ensures |w| < |s| ==> IsSpace(s[|w|])
  {
    if s == [] || IsSpace(s[0]) then [] else [s[0]] + TakeWord(s[1..])
  }

  /** `s.split()`: the maximal runs of non-separators, in order. */
  function Words(s: string): (ws: seq<string>)
    ensures AllWords(ws)
    ensures forall w, c :: w in ws && c in w ==> c in s
    decreases |s|
  {
    var t := DropSpaces(s);
    if t == [] then []
    else
      var w := TakeWord(t);
      WordOfRun(t, w);
      var rest := Words(t[|w|..]);
      ConsWords(w, rest, t[|w|..], t, s);
      [w] + rest
  }

  lemma ConsWords(w: string, rest: seq<string>, tail: string, t: string, s: string)
    requires w != [] && NoSpace(w) && AllWords(rest)
    requires forall c :: c in w ==> c in t
    requires forall v, c :: v in rest && c in v ==> c in tail
    requires forall c :: c in tail ==> c in t
    requires forall c :: c in t ==> c in s
    ensures AllWords([w] + rest)
    ensures forall v, c :: v in [w] + rest && c in v ==> c in s
  {
    forall k | 0 <= k < |[w] + rest| ensures ([w] + rest)[k] != [] && NoSpace(([w] + rest)[k]) {
      if k > 0 {
        assert ([w] + rest)[k] == rest[k - 1];
      }
    }
  }

  /** The word taken from a run that starts on a non-separator is a
      non-empty part of it. */
  lemma WordOfRun(t: string, w: string)
    requires t != [] && !IsSpace(t[0]) && w == TakeWord(t)
    ensures w != [] && NoSpace(w)
    ensures forall c :: c in w ==> c in t
    ensures forall c :: c in t[|w|..] ==> c in t
  {
  }

  /** Each element is a possible result word of `split()`. */
  predicate AllWords(ws: seq<string>) {
    forall k :: 0 <= k < |ws| ==> ws[k] != [] && NoSpace(ws[k])
  }

  /** The number of positions of `s` where a word starts: a non-separator
      at the start (when `afterSpace`) or right after a separator. */
  function WordStarts(s: string, afterSpace: bool): nat
    decreases |s|
  {
    if s == [] then 0
    else (if afterSpace && !IsSpace(s[0]) then 1 else 0) + WordStarts(s[1..], IsSpace(s[0]))
  }

  /** Inside a word no new word starts until the next separator. */
  lemma {:induction false} StartsAfterWord(u: string)
    ensures WordStarts(u, false) == WordStarts(u[|TakeWord(u)|..], true)
    decreases |u|
  {
    if u != [] && !IsSpace(u[0]) {
      StartsAfterWord(u[1..]);
      assert TakeWord(u) == [u[0]] + TakeWord(u[1..]);
      assert u[|TakeWord(u)|..] == u[1..][|TakeWord(u[1..])|..];
    }
  }

  /** Leading separators start no word. */
  lemma {:induction false} StartsAfterSpaces(s: string)
    ensures WordStarts(s, true) == WordStarts(DropSpaces(s), true)
    decreases |s|
  {
    if s != [] && IsSpace(s[0]) {
      StartsAfterSpaces(s[1..]);
    }
  }

  /** `len(s.split())` is the number of word starts in `s`. */
  lemma {:induction false} WordCount(s: string)
    ensures |Words(s)| == WordStarts(s, true)
    decreases |s|
  {
    StartsAfterSpaces(s);
    var t := DropSpaces(s);
    if t != [] {
      var w := TakeWord(t);
      WordOfRun(t, w);
      WordCount(t[|w|..]);
      StartsAfterWord(t[1..]);
      assert TakeWord(t) == [t[0]] + TakeWord(t[1..]);
      assert t[|w|..] == t[1..][|TakeWord(t[1..])|..];
      assert Words(s) == [w] + Words(t[|w|..]);
    }
  }

  /** `sep.join(ws)`. */
  /** `sep.join(ws)`: the words in order with `sep` between neighbours; the
      result starts with the first word and ends with the last. */
  function Join(ws: seq<string>, sep: string): (r: string)
    ensures ws == [] ==> r == []
    ensures |ws| == 1 ==> r == ws[0]
    ensures |ws| >= 1 ==> ws[0] <= r
    ensures |ws| >= 1 ==> |ws[|ws| - 1]| <= |r| && r[|r| - |ws[|ws| - 1]|..] == ws[|ws| - 1]
    ensures |ws| >= 2 ==> ws[0] + sep <= r
  {
    if ws == [] then []
    else if |ws| == 1 then ws[0]
    else
      var rest := Join(ws[1..], sep);
      assert ws[1..][|ws[1..]| - 1] == ws[|ws| - 1];
      ws[0] + sep + rest
  }

  /** `s.replace("_", " ")`. */
  function UnderscoresToSpaces(s: string): (r: string)
    ensures |r| == |s|
    ensures forall k :: 0 <= k < |s| ==> r[k] == (if s[k] == '_' then ' ' else s[k])
    ensures '_' !in r
  {
    seq(|s|, k requires 0 <= k < |s| => if s[k] == '_' then ' ' else s[k])
  }

  /** The word taken from a run ends at the first separator. */
  lemma {:induction false} TakeWordBeforeSpace(w: string, rest: string)
    requires NoSpace(w)
    requires rest == [] || IsSpace(rest[0])
    ensures TakeWord(w + rest) == w
    decreases |w|
  {
    if w == [] {
      assert w + rest == rest;
    } else {
      var s := w + rest;
      assert s[0] == w[0] && !IsSpace(w[0]);
      assert s[1..] == w[1..] + rest;
      assert NoSpace(w[1..]) by {
        forall k | 0 <= k < |w[1..]| ensures !IsSpace(w[1..][k]) {
          assert w[1..][k] == w[k + 1];
        }
      }
      TakeWordBeforeSpace(w[1..], rest);
      assert TakeWord(s) == [w[0]] + TakeWord(s[1..]);
      assert [w[0]] + w[1..] == w;
    }
  }

  /** A single word splits to itself. */
  lemma WordsOfWord(w: string)
    requires w != [] && NoSpace(w)
    ensures Words(w) == [w]
  {
    TakeWordBeforeSpace(w, []);
    assert w + [] == w;
    assert w[|w|..] == [];
  }

  /** A word followed by a separator is split off as the first word. */
  lemma WordsOfWordThenSpace(w: string, rest: string)
    requires w != [] && NoSpace(w)
    ensures Words(w + " " + rest) == [w] + Words(rest)
  {
    var s := w + " " + rest;
    assert s == w + (" " + rest);
    TakeWordBeforeSpace(w, " " + rest);
    assert s[|w|..] == " " + rest;
    assert (" " + rest)[1..] == rest;
    assert DropSpaces(" " + rest) == DropSpaces(rest);
  }

  /** Splitting undoes joining with a single space when every word is a
      non-empty run of non-separators: `" ".join(ws).split() == ws`. */
  lemma {:induction false} SplitJoinRoundTrip(ws: seq<string>)
    requires AllWords(ws)
    ensures Words(Join(ws, " ")) == ws
  {
    if ws == [] {
    } else if |ws| == 1 {
      WordsOfWord(ws[0]);
    } else {
      var w, tail := ws[0], ws[1..];
      var rest := Join(tail, " ");
      assert Join(ws, " ") == w + " " + rest;
      WordsOfWordThenSpace(w, rest);
      assert AllWords(tail) by {
        forall k | 0 <= k < |tail| ensures tail[k] != [] && NoSpace(tail[k]) {
          assert tail[k] == ws[k + 1];
        }
      }
      SplitJoinRoundTrip(tail);
      calc {
        Words(Join(ws, " "));
        Words(w + " " + rest);
        [w] + Words(rest);
        [w] + tail;
        ws;
      }
    }
  }
}
