/**
 * A reference definition of the SCREAMING_SNAKE_CASE conversion that the
 * enum-string derive applies to variant names: the identifier is cut into
 * pieces at non-alphanumeric characters, each piece is cut into words at
 * lower-to-upper steps and before the last capital of a capital run that is
 * followed by a lower-case letter (digits keep the current mode), and the
 * words are upper-cased and joined with '_'.  Only ASCII identifiers occur.
 */
module Heck {

  predicate IsUpper(c: char) { 'A' <= c <= 'Z' }
  predicate IsLower(c: char) { 'a' <= c <= 'z' }
  predicate IsDigit(c: char) { '0' <= c <= '9' }
  predicate IsAlnum(c: char) { IsUpper(c) || IsLower(c) || IsDigit(c) }

  predicate AllAlnum(s: string) { forall i :: 0 <= i < |s| ==> IsAlnum(s[i]) }

  function Upper(c: char): char { if IsLower(c) then (c as int - 32) as char else c }

  function UpperAll(s: string): string { seq(|s|, i requires 0 <= i < |s| => Upper(s[i])) }

  /** The pieces of `s` between its non-alphanumeric characters, empty pieces included. */
  function Pieces(s: string): (r: seq<string>)
    ensures |r| >= 1
  {
    if |s| == 0 then [""]
    else if !IsAlnum(s[0]) then [""] + Pieces(s[1..])
    else
      var rest := Pieces(s[1..]);
      [[s[0]] + rest[0]] + rest[1..]
  }

  /** What the scanner remembers about the characters since the last word boundary. */
  datatype WordMode = Boundary | Lowercase | Uppercase

  /**
   * The words of the piece `p` from position `i` on, where the current word
   * started at `init` and `mode` describes the characters seen since then.
   */
  function Split(p: string, i: nat, init: nat, mode: WordMode): seq<string>
    requires init <= i < |p|
    decreases |p| - i
  {
    if i + 1 == |p| then [p[init..]]
    else
      var c, next := p[i], p[i + 1];
      var nextMode := if IsLower(c) then Lowercase else if IsUpper(c) then Uppercase else mode;
      if nextMode == Lowercase && IsUpper(next) then
        [p[init..i + 1]] + Split(p, i + 1, i + 1, Boundary)
      else if mode == Uppercase && IsUpper(c) && IsLower(next) then
        [p[init..i]] + Split(p, i + 1, i, Boundary)
      else
        Split(p, i + 1, init, nextMode)
  }

  function PieceWords(p: string): seq<string>
  {
    if |p| == 0 then [] else Split(p, 0, 0, Boundary)
  }

  function FlatWords(ps: seq<string>): seq<string>
  {
    if |ps| == 0 then [] else PieceWords(ps[0]) + FlatWords(ps[1..])
  }

  /** The words of an identifier, in order. */
  function Words(s: string): seq<string> { FlatWords(Pieces(s)) }

  /** The words upper-cased and joined with '_'. */
  function JoinUpper(ws: seq<string>): string
  {
    if |ws| == 0 then ""
    else if |ws| == 1 then UpperAll(ws[0])
    else UpperAll(ws[0]) + "_" + JoinUpper(ws[1..])
  }

  function ScreamingSnake(s: string): string { JoinUpper(Words(s)) }

  function Concat(ws: seq<string>): string
  {
    if |ws| == 0 then "" else ws[0] + Concat(ws[1..])
  }

  /** A camel-case word: one capital, then lower-case letters and digits, a letter second. */
  predicate Capitalised(w: string)
  {
    1 <= |w| && IsUpper(w[0])
    && (forall j :: 1 <= j < |w| ==> IsLower(w[j]) || IsDigit(w[j]))
    && (|w| == 1 || IsLower(w[1]))
  }

  /** Words whose concatenation the scanner cuts back into exactly these words. */
  predicate WellFormedWords(ws: seq<string>)
  {
    1 <= |ws|
    && (forall n :: 0 <= n < |ws| ==> Capitalised(ws[n]))
    && (forall n :: 0 <= n < |ws| - 1 ==> 2 <= |ws[n]|)
  }

  /** The scanner's mode at offset `k` of a capitalised word. */
  function ModeAt(k: nat): WordMode
  {
    if k == 0 then Boundary else if k == 1 then Uppercase else Lowercase
  }

  lemma {:induction false} ConcatCons(ws: seq<string>)
    requires 1 <= |ws|
    ensures Concat(ws) == ws[0] + Concat(ws[1..])
    ensures |Concat(ws)| == |ws[0]| + |Concat(ws[1..])|
  {
  }

  lemma {:induction false} ConcatAlnum(ws: seq<string>)
    requires forall n :: 0 <= n < |ws| ==> Capitalised(ws[n])
    ensures AllAlnum(Concat(ws))
    ensures |ws| >= 1 ==> |Concat(ws)| >= 1
  {
    if |ws| > 0 {
      ConcatAlnum(ws[1..]);
      var s := Concat(ws);
      assert s == ws[0] + Concat(ws[1..]);
      forall i | 0 <= i < |s| ensures IsAlnum(s[i]) {
        if i < |ws[0]| {
          assert s[i] == ws[0][i];
        } else {
          assert s[i] == Concat(ws[1..])[i - |ws[0]|];
        }
      }
    }
  }

  /** An alphanumeric string is a single piece. */
  lemma {:induction false} PiecesOfAlnum(s: string)
    requires AllAlnum(s)
    ensures Pieces(s) == [s]
  {
    if |s| > 0 {
      assert AllAlnum(s[1..]) by {
        forall i | 0 <= i < |s[1..]| ensures IsAlnum(s[1..][i]) {
          assert s[1..][i] == s[i + 1];
        }
      }
      PiecesOfAlnum(s[1..]);
      assert [s[0]] + s[1..] == s;
    }
  }

  /**
   * Scanning the first word of `ws`, placed at `start` in `p`, from offset
   * `k` on yields exactly that word and then restarts at the next word.
   */
  lemma {:induction false} SplitWord(p: string, start: nat, ws: seq<string>, k: nat)
    requires WellFormedWords(ws)
    requires start <= |p| && p[start..] == Concat(ws)
    requires k < |ws[0]|
    ensures start + |ws[0]| <= |p|
    ensures start + k < |p|
    ensures |ws| > 1 ==> start + |ws[0]| < |p|
    ensures Split(p, start + k, start, ModeAt(k))
         == [ws[0]] + (if |ws| == 1 then [] else Split(p, start + |ws[0]|, start + |ws[0]|, Boundary))
    decreases |ws[0]| - k
  {
    var w := ws[0];
    ConcatCons(ws);
    assert Capitalised(w);
    assert forall j :: 0 <= j < |w| ==> p[start + j] == w[j] by {
      forall j | 0 <= j < |w| ensures p[start + j] == w[j] {
        assert p[start..][j] == Concat(ws)[j];
      }
    }
    if |ws| > 1 {
      assert Capitalised(ws[1]);
      assert ws[1..][0] == ws[1];
      ConcatCons(ws[1..]);
      assert p[start + |w|] == ws[1][0] by {
        assert p[start..][|w|] == Concat(ws)[|w|];
        assert Concat(ws)[|w|] == Concat(ws[1..])[0];
      }
      assert 2 <= |w|;
    }
    var i := start + k;
    if i + 1 == |p| {
      assert p[start..] == w;
    } else {
      var c, next := p[i], p[i + 1];
      var nextMode := if IsLower(c) then Lowercase else if IsUpper(c) then Uppercase else ModeAt(k);
      if k + 1 < |w| {
        assert next == w[k + 1];
        assert nextMode == ModeAt(k + 1);
        SplitWord(p, start, ws, k + 1);
      } else {
        assert |ws| > 1;
        assert nextMode == Lowercase && IsUpper(next);
        assert p[start..i + 1] == w by {
          assert p[start..start + |w|] == p[start..][..|w|];
        }
      }
    }
  }

  /** Scanning the concatenation of well-formed words yields exactly those words. */
  lemma {:induction false} SplitAll(p: string, start: nat, ws: seq<string>)
    requires WellFormedWords(ws)
    requires start <= |p| && p[start..] == Concat(ws)
    ensures start < |p|
    ensures Split(p, start, start, Boundary) == ws
    decreases |ws|
  {
    SplitWord(p, start, ws, 0);
    if |ws| > 1 {
      var next := start + |ws[0]|;
      ConcatCons(ws);
      assert p[next..] == Concat(ws[1..]) by {
        assert p[next..] == p[start..][|ws[0]|..];
      }
      assert WellFormedWords(ws[1..]) by {
        forall n | 0 <= n < |ws[1..]| ensures Capitalised(ws[1..][n]) {
          assert ws[1..][n] == ws[n + 1];
        }
        forall n | 0 <= n < |ws[1..]| - 1 ensures 2 <= |ws[1..][n]| {
          assert ws[1..][n] == ws[n + 1];
        }
      }
      SplitAll(p, next, ws[1..]);
      assert [ws[0]] + ws[1..] == ws;
    }
  }

  /**
   * A Rust identifier made of well-formed camel-case words, with or without
   * a leading underscore, splits back into exactly those words.
   */
  lemma {:induction false} WordsOfCamel(underscore: bool, ws: seq<string>)
    requires WellFormedWords(ws)
    ensures Words((if underscore then "_" else "") + Concat(ws)) == ws
  {
    var s := Concat(ws);
    ConcatAlnum(ws);
    PiecesOfAlnum(s);
    SplitAll(s, 0, ws);
    assert s[0..] == s;
    assert PieceWords(s) == ws;
    assert FlatWords([s]) == ws by {
      var one: seq<string> := [s];
      assert |one[1..]| == 0;
    }
    if underscore {
      var u := "_" + s;
      assert u[1..] == s;
      var two: seq<string> := ["", s];
      assert Pieces(u) == two;
      assert two[1..] == [s];
      assert FlatWords(two) == PieceWords("") + FlatWords([s]);
      assert Words(u) == ws;
    } else {
      assert "" + s == s;
      assert Words(s) == ws;
    }
  }

  lemma Join2(a: string, b: string, A: string, B: string)
    requires UpperAll(a) == A && UpperAll(b) == B
    ensures JoinUpper([a, b]) == A + "_" + B
  {
    assert [a, b][1..] == [b];
  }

  lemma Join3(a: string, b: string, c: string, A: string, B: string, C: string)
    requires UpperAll(a) == A && UpperAll(b) == B && UpperAll(c) == C
    ensures JoinUpper([a, b, c]) == A + "_" + (B + "_" + C)
  {
    assert [a, b, c][1..] == [b, c];
    Join2(b, c, B, C);
  }

  lemma Join4(a: string, b: string, c: string, d: string, A: string, B: string, C: string, D: string)
    requires UpperAll(a) == A && UpperAll(b) == B && UpperAll(c) == C && UpperAll(d) == D
    ensures JoinUpper([a, b, c, d]) == A + "_" + (B + "_" + (C + "_" + D))
  {
    assert [a, b, c, d][1..] == [b, c, d];
    Join3(b, c, d, B, C, D);
  }
}
