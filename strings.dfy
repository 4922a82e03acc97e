/**
 * The few pieces of Python's `str` the handlers rely on: `s.split(sep)` with a
 * one-character separator, `s.count(c)`, and `str(n)` for a natural number.
 */
module Strings {

  /** `s.count(c)` for a one-character `c`. */
  function Count(s: string, c: char): (r: nat)
    ensures r <= |s|
  {
    if s == [] then 0 else Count(s[..|s| - 1], c) + (if s[|s| - 1] == c then 1 else 0)
  }

  /** The text after the last separator: the piece `split` is still building. */
  function Last(s: string, sep: char): string
  {
    if s == [] then [] else if s[|s| - 1] == sep then [] else Last(s[..|s| - 1], sep) + [s[|s| - 1]]
  }

  /** The pieces closed by a separator so far. */
  function Done(s: string, sep: char): seq<string>
  {
    if s == [] then []
    else if s[|s| - 1] == sep then Done(s[..|s| - 1], sep) + [Last(s[..|s| - 1], sep)]
    else Done(s[..|s| - 1], sep)
  }

  /** `s.split(sep)`: cut at every occurrence, empty pieces kept, so there is always at least one piece. */
  function Split(s: string, sep: char): (r: seq<string>)
    ensures |r| > 0
  {
    Done(s, sep) + [Last(s, sep)]
  }

  /** `sep.join(pieces)`. */
  function Join(pieces: seq<string>, sep: char): string
    requires |pieces| > 0
  {
    if |pieces| == 1 then pieces[0] else Join(pieces[..|pieces| - 1], sep) + [sep] + pieces[|pieces| - 1]
  }

  /** There is one more piece than there are separators. */
  lemma {:induction false} SplitCount(s: string, sep: char)
    ensures |Split(s, sep)| == Count(s, sep) + 1
  {
    DoneCount(s, sep);
  }

  lemma {:induction false} DoneCount(s: string, sep: char)
    ensures |Done(s, sep)| == Count(s, sep)
  {
    if s != [] {
      DoneCount(s[..|s| - 1], sep);
    }
  }

  /** No piece contains the separator. */
  lemma {:induction false} SplitPiecesHaveNoSeparator(s: string, sep: char)
    ensures forall k :: 0 <= k < |Split(s, sep)| ==> sep !in Split(s, sep)[k]
  {
    DonePiecesHaveNoSeparator(s, sep);
  }

  lemma {:induction false} DonePiecesHaveNoSeparator(s: string, sep: char)
    ensures sep !in Last(s, sep)
    ensures forall k :: 0 <= k < |Done(s, sep)| ==> sep !in Done(s, sep)[k]
  {
    if s != [] {
      DonePiecesHaveNoSeparator(s[..|s| - 1], sep);
    }
  }

  /** Appending separator-free text extends the piece being built and closes none. */
  lemma {:induction false} LastAppendPlain(s: string, t: string, sep: char)
    requires sep !in t
    ensures Last(s + t, sep) == Last(s, sep) + t
    ensures Done(s + t, sep) == Done(s, sep)
  {
    if t == [] {
      assert s + t == s;
    } else {
      var t' := t[..|t| - 1];
      LastAppendPlain(s, t', sep);
      assert (s + t)[..|s + t| - 1] == s + t';
    }
  }
  /** A separator closes the piece being built and starts an empty one. */
  lemma SnocSep(s: string, sep: char)
    ensures Last(s + [sep], sep) == []
    ensures Done(s + [sep], sep) == Done(s, sep) + [Last(s, sep)]
  {
    assert (s + [sep])[..|s + [sep]| - 1] == s;
  }
  /** Joining pieces free of the separator and splitting again gives back the pieces. */
  lemma {:induction false} JoinSplit(pieces: seq<string>, sep: char)
    requires |pieces| > 0
    requires forall k :: 0 <= k < |pieces| ==> sep !in pieces[k]
    ensures Split(Join(pieces, sep), sep) == pieces
  {
    var last := pieces[|pieces| - 1];
    if |pieces| == 1 {
      LastAppendPlain([], last, sep);
      assert [] + last == last;
    } else {
      var init := pieces[..|pieces| - 1];
      JoinSplit(init, sep);
      var j := Join(init, sep);
      SnocSep(j, sep);
      LastAppendPlain(j + [sep], last, sep);
      assert Join(pieces, sep) == (j + [sep]) + last;
      assert Last((j + [sep]) + last, sep) == last by {
        assert [] + last == last;
      }
      assert Done(j, sep) + [Last(j, sep)] == init;
      assert init + [last] == pieces;
    }
  }
  /** Joining the pieces with the separator gives back the string. */
  lemma {:induction false} SplitJoin(s: string, sep: char)
    ensures Join(Split(s, sep), sep) == s
  {
    if s != [] {
      var init := s[..|s| - 1];
      SplitJoin(init, sep);
      assert s == init + [s[|s| - 1]];
      if s[|s| - 1] == sep {
        SnocSep(init, sep);
        var p := Split(init, sep);
        assert Split(s, sep) == p + [[]];
        assert (p + [[]])[..|p|] == p;
      } else {
        LastAppendPlain(init, [s[|s| - 1]], sep);
        var d := Done(init, sep);
        if d == [] {
          assert Split(s, sep) == [Last(init, sep) + [s[|s| - 1]]];
          assert Split(init, sep) == [Last(init, sep)];
        } else {
          var q := Split(s, sep);
          assert q[..|q| - 1] == d;
          assert Split(init, sep)[..|d|] == d;
        }
      }
    }
  }

  /** `s.split(sep)` unpacks into exactly three names when `s` holds exactly two separators. */
  lemma ThreePieces(s: string, sep: char)
    ensures |Split(s, sep)| == 3 <==> Count(s, sep) == 2
  {
    SplitCount(s, sep);
  }

  function DigitChar(d: nat): char
    requires d < 10
  {
    "0123456789"[d]
  }

  /** `str(n)` for a natural number: its decimal digits, most significant first, no leading zero. */
  function NatToString(n: nat): (r: string)
    ensures |r| > 0
    ensures forall k :: 0 <= k < |r| ==> '0' <= r[k] <= '9'
  {
    if n < 10 then [DigitChar(n)] else NatToString(n / 10) + [DigitChar(n % 10)]
  }

  /** `int(s)` on a string of decimal digits. */
  function ParseNat(s: string): nat
  {
    if s == [] then 0 else 10 * ParseNat(s[..|s| - 1]) + (if '0' <= s[|s| - 1] <= '9' then s[|s| - 1] as nat - '0' as nat else 0)
  }

  /** `int(str(n)) == n`. */
  lemma {:induction false} ParseNatToString(n: nat)
    ensures ParseNat(NatToString(n)) == n
  {
    if n >= 10 {
      ParseNatToString(n / 10);
      var s := NatToString(n);
      assert s[..|s| - 1] == NatToString(n / 10);
    }
  }

  /** Different numbers print differently. */
  lemma NatToStringInjective(a: nat, b: nat)
    ensures NatToString(a) == NatToString(b) <==> a == b
  {
    ParseNatToString(a);
    ParseNatToString(b);
  }
}
