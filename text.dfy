/**
 * ASCII character classes and the two string utilities the core leans on:
 * lower-casing (strings.ToLower, restricted to ASCII) and splitting on a
 * one-character separator (strings.Split) with its inverse strings.Join.
 */
module Text {

  predicate IsDigit(c: char) { '0' <= c <= '9' }
  predicate IsUpper(c: char) { 'A' <= c <= 'Z' }
  predicate IsLower(c: char) { 'a' <= c <= 'z' }

  /** The regular-expression class `[a-zA-Z0-9]`. */
  predicate IsAlnum(c: char) { IsDigit(c) || IsUpper(c) || IsLower(c) }

  /** The regular-expression class `[A-Z0-9]`. */
  predicate IsUpperAlnum(c: char) { IsDigit(c) || IsUpper(c) }

  /** One or more characters, all decimal digits (`\d+`). */
  predicate DigitRun(s: string) { |s| > 0 && forall i :: 0 <= i < |s| ==> IsDigit(s[i]) }

  /** One or more characters of `[a-zA-Z0-9]`. */
  predicate AlnumRun(s: string) { |s| > 0 && forall i :: 0 <= i < |s| ==> IsAlnum(s[i]) }

  /** One or more characters of `[A-Z0-9]`. */
  predicate UpperAlnumRun(s: string) { |s| > 0 && forall i :: 0 <= i < |s| ==> IsUpperAlnum(s[i]) }

  function LowerChar(c: char): (r: char)
    ensures !IsUpper(r)
    ensures IsUpper(c) ==> r as int == c as int + 32
    ensures !IsUpper(c) ==> r == c
  {
    if IsUpper(c) then (c as int - 'A' as int + 'a' as int) as char else c
  }

  /** strings.ToLower on the ASCII range: every upper-case ASCII letter becomes lower case. */
  function Lower(s: string): (r: string)
    ensures |r| == |s|
    ensures forall i :: 0 <= i < |s| ==> r[i] == LowerChar(s[i])
  {
    seq(|s|, i requires 0 <= i < |s| => LowerChar(s[i]))
  }

  lemma LowerIdempotent(s: string)
    ensures Lower(Lower(s)) == Lower(s)
  {
  }

  /**
   * strings.Split(s, sep) for a one-character separator: the pieces between
   * consecutive occurrences of `sep`, so "" gives [""] and "a," gives ["a", ""].
   */
  function Split(s: string, sep: char): (parts: seq<string>)
    ensures |parts| >= 1
    ensures forall k :: 0 <= k < |parts| ==> sep !in parts[k]
    decreases |s|
  {
    if s == [] then [[]]
    else
      var rest := Split(s[1..], sep);
      if s[0] == sep then [[]] + rest
      else [[s[0]] + rest[0]] + rest[1..]
  }

  /** strings.Join(parts, sep) for a one-character separator. */
  function Join(parts: seq<string>, sep: char): string
    decreases |parts|
  {
    if |parts| == 0 then []
    else if |parts| == 1 then parts[0]
    else parts[0] + [sep] + Join(parts[1..], sep)
  }

  /** Joining the pieces with the separator gives back the string. */
  lemma {:induction false} JoinSplit(s: string, sep: char)
    ensures Join(Split(s, sep), sep) == s
    decreases |s|
  {
    if s != [] {
      var rest := Split(s[1..], sep);
      JoinSplit(s[1..], sep);
      if s[0] == sep {
        assert Split(s, sep) == [[]] + rest;
        assert ([[]] + rest)[1..] == rest;
      } else {
        var parts := Split(s, sep);
        assert parts == [[s[0]] + rest[0]] + rest[1..];
        if |rest| == 1 {
          assert parts == [[s[0]] + rest[0]];
        } else {
          assert parts[1..] == rest[1..];
          assert Join(rest, sep) == rest[0] + [sep] + Join(rest[1..], sep);
        }
      }
    }
  }

  /** A separator-free string is split into itself alone. */
  lemma {:induction false} SplitNoSeparator(s: string, sep: char)
    requires sep !in s
    ensures Split(s, sep) == [s]
    decreases |s|
  {
    if s != [] {
      SplitNoSeparator(s[1..], sep);
      assert s[0] != sep;
      assert [s[0]] + s[1..] == s;
    }
  }

  /** Splitting `p + [sep] + t` with `p` separator-free cuts at that separator first. */
  lemma {:induction false} SplitAfterPiece(p: string, t: string, sep: char)
    requires sep !in p
    ensures Split(p + [sep] + t, sep) == [p] + Split(t, sep)
    decreases |p|
  {
    var s := p + [sep] + t;
    if p == [] {
      assert s[0] == sep && s[1..] == t;
    } else {
      assert s[0] == p[0] && s[1..] == p[1..] + [sep] + t;
      SplitAfterPiece(p[1..], t, sep);
      assert [p[0]] + p[1..] == p;
    }
  }

  /** Splitting the join of separator-free pieces gives back the pieces. */
  lemma {:induction false} SplitJoin(parts: seq<string>, sep: char)
    requires |parts| >= 1
    requires forall k :: 0 <= k < |parts| ==> sep !in parts[k]
    ensures Split(Join(parts, sep), sep) == parts
    decreases |parts|
  {
    if |parts| == 1 {
      SplitNoSeparator(parts[0], sep);
    } else {
      SplitJoin(parts[1..], sep);
      SplitAfterPiece(parts[0], Join(parts[1..], sep), sep);
    }
  }

  /** The string splits into a single piece exactly when it has no separator. */
  lemma SplitSingle(s: string, sep: char)
    ensures |Split(s, sep)| == 1 <==> sep !in s
  {
    if sep in s {
      JoinSplit(s, sep);
    } else {
      SplitNoSeparator(s, sep);
    }
  }

  /**
   * The first two pieces lie in `s` in order: piece 0 is the text before the
   * first separator, piece 1 the text between the first and the second (or
   * the end of the string).
   */
  lemma FirstTwoPieces(s: string, sep: char)
    requires sep in s
    ensures var parts := Split(s, sep);
      |parts| >= 2 &&
      var n0 := |parts[0]|;
      var n1 := n0 + 1 + |parts[1]|;
      n1 <= |s| && s[..n0] == parts[0] && s[n0] == sep && s[n0 + 1..n1] == parts[1] &&
      (n1 == |s| || s[n1] == sep)
  {
    var parts := Split(s, sep);
    SplitSingle(s, sep);
    JoinSplit(s, sep);
    var tail := Join(parts[1..], sep);
    assert s == parts[0] + [sep] + tail;
    if |parts| == 2 {
      assert tail == parts[1];
    } else {
      assert tail == parts[1] + [sep] + Join(parts[2..], sep);
    }
    var n0 := |parts[0]|;
    assert s[n0 + 1..] == tail;
  }
}
