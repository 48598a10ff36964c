/**
 * Filter strings handed to ffmpeg, as sequences of tokens.
 *
 * Characters are kept as they are; numbers are kept as tokens so that their
 * decimal rendering (Python's str of a float or an int) stays abstract.
 * Split and Join model Python's str.split / str.join on one separator
 * character, and SplitJoin is their round trip.
 */
module Tokens {

  datatype Token = Chr(c: char) | Num(r: real) | Int(n: int)

  /** A literal string as tokens. */
  function Text(s: string): (t: seq<Token>)
    ensures |t| == |s|
    ensures forall i :: 0 <= i < |s| ==> t[i] == Chr(s[i])
  {
    seq(|s|, i requires 0 <= i < |s| => Chr(s[i]))
  }

  lemma TextAppend(a: string, b: string)
    ensures Text(a + b) == Text(a) + Text(b)
  {
    assert |Text(a + b)| == |Text(a) + Text(b)|;
    forall i | 0 <= i < |a + b|
      ensures Text(a + b)[i] == (Text(a) + Text(b))[i]
    {
      if i < |a| {
        assert (a + b)[i] == a[i];
      } else {
        assert (a + b)[i] == b[i - |a|];
      }
    }
  }

  /** A literal string without the character c yields tokens without Chr(c). */
  lemma TextAvoids(s: string, c: char)
    requires c !in s
    ensures Chr(c) !in Text(s)
  {
  }

  /** sep.join(parts) */
  function Join(parts: seq<seq<Token>>, sep: char): seq<Token>
  {
    if |parts| == 0 then []
    else if |parts| == 1 then parts[0]
    else parts[0] + [Chr(sep)] + Join(parts[1..], sep)
  }

  /** s.split(sep): the maximal runs between occurrences of sep; never empty. */
  function Split(t: seq<Token>, sep: char): (r: seq<seq<Token>>)
    ensures |r| >= 1
    ensures Chr(sep) !in t ==> r == [t]
  {
    if t == [] then [[]]
    else
      var rest := Split(t[1..], sep);
      if t[0] == Chr(sep) then [[]] + rest
      else
        assert t == [t[0]] + t[1..];
        [[t[0]] + rest[0]] + rest[1..]
  }

  /** The field before the first separator is split off intact. */
  lemma {:induction false} SplitAt(a: seq<Token>, sep: char, b: seq<Token>)
    requires Chr(sep) !in a
    ensures Split(a + [Chr(sep)] + b, sep) == [a] + Split(b, sep)
  {
    var t := a + [Chr(sep)] + b;
    if a == [] {
      assert t == [Chr(sep)] + b;
      assert t[1..] == b;
    } else {
      assert t[0] == a[0];
      assert t[1..] == a[1..] + [Chr(sep)] + b;
      SplitAt(a[1..], sep, b);
      assert [a[0]] + a[1..] == a;
    }
  }

  /** Splitting a join gives the parts back when no part holds the separator. */
  lemma {:induction false} SplitJoin(parts: seq<seq<Token>>, sep: char)
    requires |parts| >= 1
    requires forall k :: 0 <= k < |parts| ==> Chr(sep) !in parts[k]
    ensures Split(Join(parts, sep), sep) == parts
  {
    if |parts| > 1 {
      SplitJoin(parts[1..], sep);
      SplitAt(parts[0], sep, Join(parts[1..], sep));
      assert [parts[0]] + parts[1..] == parts;
    }
  }

  /** Join keeps out every character that no part and not the separator holds. */
  lemma {:induction false} JoinAvoids(parts: seq<seq<Token>>, sep: char, c: char)
    requires c != sep
    requires forall k :: 0 <= k < |parts| ==> Chr(c) !in parts[k]
    ensures Chr(c) !in Join(parts, sep)
  {
    if |parts| > 1 {
      JoinAvoids(parts[1..], sep, c);
    }
  }

  /** The name of a filter stage `name=options`: what precedes the first '='. */
  function StageName(stage: seq<Token>): seq<Token>
  {
    Split(stage, '=')[0]
  }

  lemma StageNameOf(name: string, rest: seq<Token>)
    requires '=' !in name
    ensures StageName(Text(name) + [Chr('=')] + rest) == Text(name)
  {
    TextAvoids(name, '=');
    SplitAt(Text(name), '=', rest);
  }
}
