/**
 * The pieces of Go's `strings` package that the handler relies on:
 * `TrimPrefix`, `Index` with a one-character separator, and the
 * "split at the first separator" idiom of handler.go, together with a
 * field splitter used to read meta contents back.
 *
 * Go strings are byte strings and the model works on characters, so a
 * position returned by `Index` counts characters where Go's counts bytes;
 * the two differ once a multi-byte character precedes the match. Every
 * separator used here is ASCII, and an ASCII byte never occurs inside the
 * UTF-8 encoding of another character, so the pieces either side of a
 * separator are the same in both.
 */
module Strings {

  predicate HasPrefix(s: string, prefix: string) {
    prefix <= s
  }

  /** `strings.TrimPrefix`: drops `prefix` when `s` starts with it, and otherwise returns `s` unchanged. */
  function TrimPrefix(s: string, prefix: string): (r: string)
    ensures HasPrefix(s, prefix) ==> prefix + r == s
    ensures !HasPrefix(s, prefix) ==> r == s
  {
    if HasPrefix(s, prefix) then s[|prefix|..] else s
  }

  /** A string followed by anything starts with that string, and dropping it leaves the rest. */
  lemma DropPrefix(prefix: string, rest: string)
    ensures HasPrefix(prefix + rest, prefix)
    ensures (prefix + rest)[|prefix|..] == rest
    ensures TrimPrefix(prefix + rest, prefix) == rest
  {
  }

  /** `strings.Index(s, string(c))`: position of the first `c`, or -1 when there is none. */
  function Index(s: string, c: char): (i: int)
    ensures -1 <= i < |s|
    ensures i == -1 <==> c !in s
    ensures 0 <= i ==> s[i] == c && c !in s[..i]
  {
    if s == [] then -1
    else if s[0] == c then 0
    else
      var j := Index(s[1..], c);
      if j == -1 then -1
      else
        assert s[..j + 1] == [s[0]] + s[1..][..j];
        j + 1
  }

  /**
   * Split `s` at its first `sep`: the part before it (which holds no `sep`)
   * and the part from `sep` onward (empty when there is no `sep`).
   */
  function Cut(s: string, sep: char): (r: (string, string))
    ensures r.0 + r.1 == s
    ensures sep !in r.0
    ensures r.1 == [] || r.1[0] == sep
  {
    var i := Index(s, sep);
    if i == -1 then (s, [])
    else
      assert s[..i] + s[i..] == s;
      (s[..i], s[i..])
  }

  /** The three properties of `Cut` determine its result: there is exactly one such split. */
  lemma CutUnique(s: string, sep: char, before: string, from: string)
    requires before + from == s
    requires sep !in before
    requires from == [] || from[0] == sep
    ensures Cut(s, sep) == (before, from)
  {
    var i := Index(s, sep);
    if from == [] {
      assert s == before;
    } else {
      assert s[|before|] == sep;
      assert s[..|before|] == before;
      assert i == |before|;
      assert s[i..] == from;
    }
  }

  /** Every piece of `s` between occurrences of `sep`, left to right. */
  function SplitOn(s: string, sep: char): (parts: seq<string>)
    ensures |parts| >= 1
    ensures forall k | 0 <= k < |parts| :: sep !in parts[k]
  {
    if s == [] then [[]]
    else
      var rest := SplitOn(s[1..], sep);
      if s[0] == sep then [[]] + rest
      else [[s[0]] + rest[0]] + rest[1..]
  }

  /** The pieces glued back together with `sep` between neighbours. */
  function Join(parts: seq<string>, sep: char): (s: string)
    requires |parts| >= 1
    ensures |s| >= |parts| - 1
  {
    if |parts| == 1 then parts[0] else parts[0] + [sep] + Join(parts[1..], sep)
  }

  /** A separator-free prefix joins the first piece. */
  lemma {:induction false} SplitOnFreePrefix(a: string, t: string, sep: char)
    requires sep !in a
    ensures SplitOn(a + t, sep) == [a + SplitOn(t, sep)[0]] + SplitOn(t, sep)[1..]
  {
    if a != [] {
      assert (a + t)[0] == a[0] && (a + t)[1..] == a[1..] + t;
      SplitOnFreePrefix(a[1..], t, sep);
      assert a + SplitOn(t, sep)[0] == [a[0]] + (a[1..] + SplitOn(t, sep)[0]);
    } else {
      var parts := SplitOn(t, sep);
      assert a + t == t && a + parts[0] == parts[0];
      assert [parts[0]] + parts[1..] == parts;
    }
  }

  /** Splitting undoes joining, provided no piece holds the separator. */
  lemma {:induction false} SplitOnJoin(parts: seq<string>, sep: char)
    requires |parts| >= 1
    requires forall k | 0 <= k < |parts| :: sep !in parts[k]
    ensures SplitOn(Join(parts, sep), sep) == parts
  {
    if |parts| == 1 {
      SplitOnFreePrefix(parts[0], [], sep);
      assert parts[0] + [] == parts[0];
    } else {
      var rest := Join(parts[1..], sep);
      SplitOnJoin(parts[1..], sep);
      assert Join(parts, sep) == parts[0] + ([sep] + rest);
      SplitOnFreePrefix(parts[0], [sep] + rest, sep);
      assert ([sep] + rest)[1..] == rest;
      assert SplitOn([sep] + rest, sep) == [[]] + parts[1..];
      assert parts[0] + [] == parts[0];
    }
  }

  /** A character in front of the first piece comes out in front of the join. */
  lemma JoinFirst(c: char, first: string, more: seq<string>, sep: char)
    ensures Join([[c] + first] + more, sep) == [c] + Join([first] + more, sep)
  {
    if more != [] {
      assert ([[c] + first] + more)[1..] == more;
      assert ([first] + more)[1..] == more;
    }
  }

  /** Joining undoes splitting. */
  lemma {:induction false} JoinSplitOn(s: string, sep: char)
    ensures Join(SplitOn(s, sep), sep) == s
  {
    if s != [] {
      var rest := SplitOn(s[1..], sep);
      JoinSplitOn(s[1..], sep);
      if s[0] == sep {
        assert ([[]] + rest)[1..] == rest;
      } else {
        JoinFirst(s[0], rest[0], rest[1..], sep);
        assert [rest[0]] + rest[1..] == rest;
      }
    }
  }

  /** A join of four pieces, written out. */
  lemma JoinFour(a: string, b: string, c: string, e: string, sep: char)
    ensures Join([a, b, c, e], sep) == a + [sep] + b + [sep] + c + [sep] + e
  {
    var f := [a, b, c, e];
    assert f[1..] == [b, c, e] && f[1..][1..] == [c, e] && f[1..][1..][1..] == [e];
    assert Join([c, e], sep) == c + [sep] + e;
    assert Join([b, c, e], sep) == b + [sep] + (c + [sep] + e);
    assert Join(f, sep) == a + [sep] + (b + [sep] + (c + [sep] + e));
  }
}
