/**
 * The parts of Go's `strings` and `fmt` packages the plug package relies on,
 * restricted to ASCII case mapping.
 */
module Text {

  predicate IsUpperAscii(c: char) { 'A' <= c <= 'Z' }

  predicate IsLowerAscii(c: char) { 'a' <= c <= 'z' }

  /** `unicode.ToUpper` on the ASCII range; every other character is kept. */
  function UpperChar(c: char): (r: char)
    ensures !IsLowerAscii(r)
    ensures IsLowerAscii(c) ==> r as int == c as int - 32
    ensures !IsLowerAscii(c) ==> r == c
  {
    if IsLowerAscii(c) then (c as int - 32) as char else c
  }

  /** `unicode.ToLower` on the ASCII range; every other character is kept. */
  function LowerChar(c: char): (r: char)
    ensures !IsUpperAscii(r)
    ensures IsUpperAscii(c) ==> r as int == c as int + 32
    ensures !IsUpperAscii(c) ==> r == c
  {
    if IsUpperAscii(c) then (c as int + 32) as char else c
  }

  /** `strings.ToUpper`. */
  function ToUpper(s: string): (r: string)
    ensures |r| == |s|
    ensures forall i :: 0 <= i < |s| ==> r[i] == UpperChar(s[i])
    ensures forall i :: 0 <= i < |r| ==> !IsLowerAscii(r[i])
  {
    seq(|s|, i requires 0 <= i < |s| => UpperChar(s[i]))
  }

  /** `strings.ToLower`. */
  function ToLower(s: string): (r: string)
    ensures |r| == |s|
    ensures forall i :: 0 <= i < |s| ==> r[i] == LowerChar(s[i])
    ensures forall i :: 0 <= i < |r| ==> !IsUpperAscii(r[i])
  {
    seq(|s|, i requires 0 <= i < |s| => LowerChar(s[i]))
  }

  /** A string is its own upper-case form exactly when it has no lower-case letter; so `ToUpper` is idempotent. */
  lemma ToUpperFixed(s: string)
    ensures ToUpper(s) == s <==> forall i :: 0 <= i < |s| ==> !IsLowerAscii(s[i])
    ensures ToUpper(ToUpper(s)) == ToUpper(s)
  {
    if forall i :: 0 <= i < |s| ==> !IsLowerAscii(s[i]) {
      assert forall i :: 0 <= i < |s| ==> ToUpper(s)[i] == s[i];
    }
    var u := ToUpper(s);
    assert forall i :: 0 <= i < |u| ==> ToUpper(u)[i] == u[i];
  }

  /** A string is its own lower-case form exactly when it has no upper-case letter; so `ToLower` is idempotent. */
  lemma ToLowerFixed(s: string)
    ensures ToLower(s) == s <==> forall i :: 0 <= i < |s| ==> !IsUpperAscii(s[i])
    ensures ToLower(ToLower(s)) == ToLower(s)
  {
    if forall i :: 0 <= i < |s| ==> !IsUpperAscii(s[i]) {
      assert forall i :: 0 <= i < |s| ==> ToLower(s)[i] == s[i];
    }
    var l := ToLower(s);
    assert forall i :: 0 <= i < |l| ==> ToLower(l)[i] == l[i];
  }

  lemma ToUpperAppend(a: string, b: string)
    ensures ToUpper(a + b) == ToUpper(a) + ToUpper(b)
  {
  }

  lemma ToLowerAppend(a: string, b: string)
    ensures ToLower(a + b) == ToLower(a) + ToLower(b)
  {
  }

  /** `strings.Replace(s, old, new, -1)` for one-character `old` and `new`. */
  function ReplaceAll(s: string, from: char, to: char): (r: string)
    ensures |r| == |s|
    ensures forall i :: 0 <= i < |s| ==> r[i] == (if s[i] == from then to else s[i])
    ensures from != to ==> from !in r
    ensures from !in s ==> r == s
  {
    seq(|s|, i requires 0 <= i < |s| => if s[i] == from then to else s[i])
  }

  /** `strings.TrimPrefix`. */
  function TrimPrefix(s: string, prefix: string): (r: string)
    ensures prefix <= s ==> r == s[|prefix|..]
    ensures !(prefix <= s) ==> r == s
    ensures prefix <= s ==> prefix + r == s
    ensures IsSuffix(r, s)
  {
    if prefix <= s then s[|prefix|..] else s
  }

  predicate IsSuffix(t: string, s: string) {
    |t| <= |s| && s[|s| - |t|..] == t
  }

  /** Number of occurrences of `c` in `s`. */
  function Count(s: string, c: char): nat
  {
    if s == [] then 0 else (if s[0] == c then 1 else 0) + Count(s[1..], c)
  }

  /**
   * `strings.Split(s, sep)` for a one-character separator: the pieces between
   * separators, so the empty string gives one empty piece.
   */
  function Split(s: string, sep: char): (r: seq<string>)
    ensures |r| >= 1
    ensures forall i :: 0 <= i < |r| ==> sep !in r[i]
  {
    if s == [] then [""]
    else if s[0] == sep then [""] + Split(s[1..], sep)
    else
      var rest := Split(s[1..], sep);
      [[s[0]] + rest[0]] + rest[1..]
  }

  /** `strings.Join`. */
  function Join(xs: seq<string>, sep: string): string
  {
    if |xs| == 0 then ""
    else if |xs| == 1 then xs[0]
    else xs[0] + sep + Join(xs[1..], sep)
  }

  /** `fmt.Sprint` of string operands: no separators are inserted between strings. */
  function Sprint(v: seq<string>): string
  {
    if v == [] then "" else v[0] + Sprint(v[1..])
  }

  /** `fmt.Sprintln`: operands separated by blanks, then a newline. */
  function Sprintln(v: seq<string>): (r: string)
    ensures |r| >= 1 && r[|r| - 1] == '\n'
  {
    Join(v, " ") + "\n"
  }

  lemma {:induction false} JoinPrepend(a: string, xs: seq<string>, sep: string)
    requires |xs| >= 1
    ensures Join([a + xs[0]] + xs[1..], sep) == a + Join(xs, sep)
  {
    var ys := [a + xs[0]] + xs[1..];
    assert ys[1..] == xs[1..];
    if |xs| == 1 {
    } else {
      calc {
        Join(ys, sep);
        (a + xs[0]) + sep + Join(xs[1..], sep);
        a + (xs[0] + sep + Join(xs[1..], sep));
        a + Join(xs, sep);
      }
    }
  }

  /** Joining the pieces of a split on the same separator gives the input back. */
  lemma {:induction false} JoinSplit(s: string, sep: char)
    ensures Join(Split(s, sep), [sep]) == s
  {
    if s == [] {
    } else if s[0] == sep {
      JoinSplit(s[1..], sep);
      var rest := Split(s[1..], sep);
      assert ([""] + rest)[1..] == rest;
      assert Join([""] + rest, [sep]) == "" + [sep] + Join(rest, [sep]);
      assert s == [sep] + s[1..];
    } else {
      JoinSplit(s[1..], sep);
      var rest := Split(s[1..], sep);
      JoinPrepend([s[0]], rest, [sep]);
      assert s == [s[0]] + s[1..];
    }
  }

  lemma {:induction false} SplitNoSep(s: string, sep: char)
    requires sep !in s
    ensures Split(s, sep) == [s]
  {
    if s != [] {
      assert sep !in s[1..];
      SplitNoSep(s[1..], sep);
      assert [s[0]] + s[1..] == s;
    }
  }

  lemma {:induction false} SplitAfterPiece(a: string, sep: char, rest: string)
    requires sep !in a
    ensures Split(a + [sep] + rest, sep) == [a] + Split(rest, sep)
  {
    if a == [] {
      assert a + [sep] + rest == [sep] + rest;
      assert ([sep] + rest)[1..] == rest;
    } else {
      var s := a + [sep] + rest;
      assert s[0] == a[0] && s[0] != sep;
      assert s[1..] == a[1..] + [sep] + rest;
      assert sep !in a[1..];
      SplitAfterPiece(a[1..], sep, rest);
      assert [a[0]] + a[1..] == a;
    }
  }

  /**
   * Splitting a join gives the pieces back exactly when there is at least one
   * piece and no piece contains the separator.
   */
  lemma {:induction false} SplitJoin(xs: seq<string>, sep: char)
    requires |xs| >= 1
    requires forall i :: 0 <= i < |xs| ==> sep !in xs[i]
    ensures Split(Join(xs, [sep]), sep) == xs
  {
    if |xs| == 1 {
      SplitNoSep(xs[0], sep);
    } else {
      SplitJoin(xs[1..], sep);
      SplitAfterPiece(xs[0], sep, Join(xs[1..], [sep]));
      assert [xs[0]] + xs[1..] == xs;
    }
  }

  /** A split yields one more piece than the input has separators. */
  lemma {:induction false} SplitLength(s: string, sep: char)
    ensures |Split(s, sep)| == Count(s, sep) + 1
  {
    if s != [] {
      SplitLength(s[1..], sep);
    }
  }
}
