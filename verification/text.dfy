/**
 Whitespace tokenising and fixed-width padding, the two string operations the
 CONFIG format is built from: the reader splits every line the way Python's
 `str.split()` does, and the writer pads fields the way `str.format` does for
 the `{:Ns}` (left-aligned) and `{:Nd}` / `{:N.Mf}` (right-aligned) specs.
 */
module Text {

  /** The characters Python's `str.isspace()` accepts, by code point. */
  predicate IsSpace(c: char) {
    var n := c as int;
    || n == 0x20
    || 0x09 <= n <= 0x0D
    || 0x1C <= n <= 0x1F
    || n == 0x85 || n == 0xA0 || n == 0x1680
    || 0x2000 <= n <= 0x200A
    || n == 0x2028 || n == 0x2029 || n == 0x202F || n == 0x205F || n == 0x3000
  }

  /** A non-empty run of non-whitespace characters: what `split()` can return. */
  predicate IsToken(s: string) {
    |s| > 0 && forall i :: 0 <= i < |s| ==> !IsSpace(s[i])
  }

  /** `n` blanks. */
  function Spaces(n: nat): (r: string)
    ensures |r| == n
  {
    seq(n, _ => ' ')
  }

  /** Right-justify `s` in a field of `width` characters; never truncates. */
  function PadLeft(s: string, width: nat): (r: string)
    ensures |r| == if |s| < width then width else |s|
  {
    if |s| < width then Spaces(width - |s|) + s else s
  }

  /** Left-justify `s` in a field of `width` characters; never truncates. */
  function PadRight(s: string, width: nat): (r: string)
    ensures |r| == if |s| < width then width else |s|
  {
    if |s| < width then s + Spaces(width - |s|) else s
  }

  /** Length of the longest whitespace-free prefix of `s`. */
  function TokenLength(s: string): (n: nat)
    ensures n <= |s|
    ensures forall i :: 0 <= i < n ==> !IsSpace(s[i])
    ensures n == |s| || IsSpace(s[n])
  {
    if |s| == 0 || IsSpace(s[0]) then 0 else 1 + TokenLength(s[1..])
  }

  /** Python's `s.split()`: the maximal whitespace-free runs of `s`, in order. */
  function Split(s: string): (r: seq<string>)
    ensures forall k :: 0 <= k < |r| ==> IsToken(r[k])
    decreases |s|
  {
    if |s| == 0 then []
    else if IsSpace(s[0]) then Split(s[1..])
    else
      var n := TokenLength(s);
      [s[..n]] + Split(s[n..])
  }

  /** A token followed by whitespace (or nothing) is cut exactly at its end. */
  lemma {:induction false} TokenLengthAppend(a: string, b: string)
    requires |b| == 0 || IsSpace(b[0])
    ensures TokenLength(a + b) == TokenLength(a)
    decreases |a|
  {
    if |a| == 0 {
      assert a + b == b;
    } else if IsSpace(a[0]) {
    } else {
      assert (a + b)[1..] == a[1..] + b;
      TokenLengthAppend(a[1..], b);
    }
  }

  /** Splitting distributes over a concatenation whose right part starts with whitespace. */
  lemma {:induction false} SplitAppend(a: string, b: string)
    requires |b| == 0 || IsSpace(b[0])
    ensures Split(a + b) == Split(a) + Split(b)
    decreases |a|
  {
    if |a| == 0 {
      assert a + b == b;
    } else if IsSpace(a[0]) {
      SplitAppend(a[1..], b);
      SplitAppendSpace(a, b);
    } else {
      TokenLengthPositive(a);
      SplitAppend(a[TokenLength(a)..], b);
      SplitAppendToken(a, b);
    }
  }

  lemma TokenLengthPositive(a: string)
    requires |a| > 0 && !IsSpace(a[0])
    ensures TokenLength(a) > 0
  {
  }

  /** Leading whitespace: one step of `SplitAppend`. */
  lemma SplitAppendSpace(a: string, b: string)
    requires |a| > 0 && IsSpace(a[0])
    requires Split(a[1..] + b) == Split(a[1..]) + Split(b)
    ensures Split(a + b) == Split(a) + Split(b)
  {
    assert Split(a) == Split(a[1..]);
    assert Split(a + b) == Split(a[1..] + b) by {
      assert (a + b)[0] == a[0];
      assert (a + b)[1..] == a[1..] + b;
    }
  }

  /** A leading token: one step of `SplitAppend`. */
  lemma SplitAppendToken(a: string, b: string)
    requires |a| > 0 && !IsSpace(a[0]) && (|b| == 0 || IsSpace(b[0]))
    requires Split(a[TokenLength(a)..] + b) == Split(a[TokenLength(a)..]) + Split(b)
    ensures Split(a + b) == Split(a) + Split(b)
  {
    var n := TokenLength(a);
    SplitTokenFirst(a, b);
    AppendAssoc([a[..n]], Split(a[n..]), Split(b));
  }

  lemma AppendAssoc<T>(x: seq<T>, y: seq<T>, z: seq<T>)
    ensures (x + y) + z == x + (y + z)
  {
  }

  lemma SplitTokenFirst(a: string, b: string)
    requires |a| > 0 && !IsSpace(a[0]) && (|b| == 0 || IsSpace(b[0]))
    ensures var n := TokenLength(a);
            && Split(a + b) == [a[..n]] + Split(a[n..] + b)
            && Split(a) == [a[..n]] + Split(a[n..])
  {
    var n := TokenLength(a);
    var ab := a + b;
    TokenLengthAppend(a, b);
    assert ab[0] == a[0];
    assert ab[..n] == a[..n];
    assert ab[n..] == a[n..] + b;
    assert Split(ab) == [ab[..n]] + Split(ab[n..]);
  }

  /** A run of blanks holds no token. */
  lemma {:induction false} SplitSpaces(n: nat)
    ensures Split(Spaces(n)) == []
    decreases n
  {
    if n > 0 {
      assert Spaces(n)[1..] == Spaces(n - 1);
      SplitSpaces(n - 1);
    }
  }

  /** A token splits to itself. */
  lemma SplitToken(t: string)
    requires IsToken(t)
    ensures Split(t) == [t]
  {
    TokenLengthAppend(t, "");
    assert t + "" == t;
    assert TokenLength(t) == |t| by {
      TokenLengthOfToken(t);
    }
    assert t[..|t|] == t;
    assert t[|t|..] == "";
  }

  lemma {:induction false} TokenLengthOfToken(t: string)
    requires forall i :: 0 <= i < |t| ==> !IsSpace(t[i])
    ensures TokenLength(t) == |t|
    decreases |t|
  {
    if |t| > 0 {
      TokenLengthOfToken(t[1..]);
    }
  }

  /** A right-justified token splits to that token alone. */
  lemma SplitPadLeft(t: string, width: nat)
    requires IsToken(t)
    ensures Split(PadLeft(t, width)) == [t]
  {
    SplitToken(t);
    if |t| < width {
      SplitAfterSpaces(width - |t|, t);
    }
  }

  /** Leading blanks are skipped. */
  lemma {:induction false} SplitAfterSpaces(n: nat, s: string)
    ensures Split(Spaces(n) + s) == Split(s)
    decreases n
  {
    if n > 0 {
      assert (Spaces(n) + s)[0] == ' ';
      assert (Spaces(n) + s)[1..] == Spaces(n - 1) + s;
      SplitAfterSpaces(n - 1, s);
    } else {
      assert Spaces(n) + s == s;
    }
  }

  /** A left-justified token splits to that token alone. */
  lemma SplitPadRight(t: string, width: nat)
    requires IsToken(t)
    ensures Split(PadRight(t, width)) == [t]
  {
    SplitToken(t);
    if |t| < width {
      SplitAppend(t, Spaces(width - |t|));
      SplitSpaces(width - |t|);
    }
  }

  /** A field right-justified with room to spare begins with a blank. */
  lemma PadLeftStartsBlank(t: string, width: nat)
    requires |t| < width
    ensures IsSpace(PadLeft(t, width)[0])
  {
    assert Spaces(width - |t|)[0] == ' ';
  }

  /**
   Three right-justified fields on one line split back into their tokens as
   long as the second and third leave a blank in front.
   */
  lemma SplitThreeFields(t0: string, t1: string, t2: string, width: nat)
    requires IsToken(t0) && IsToken(t1) && IsToken(t2)
    requires |t1| < width && |t2| < width
    ensures Split(PadLeft(t0, width) + PadLeft(t1, width) + PadLeft(t2, width)) == [t0, t1, t2]
  {
    var f0, f1, f2 := PadLeft(t0, width), PadLeft(t1, width), PadLeft(t2, width);
    assert f0 + f1 + f2 == f0 + (f1 + f2);
    SplitAppend(f0, f1 + f2);
    SplitAppend(f1, f2);
    SplitPadLeft(t0, width);
    SplitPadLeft(t1, width);
    SplitPadLeft(t2, width);
  }
}
