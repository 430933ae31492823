/** UTF-8 text as byte sequences (RFC 3629, sections 3 and 4): what the byte windows of `Output` may cut, and where. */
module Utf8 {
  /** A byte; `Text` holds no value outside 0..255. */
  type Byte = int
  type Bytes = seq<Byte>

  /** A byte that never starts a character: `(b & 0xc0) === 0x80`. */
  predicate Continuation(b: Byte) {
    0x80 <= b < 0xC0
  }

  /** The number of bytes of the character that `b` starts; 0 if none starts with it. */
  function Width(b: Byte): nat {
    if 0 <= b < 0x80 then 1
    else if 0xC2 <= b < 0xE0 then 2
    else if 0xE0 <= b < 0xF0 then 3
    else if 0xF0 <= b < 0xF5 then 4
    else 0
  }

  /** One encoded character: no overlong form, no surrogate, nothing above U+10FFFF. */
  predicate Character(c: Bytes) {
    && 1 <= |c| == Width(c[0])
    && (forall i | 1 <= i < |c| :: Continuation(c[i]))
    && (c[0] == 0xE0 ==> 0xA0 <= c[1])
    && (c[0] == 0xED ==> c[1] < 0xA0)
    && (c[0] == 0xF0 ==> 0x90 <= c[1])
    && (c[0] == 0xF4 ==> c[1] < 0x90)
  }

  /** Valid UTF-8: a sequence of characters. */
  predicate Text(b: Bytes) {
    b == [] ||
    var n := Width(b[0]);
    1 <= n <= |b| && Character(b[..n]) && Text(b[n..])
  }

  /** A position between two characters. */
  predicate Boundary(b: Bytes, i: int) {
    0 <= i <= |b| && (i == |b| || !Continuation(b[i]))
  }

  /** Text starts with a character. */
  lemma TextStart(b: Bytes)
    requires Text(b)
    ensures Boundary(b, 0)
  {
  }

  lemma Slices(b: Bytes, n: nat, i: nat)
    requires n <= i <= |b|
    ensures b[n..][i - n..] == b[i..] && b[n..][..i - n] == b[..i][n..] && b[..i][..n] == b[..n]
    ensures i < |b| ==> b[n..][i - n] == b[i]
  {
  }

  /** A character of text has no boundary inside. */
  lemma NoBoundaryInside(b: Bytes, i: nat)
    requires b != [] && Text(b) && 0 < i < Width(b[0])
    ensures !Boundary(b, i)
  {
    assert Continuation(b[..Width(b[0])][i]);
  }

  /** Cutting text at a boundary leaves text on both sides, so each side decodes to what it decoded to before. */
  lemma {:induction false} SplitText(b: Bytes, i: nat)
    requires Text(b) && Boundary(b, i)
    ensures Text(b[..i]) && Text(b[i..])
  {
    if i == 0 {
      assert b[0..] == b;
    } else {
      var n := Width(b[0]);
      if i < n {
        NoBoundaryInside(b, i);
      }
      Slices(b, n, i);
      SplitText(b[n..], i - n);
    }
  }

  lemma JoinSlices(a: Bytes, b: Bytes, n: nat)
    requires n <= |a|
    ensures (a + b)[..n] == a[..n] && (a + b)[n..] == a[n..] + b
  {
  }

  /** Text followed by text is text, and the seam is a boundary. */
  lemma {:induction false} JoinText(a: Bytes, b: Bytes)
    requires Text(a) && Text(b)
    ensures Text(a + b) && Boundary(a + b, |a|)
  {
    TextStart(b);
    if a == [] {
      assert a + b == b;
    } else {
      var n := Width(a[0]);
      JoinText(a[n..], b);
      JoinSlices(a, b, n);
    }
  }

  /** A boundary of the tail is a boundary of the whole, shifted. */
  lemma BoundaryShift(p: Bytes, t: Bytes, i: nat)
    requires i <= |t|
    ensures Boundary(p + t, |p| + i) <==> Boundary(t, i)
  {
  }

  /** No character is longer than four bytes: some boundary lies at most three bytes before any position. */
  lemma {:induction false} BoundaryBefore(b: Bytes, i: nat)
    requires Text(b) && i <= |b|
    ensures exists j :: i - 3 <= j <= i && Boundary(b, j)
  {
    if i == 0 || i == |b| {
      assert Boundary(b, i);
    } else {
      var n := Width(b[0]);
      if i < n {
        assert i - 3 <= 0 <= i && Boundary(b, 0);
      } else {
        BoundaryBefore(b[n..], i - n);
        var j :| i - n - 3 <= j <= i - n && Boundary(b[n..], j);
        assert b == b[..n] + b[n..];
        BoundaryShift(b[..n], b[n..], j);
        assert Boundary(b, n + j);
      }
    }
  }

  /** Some boundary lies at most three bytes after any position. */
  lemma {:induction false} BoundaryAfter(b: Bytes, i: nat)
    requires Text(b) && i <= |b|
    ensures exists j :: i <= j <= i + 3 && Boundary(b, j)
  {
    if i == 0 || i == |b| {
      assert Boundary(b, i);
    } else {
      var n := Width(b[0]);
      assert b == b[..n] + b[n..];
      if i < n {
        TextStart(b[n..]);
        BoundaryShift(b[..n], b[n..], 0);
        assert i <= n <= i + 3 && Boundary(b, n);
      } else {
        BoundaryAfter(b[n..], i - n);
        var j :| i - n <= j <= i - n + 3 && Boundary(b[n..], j);
        BoundaryShift(b[..n], b[n..], j);
        assert Boundary(b, n + j);
      }
    }
  }

  /** A one-byte character ends at a boundary. */
  lemma {:induction false} AfterAscii(b: Bytes, i: nat)
    requires Text(b) && i < |b| && 0 <= b[i] < 0x80
    ensures Boundary(b, i + 1)
  {
    var n := Width(b[0]);
    assert forall k | 1 <= k < n :: b[..n][k] == b[k];
    assert b == b[..n] + b[n..];
    if i < n {
      assert i == 0 && n == 1;
      TextStart(b[n..]);
      BoundaryShift(b[..n], b[n..], 0);
    } else {
      AfterAscii(b[n..], i - n);
      BoundaryShift(b[..n], b[n..], i - n + 1);
    }
  }
}
