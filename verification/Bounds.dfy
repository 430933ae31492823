/** `boundOutput` and its range helpers: the window of whole lines that output limits keep of a text. */
module Bounds {
  import opened Utf8

  const NEWLINE: Byte := 0x0A

  datatype Retain = Head | Tail

  datatype Limits = Limits(maxBytes: nat, maxLines: nat, retain: Retain)

  /** A part of a text with its own size, and the bytes and lines of the text it does not have. */
  datatype Slice = Slice(text: Bytes, bytes: nat, droppedBytes: nat, droppedLines: nat)

  /** Newlines among the first `n` bytes. */
  function NewlinesBefore(b: Bytes, n: nat): nat
    requires n <= |b|
  {
    if n == 0 then 0 else NewlinesBefore(b, n - 1) + if b[n - 1] == NEWLINE then 1 else 0
  }

  function Newlines(b: Bytes): nat {
    NewlinesBefore(b, |b|)
  }

  predicate EndsWithNewline(b: Bytes) {
    |b| > 0 && b[|b| - 1] == NEWLINE
  }

  /** How many lines a text has: its newlines, and one more if anything follows the last of them. */
  function LineCount(b: Bytes): nat {
    if b == [] then 0 else Newlines(b) + if EndsWithNewline(b) then 0 else 1
  }

  // ─── what the window is ───

  /** `b[..e]` consists of whole lines of `b`. */
  predicate WholePrefix(b: Bytes, e: int) {
    0 <= e <= |b| && (e == 0 || e == |b| || b[e - 1] == NEWLINE)
  }

  predicate WholeSuffix(b: Bytes, s: int) {
    0 <= s <= |b| && (s == 0 || s == |b| || b[s - 1] == NEWLINE)
  }

  predicate Fits(b: Bytes, limits: Limits) {
    |b| <= limits.maxBytes && LineCount(b) <= limits.maxLines
  }

  /** The first line alone is longer than `max` bytes. */
  predicate LongFirstLine(b: Bytes, max: nat) {
    |b| > max && forall k | 0 <= k < max :: b[k] != NEWLINE
  }

  /** The last line alone, with its terminator, is longer than `max` bytes. */
  predicate LongLastLine(b: Bytes, max: nat) {
    |b| > max && forall k | |b| - max - 1 <= k < |b| - 1 :: b[k] != NEWLINE
  }

  predicate Open(limits: Limits) {
    limits.maxBytes > 0 && limits.maxLines > 0
  }

  /** `e` ends the head window: the longest fitting prefix of whole lines, or a cut of a first line that is too long. */
  ghost predicate HeadCut(b: Bytes, limits: Limits, e: int) {
    && 0 <= e <= |b|
    && if Open(limits) && LongFirstLine(b, limits.maxBytes) then
         && Boundary(b, e) && e <= limits.maxBytes
         && forall e' | Boundary(b, e') && e' > e :: e' > limits.maxBytes
       else
         && WholePrefix(b, e) && Fits(b[..e], limits)
         && forall e' | WholePrefix(b, e') && e' > e :: !Fits(b[..e'], limits)
  }

  /**
   * `s` starts the tail window: the longest fitting suffix of whole lines, or a cut of a last line that is too long.
   */
  ghost predicate TailCut(b: Bytes, limits: Limits, s: int) {
    && 0 <= s <= |b|
    && if Open(limits) && LongLastLine(b, limits.maxBytes) then
         && Boundary(b, s) && |b| - s <= limits.maxBytes
         && forall s' | Boundary(b, s') && s' < s :: |b| - s' > limits.maxBytes
       else
         && WholeSuffix(b, s) && Fits(b[s..], limits)
         && forall s' | WholeSuffix(b, s') && s' < s :: !Fits(b[s'..], limits)
  }

  /** `r` is the window of `b`, with exactly what it left out. */
  ghost predicate IsBound(b: Bytes, limits: Limits, r: Slice) {
    && r.bytes <= |b| && r.bytes == |r.text|
    && (limits.retain.Head? ==> HeadCut(b, limits, r.bytes) && r.text == b[..r.bytes])
    && (limits.retain.Tail? ==> TailCut(b, limits, |b| - r.bytes) && r.text == b[|b| - r.bytes..])
    && r.droppedBytes + r.bytes == |b|
    && r.droppedLines + LineCount(r.text) == LineCount(b)
  }

  // ─── counting ───

  lemma {:induction false} NewlinesBeforeJoin(a: Bytes, b: Bytes, n: nat)
    requires n <= |a| + |b|
    ensures NewlinesBefore(a + b, n) == if n <= |a| then NewlinesBefore(a, n)
                                        else Newlines(a) + NewlinesBefore(b, n - |a|)
  {
    if n > 0 {
      NewlinesBeforeJoin(a, b, n - 1);
    }
  }

  lemma NewlinesAdd(a: Bytes, b: Bytes)
    ensures Newlines(a + b) == Newlines(a) + Newlines(b)
  {
    NewlinesBeforeJoin(a, b, |a + b|);
  }

  /** No newline between two positions: as many before one as before the other. */
  lemma {:induction false} NewlinesBetween(b: Bytes, i: nat, j: nat)
    requires i <= j <= |b|
    ensures NewlinesBefore(b, i) <= NewlinesBefore(b, j)
    ensures (forall k | i <= k < j :: b[k] != NEWLINE) <==> NewlinesBefore(b, i) == NewlinesBefore(b, j)
  {
    if i < j {
      NewlinesBetween(b, i, j - 1);
    }
  }

  lemma NewlinesOfSlice(b: Bytes, i: nat, j: nat)
    requires i <= j <= |b|
    ensures Newlines(b[i..j]) == NewlinesBefore(b, j) - NewlinesBefore(b, i)
  {
    var front, mid, rest := b[..i], b[i..j], b[j..];
    assert b == front + (mid + rest);
    NewlinesBeforeJoin(front, mid + rest, i);
    NewlinesBeforeJoin(front, mid + rest, j);
    NewlinesBeforeJoin(mid, rest, j - i);
  }

  lemma NewlinesOfPrefix(b: Bytes, i: nat)
    requires i <= |b|
    ensures Newlines(b[..i]) == NewlinesBefore(b, i)
  {
    NewlinesOfSlice(b, 0, i);
    assert b[0..i] == b[..i];
  }

  lemma NewlinesOfSuffix(b: Bytes, i: nat)
    requires i <= |b|
    ensures Newlines(b[i..]) == Newlines(b) - NewlinesBefore(b, i)
  {
    NewlinesOfSlice(b, i, |b|);
    assert b[i..|b|] == b[i..];
  }

  lemma NewlinesJoin(a: Bytes, b: Bytes)
    ensures Newlines(a + b) == Newlines(a) + Newlines(b)
    ensures b != [] ==> EndsWithNewline(a + b) == EndsWithNewline(b)
    ensures LineCount(a + b) >= LineCount(b) && LineCount(a + b) >= Newlines(a)
  {
    NewlinesAdd(a, b);
    if b == [] {
      assert a + b == a;
    }
  }

  /** A longer prefix that keeps whole lines holds more lines. */
  lemma LongerPrefix(b: Bytes, e: nat, e': nat)
    requires e < e' && WholePrefix(b, e')
    ensures LineCount(b[..e']) > Newlines(b[..e])
  {
    NewlinesOfPrefix(b, e);
    NewlinesOfPrefix(b, e');
    NewlinesBetween(b, e, e');
  }

  /** A prefix has no more lines than the text. */
  lemma PrefixLines(b: Bytes, e: nat)
    requires e <= |b|
    ensures LineCount(b[..e]) <= LineCount(b)
  {
    NewlinesOfPrefix(b, e);
    NewlinesBetween(b, e, |b|);
  }

  /** The text without its final terminator. */
  function Body(b: Bytes): (end: nat)
    ensures end <= |b|
  {
    if EndsWithNewline(b) then |b| - 1 else |b|
  }

  /** The terminators at or after `i` that do not end the last line. */
  function Terminators(b: Bytes, i: nat): int
    requires i <= |b|
  {
    NewlinesBefore(b, Body(b)) - NewlinesBefore(b, i)
  }

  /** The lines of a suffix, by the terminators before its last line ends. */
  lemma SuffixTerminators(b: Bytes, s: nat)
    requires s < |b|
    ensures s <= Body(b) && LineCount(b[s..]) == Terminators(b, s) + 1
  {
    NewlinesOfSuffix(b, s);
  }

  /** A suffix that starts later has no more lines, and fewer if a line ends in between. */
  lemma LaterSuffix(b: Bytes, s: nat, s': nat)
    requires s <= s' <= |b|
    ensures LineCount(b[s'..]) <= LineCount(b[s..])
    ensures s < s' < |b| && b[s' - 1] == NEWLINE ==> LineCount(b[s'..]) < LineCount(b[s..])
  {
    if s' < |b| {
      SuffixTerminators(b, s);
      SuffixTerminators(b, s');
      NewlinesBetween(b, s, s');
    }
  }

  /** A suffix has no more lines than the text. */
  lemma SuffixLines(b: Bytes, s: nat)
    requires s <= |b|
    ensures LineCount(b[s..]) <= LineCount(b)
  {
    LaterSuffix(b, 0, s);
    assert b[0..] == b;
  }

  /** A text has one window. */
  lemma BoundUnique(b: Bytes, limits: Limits, r: Slice, r': Slice)
    requires IsBound(b, limits, r) && IsBound(b, limits, r')
    ensures r == r'
  {
    if limits.retain.Head? {
      assert !(r.bytes < r'.bytes) && !(r'.bytes < r.bytes);
    } else {
      var s, s' := |b| - r.bytes, |b| - r'.bytes;
      assert !(s < s') && !(s' < s);
    }
  }

  /** A cut line is one line. */
  lemma CutLineCount(b: Bytes, i: nat, j: nat)
    requires i <= j <= |b| && forall k | i <= k < j - 1 :: b[k] != NEWLINE
    ensures LineCount(b[i..j]) <= 1
  {
    NewlinesOfSlice(b, i, j);
    if i < j {
      NewlinesBetween(b, i, j - 1);
    }
  }

  /** The head window is text within the limits; a cut line keeps all but at most three of the allowed bytes. */
  lemma HeadWindowFits(b: Bytes, limits: Limits, e: nat)
    requires Text(b) && HeadCut(b, limits, e)
    ensures Text(b[..e]) && Fits(b[..e], limits)
    ensures Open(limits) && LongFirstLine(b, limits.maxBytes) ==> e >= limits.maxBytes - 3
  {
    if Open(limits) && LongFirstLine(b, limits.maxBytes) {
      BoundaryBefore(b, limits.maxBytes);
      CutLineCount(b, 0, e);
      assert b[0..e] == b[..e];
    } else if 0 < e < |b| {
      AfterAscii(b, e - 1);
    }
    TextStart(b);
    SplitText(b, e);
  }

  /** A line starts at a boundary. */
  lemma LineStartBoundary(b: Bytes, s: nat)
    requires Text(b) && WholeSuffix(b, s)
    ensures Boundary(b, s)
  {
    TextStart(b);
    if 0 < s < |b| {
      AfterAscii(b, s - 1);
    }
  }

  /** The same of the tail window. */
  lemma TailWindowFits(b: Bytes, limits: Limits, s: nat)
    requires Text(b) && TailCut(b, limits, s)
    ensures Text(b[s..]) && Fits(b[s..], limits)
    ensures Open(limits) && LongLastLine(b, limits.maxBytes) ==> |b| - s >= limits.maxBytes - 3
  {
    if Open(limits) && LongLastLine(b, limits.maxBytes) {
      TailCutSize(b, limits, s);
    } else {
      LineStartBoundary(b, s);
    }
    SplitText(b, s);
  }

  lemma TailCutSize(b: Bytes, limits: Limits, s: nat)
    requires Text(b) && TailCut(b, limits, s)
    requires Open(limits) && LongLastLine(b, limits.maxBytes)
    ensures |b| - s >= limits.maxBytes - 3 && Fits(b[s..], limits)
  {
    BoundaryAfter(b, |b| - limits.maxBytes);
    var j :| |b| - limits.maxBytes <= j <= |b| - limits.maxBytes + 3 && Boundary(b, j);
    assert j < s ==> |b| - j > limits.maxBytes;
    CutLineCount(b, s, |b|);
    ToTheEnd(b, s);
  }

  lemma ToTheEnd(b: Bytes, s: nat)
    requires s <= |b|
    ensures b[s..|b|] == b[s..]
  {
  }

  // ─── the windows of a growing stream ───

  /** A text that holds more than one head window: nothing after it can change the window. */
  predicate HeadFull(b: Bytes, limits: Limits) {
    |b| > limits.maxBytes || Newlines(b) >= limits.maxLines
  }

  /** A text too long to be a tail window whole: the window of any text ending in it lies inside it. */
  predicate TailFull(b: Bytes, limits: Limits) {
    |b| > limits.maxBytes || Newlines(b) > limits.maxLines
  }

  lemma HeadFullTooLong(b: Bytes, rest: Bytes, limits: Limits, e: int)
    requires HeadFull(b, limits) && Open(limits) && |b| < e && WholePrefix(b + rest, e)
    ensures !Fits((b + rest)[..e], limits)
  {
    assert (b + rest)[..|b|] == b;
    LongerPrefix(b + rest, |b|, e);
  }

  /**
   * A prefix of a text is a prefix of the text with more after it, as long as it is not the whole unterminated text.
   */
  lemma {:induction false} HeadWindowStable(b: Bytes, rest: Bytes, limits: Limits, e: int)
    requires HeadFull(b, limits) && Open(limits) && HeadCut(b, limits, e)
    ensures HeadCut(b + rest, limits, e)
  {
    var max, all := limits.maxBytes, b + rest;
    assert forall k | 0 <= k <= |b| :: all[..k] == b[..k];
    if LongFirstLine(b, max) {
      assert LongFirstLine(all, max);
      assert e <= max < |b|;
      assert forall k | 0 <= k < |b| :: Boundary(all, k) <==> Boundary(b, k);
    } else {
      // The first line ends within `b`, or `b` is longer than `max` bytes.
      NewlinesBetween(b, 0, |b|);
      assert forall k | 0 <= k < |b| :: all[k] == b[k];
      if e == |b| {
        assert b[..e] == b && LineCount(b) <= limits.maxLines <= Newlines(b);
      }
      forall e' | WholePrefix(all, e') && e' > e ensures !Fits(all[..e'], limits) {
        if e' > |b| {
          HeadFullTooLong(b, rest, limits, e');
        } else {
          assert WholePrefix(b, e');
        }
      }
    }
  }

  lemma SliceShift(before: Bytes, b: Bytes, k: nat)
    requires k <= |b|
    ensures (before + b)[|before| + k..] == b[k..]
    ensures k < |b| ==> (before + b)[|before| + k] == b[k]
  {
  }

  lemma CutShifts(before: Bytes, b: Bytes, max: nat, s: int)
    requires 0 <= s <= |b| && |b| > max && Boundary(b, s)
    requires forall s' | Boundary(b, s') && s' < s :: |b| - s' > max
    ensures Boundary(before + b, |before| + s)
    ensures forall s' | Boundary(before + b, s') && s' < |before| + s :: |before + b| - s' > max
  {
    BoundaryShift(before, b, s);
    forall s' | Boundary(before + b, s') && s' < |before| + s ensures |before + b| - s' > max {
      if s' >= |before| {
        BoundaryShift(before, b, s' - |before|);
      }
    }
  }

  /** Before a full window, nothing more fits. */
  lemma NothingMoreFits(before: Bytes, b: Bytes, limits: Limits, s: int, s': int)
    requires TailFull(b, limits) && 0 < s <= |b| && 0 <= s' < |before| + s && WholeSuffix(before + b, s')
    requires forall r | WholeSuffix(b, r) && r < s :: !Fits(b[r..], limits)
    ensures !Fits((before + b)[s'..], limits)
  {
    if s' <= |before| {
      LaterSuffix(before + b, s', |before|);
      SliceShift(before, b, 0);
      assert b[0..] == b;
    } else {
      SliceShift(before, b, s' - |before|);
      SliceShift(before, b, s' - |before| - 1);
      assert WholeSuffix(b, s' - |before|);
    }
  }

  /** The tail window of a text that holds more than one is its window after anything. */
  lemma TailWindowStable(before: Bytes, b: Bytes, limits: Limits, s: int)
    requires TailFull(b, limits) && Open(limits) && TailCut(b, limits, s)
    ensures TailCut(before + b, limits, |before| + s)
  {
    var max, all, p := limits.maxBytes, before + b, |before|;
    assert forall k | 0 <= k < |b| :: all[p + k] == b[k];
    if LongLastLine(b, max) {
      assert LongLastLine(all, max);
      CutShifts(before, b, max, s);
    } else {
      assert !LongLastLine(all, max) by {
        if |b| <= max {
          LastLineStartsInside(b, limits);
        }
      }
      assert b[0..] == b;
      SliceShift(before, b, s);
      forall s' | WholeSuffix(all, s') && s' < p + s ensures !Fits(all[s'..], limits) {
        NothingMoreFits(before, b, limits, s, s');
      }
    }
  }

  /** More newlines than one line has: one of them ends an earlier line. */
  lemma LastLineStartsInside(b: Bytes, limits: Limits)
    requires Newlines(b) > limits.maxLines >= 1
    ensures exists i :: 0 <= i < |b| - 1 && b[i] == NEWLINE
  {
    NewlinesBetween(b, 0, |b| - 1);
  }

  /** With a closed limit the window is empty. */
  lemma ClosedWindow(b: Bytes, limits: Limits)
    requires !Open(limits)
    ensures HeadCut(b, limits, 0) && TailCut(b, limits, |b|)
  {
    forall e | WholePrefix(b, e) && e > 0 ensures !Fits(b[..e], limits) {
      LongerPrefix(b, 0, e);
    }
    forall s | WholeSuffix(b, s) && s < |b| ensures !Fits(b[s..], limits) {
      SuffixTerminators(b, s);
    }
  }

  // ─── how it is computed ───

  /** The first newline at or after `from`, or -1. */
  function IndexOf(b: Bytes, from: nat): (i: int)
    ensures i == -1 || from <= i < |b|
    ensures i != -1 ==> b[i] == NEWLINE && forall k | from <= k < i :: b[k] != NEWLINE
    ensures i == -1 ==> forall k | from <= k < |b| :: b[k] != NEWLINE
    decreases |b| - from
  {
    if from >= |b| then -1
    else if b[from] == NEWLINE then from
    else IndexOf(b, from + 1)
  }

  /** The last newline at or before `last`, or -1. */
  function LastIndexOf(b: Bytes, last: int): (i: int)
    requires last < |b|
    ensures -1 <= i <= last || (i == -1 && last < 0)
    ensures i != -1 ==> b[i] == NEWLINE && forall k | i < k <= last :: b[k] != NEWLINE
    ensures i == -1 ==> forall k | 0 <= k <= last :: b[k] != NEWLINE
    decreases last + 1
  {
    if last < 0 then -1
    else if b[last] == NEWLINE then last
    else LastIndexOf(b, last - 1)
  }

  /** `end` is where a character begins or the text ends, at most `index`, with no such place in between. */
  method CharacterEnd(bytes: Bytes, index: nat) returns (end: nat)
    requires Text(bytes) && index < |bytes|
    ensures Boundary(bytes, end) && end <= index
    ensures forall e | Boundary(bytes, e) && e > end :: e > index
  {
    TextStart(bytes);
    end := index;
    while end > 0 && Continuation(bytes[end])
      invariant end <= index
      invariant forall e | Boundary(bytes, e) && e > end :: e > index
    {
      end := end - 1;
    }
  }

  /** `start` is where a character begins or the text ends, at least `index`, with no such place in between. */
  method CharacterStart(bytes: Bytes, index: nat) returns (start: nat)
    requires index <= |bytes|
    ensures Boundary(bytes, start) && index <= start
    ensures forall s | Boundary(bytes, s) && s < start :: s < index
  {
    start := index;
    while start < |bytes| && Continuation(bytes[start])
      invariant index <= start <= |bytes|
      invariant forall s | Boundary(bytes, s) && s < start :: s < index
    {
      start := start + 1;
    }
  }

  /** The end of the prefix that `maxLines` allows. */
  method HeadLines(bytes: Bytes, maxLines: nat) returns (end: nat)
    requires maxLines > 0
    ensures end <= |bytes| && WholePrefix(bytes, end) && (bytes != [] ==> end > 0)
    ensures LineCount(bytes[..end]) <= maxLines
    ensures end < |bytes| ==> Newlines(bytes[..end]) == maxLines
  {
    end := |bytes|;
    assert bytes[..end] == bytes;
    var lines, index := 0, IndexOf(bytes, 0);
    NewlinesBetween(bytes, 0, if index == -1 then |bytes| else index);
    while index != -1
      invariant -1 <= index < |bytes| && lines < maxLines && end == |bytes|
      invariant index != -1 ==> bytes[index] == NEWLINE && NewlinesBefore(bytes, index) == lines
      invariant index == -1 ==> Newlines(bytes) == lines
      decreases if index == -1 then 0 else |bytes| - index
    {
      lines := lines + 1;
      if lines == maxLines {
        end := index + 1;
        NewlinesOfPrefix(bytes, end);
        return;
      }
      var next := IndexOf(bytes, index + 1);
      NewlinesBetween(bytes, index + 1, if next == -1 then |bytes| else next);
      index := next;
    }
  }

  method HeadRange(bytes: Bytes, limits: Limits) returns (from: nat, to: nat)
    requires Text(bytes)
    ensures from == 0 && HeadCut(bytes, limits, to)
  {
    from := 0;
    if !Open(limits) {
      ClosedWindow(bytes, limits);
      return 0, 0;
    }
    var end := HeadLines(bytes, limits.maxLines);
    to := end;
    forall e | WholePrefix(bytes, e) && e > end ensures LineCount(bytes[..e]) > limits.maxLines {
      LongerPrefix(bytes, end, e);
    }
    if end > limits.maxBytes {
      var newline := LastIndexOf(bytes, limits.maxBytes - 1);
      if newline == -1 {
        to := CharacterEnd(bytes, limits.maxBytes);
      } else {
        to := newline + 1;
        NewlinesOfPrefix(bytes, to);
        PrefixLines(bytes[..end], to);
        assert bytes[..end][..to] == bytes[..to];
      }
    }
  }

  /** Where the last `maxLines` lines begin; nothing after a final newline makes a line of its own. */
  method TailLines(bytes: Bytes, maxLines: nat) returns (start: nat)
    requires maxLines > 0
    ensures start <= |bytes| && WholeSuffix(bytes, start) && (bytes != [] ==> start < |bytes|)
    ensures LineCount(bytes[start..]) <= maxLines
    ensures start > 0 ==> bytes[start - 1] == NEWLINE && LineCount(bytes[start..]) == maxLines
  {
    var last := Body(bytes) - 1;
    start := 0;
    var lines, index := 1, LastIndexOf(bytes, last);
    NewlinesBetween(bytes, index + 1, last + 1);
    while index != -1
      invariant -1 <= index <= last && 1 <= lines <= maxLines && start == 0
      invariant index != -1 ==> bytes[index] == NEWLINE
      invariant Terminators(bytes, index + 1) == lines - 1
    {
      if lines == maxLines {
        start := index + 1;
        SuffixTerminators(bytes, start);
        return;
      }
      lines := lines + 1;
      var next := if index == 0 then -1 else LastIndexOf(bytes, index - 1);
      NewlinesBetween(bytes, next + 1, index);
      index := next;
    }
    if bytes != [] {
      SuffixTerminators(bytes, 0);
    }
  }

  method TailRange(bytes: Bytes, limits: Limits) returns (from: nat, to: nat)
    requires Text(bytes)
    ensures to == |bytes| && TailCut(bytes, limits, from)
  {
    to := |bytes|;
    if !Open(limits) {
      ClosedWindow(bytes, limits);
      return |bytes|, |bytes|;
    }
    var start := TailLines(bytes, limits.maxLines);
    from := start;
    forall s | WholeSuffix(bytes, s) && s < start ensures LineCount(bytes[s..]) > limits.maxLines {
      LaterSuffix(bytes, s, start);
    }
    if |bytes| - start > limits.maxBytes {
      from := TailBytes(bytes, limits, start);
    }
  }

  /** Where the window starts if the last lines allowed are too long: at a later line, or inside the last one. */
  method TailBytes(bytes: Bytes, limits: Limits, ghost start: nat) returns (from: nat)
    requires Text(bytes) && Open(limits) && start < |bytes| && |bytes| - start > limits.maxBytes
    requires WholeSuffix(bytes, start) && LineCount(bytes[start..]) <= limits.maxLines
    ensures TailCut(bytes, limits, from)
  {
    var inside := |bytes| - limits.maxBytes;
    var newline := IndexOf(bytes, inside - 1);
    // A line begins past this newline, inside the bytes allowed; without one, only a piece of the last line fits.
    if newline != -1 && newline + 1 < |bytes| {
      from := newline + 1;
      LaterSuffix(bytes, start, from);
    } else {
      from := CharacterStart(bytes, inside);
    }
  }

  /** `r` is the one slice of the text that `IsBound` describes: whole lines, as many as the limits let in. */
  method BoundOutput(text: Bytes, limits: Limits) returns (r: Slice)
    requires Text(text)
    ensures IsBound(text, limits, r)
  {
    var kept;
    if limits.retain.Head? {
      var from, to := HeadRange(text, limits);
      PrefixLines(text, to);
      kept := text[..to];
    } else {
      var from, to := TailRange(text, limits);
      SuffixLines(text, from);
      kept := text[from..];
    }
    r := Slice(kept, |kept|, |text| - |kept|, LineCount(text) - LineCount(kept));
  }
}
