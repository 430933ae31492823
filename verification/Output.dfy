/** `OutputBuffer`: the bounded window of a whole output stream, kept while most of the stream is forgotten. */
module Output {
  import opened Utf8
  import opened Bounds

  /** A count of the text left out between two chunks, so that totals can include what was never seen. */
  datatype Skip = NoSkip | Skipped(bytes: nat, newlines: nat, endsWithNewline: bool)

  datatype BoundedOutput = BoundedOutput(text: Bytes, droppedBytes: nat, droppedLines: nat)

  datatype PushResult = Pushed(accepted: bool) | SkipNeedsTail

  datatype Chunk = Chunk(text: Bytes, bytes: nat, newlines: nat)

  /** `b[i..]` without the control characters U+0000-0008, U+000B-001F and U+FFF9-FFFB; tabs and newlines stay. */
  function SanitizeFrom(b: Bytes, i: nat): Bytes
    decreases |b| - i
  {
    if i >= |b| then []
    else if b[i] < 0x09 || 0x0B <= b[i] < 0x20 then SanitizeFrom(b, i + 1)
    else if i + 3 <= |b| && b[i] == 0xEF && b[i + 1] == 0xBF && 0xB9 <= b[i + 2] < 0xBC then SanitizeFrom(b, i + 3)
    else [b[i]] + SanitizeFrom(b, i + 1)
  }

  function Sanitize(b: Bytes): Bytes {
    SanitizeFrom(b, 0)
  }

  function Lines(newlines: nat, terminated: bool): nat {
    newlines + if terminated then 0 else 1
  }

  function Joined(chunks: seq<Chunk>): Bytes {
    if chunks == [] then [] else chunks[0].text + Joined(chunks[1..])
  }

  predicate Measures(skip: Skip, omitted: Bytes) {
    match skip
    case NoSkip => omitted == []
    case Skipped(bytes, newlines, ends) =>
      bytes == |omitted| && newlines == Newlines(omitted) && (bytes > 0 ==> ends == EndsWithNewline(omitted))
  }

  lemma {:induction false} JoinedPush(chunks: seq<Chunk>, c: Chunk)
    ensures Joined(chunks + [c]) == Joined(chunks) + c.text
  {
    if chunks == [] {
      assert chunks + [c] == [c];
      assert Joined([c]) == c.text + Joined([]);
    } else {
      assert (chunks + [c])[1..] == chunks[1..] + [c];
      JoinedPush(chunks[1..], c);
    }
  }

  /** Each chunk counts its own text, which is not larger than `bound`. */
  ghost predicate Counts(chunks: seq<Chunk>, bound: nat) {
    forall c | c in chunks :: Text(c.text) && 0 < c.bytes == |c.text| <= bound && c.newlines == Newlines(c.text)
  }

  lemma {:induction false} JoinedText(chunks: seq<Chunk>, bound: nat)
    requires Counts(chunks, bound)
    ensures Text(Joined(chunks))
  {
    if chunks != [] {
      JoinedText(chunks[1..], bound);
      JoinText(chunks[0].text, Joined(chunks[1..]));
    }
  }

  lemma JoinedOne(chunks: seq<Chunk>)
    requires |chunks| == 1
    ensures Joined(chunks) == chunks[0].text
  {
    assert Joined(chunks[1..]) == [];
  }

  lemma TailFullGrows(b: Bytes, more: Bytes, limits: Limits)
    ensures TailFull(b, limits) ==> TailFull(b + more, limits)
  {
    NewlinesJoin(b, more);
  }

  /** A stream of which only a part is stored: what is forgotten precedes it for tail, follows it for head. */
  function Whole(retain: Retain, forgotten: Bytes, stored: Bytes): Bytes {
    if retain.Tail? then forgotten + stored else stored + forgotten
  }

  lemma WholeStores(retain: Retain, forgotten: Bytes, stored: Bytes, text: Bytes)
    requires retain.Tail? || forgotten == []
    ensures Whole(retain, forgotten, stored + text) == Whole(retain, forgotten, stored) + text
  {
    if retain.Tail? {
      assert forgotten + (stored + text) == forgotten + stored + text;
    } else {
      assert stored + text + [] == stored + text && stored + [] == stored;
    }
  }

  lemma WholeForgets(forgotten: Bytes, stored: Bytes, text: Bytes)
    ensures Whole(Head, forgotten + text, stored) == Whole(Head, forgotten, stored) + text
  {
    assert stored + (forgotten + text) == stored + forgotten + text;
  }

  lemma WholeShifts(forgotten: Bytes, first: Bytes, rest: Bytes)
    ensures Whole(Tail, forgotten + first, rest) == Whole(Tail, forgotten, first + rest)
  {
    assert forgotten + first + rest == forgotten + (first + rest);
  }

  lemma NothingPushed(stream: Bytes)
    ensures stream + [] == stream && [] + stream == stream
  {
  }

  lemma PushedInOrder(stream: Bytes, flushed: Bytes, omitted: Bytes, text: Bytes)
    ensures stream + flushed + omitted + text == stream + (flushed + omitted + text)
    ensures omitted == [] ==> flushed + omitted + text == flushed + text
  {
    assert flushed + [] + text == flushed + text;
  }

  /** Omitted output follows everything stored, and is forgotten with it. */
  lemma OmittedWhole(forgotten: Bytes, stored: Bytes, omitted: Bytes)
    requires Text(forgotten) && Text(stored) && Text(omitted) && omitted != []
    ensures var whole := Whole(Tail, forgotten, stored) + omitted;
            && Text(whole) && Whole(Tail, whole, []) == whole
            && |whole| == |Whole(Tail, forgotten, stored)| + |omitted|
            && EndsWithNewline(whole) == EndsWithNewline(omitted)
            && Newlines(whole) == Newlines(Whole(Tail, forgotten, stored)) + Newlines(omitted)
  {
    JoinText(forgotten, stored);
    JoinText(forgotten + stored, omitted);
    NewlinesJoin(forgotten + stored, omitted);
    NothingPushed(forgotten + stored + omitted);
  }

  /** The window `kept` of a part of the stream, with what it leaves out of the whole stream. */
  ghost function Widened(kept: Slice, stream: Bytes): Slice
    requires kept.bytes <= |stream| && LineCount(kept.text) <= LineCount(stream)
  {
    Slice(kept.text, kept.bytes, |stream| - kept.bytes, LineCount(stream) - LineCount(kept.text))
  }

  /**
   * The tail window of what is stored is the tail window of the stream: all that the snapshot computes from what is
   * stored, and from the totals, is what bounding the whole stream would give.
   */
  lemma StoredTailWindow(forgotten: Bytes, stored: Bytes, limits: Limits, kept: Slice)
    requires limits.retain.Tail? && IsBound(stored, limits, kept)
    requires forgotten == [] || TailFull(stored, limits)
    ensures LineCount(kept.text) <= LineCount(Whole(Tail, forgotten, stored))
    ensures IsBound(Whole(Tail, forgotten, stored), limits, Widened(kept, Whole(Tail, forgotten, stored)))
  {
    var s := |stored| - kept.bytes;
    TailCutWidens(forgotten, stored, limits, s);
    SuffixOfJoin(forgotten, stored, s);
    TailBound(forgotten + stored, limits, kept, |forgotten| + s);
  }

  lemma TailBound(whole: Bytes, limits: Limits, kept: Slice, s: nat)
    requires limits.retain.Tail? && s <= |whole| && TailCut(whole, limits, s)
    requires kept.text == whole[s..] && kept.bytes == |whole| - s
    ensures LineCount(kept.text) <= LineCount(whole) && IsBound(whole, limits, Widened(kept, whole))
  {
    SuffixLines(whole, s);
  }

  lemma SuffixOfJoin(a: Bytes, b: Bytes, i: nat)
    requires i <= |b|
    ensures (a + b)[|a| + i..] == b[i..]
  {
  }

  lemma PrefixOfJoin(a: Bytes, b: Bytes, i: nat)
    requires i <= |a|
    ensures (a + b)[..i] == a[..i]
  {
  }

  lemma TailCutWidens(before: Bytes, b: Bytes, limits: Limits, s: nat)
    requires TailCut(b, limits, s) && (before == [] || TailFull(b, limits))
    ensures TailCut(before + b, limits, |before| + s)
  {
    if before == [] {
      assert before + b == b;
    } else if Open(limits) {
      TailWindowStable(before, b, limits, s);
    } else {
      ClosedWindow(before + b, limits);
      assert |b[s..]| == 0;
    }
  }

  lemma HeadCutWidens(b: Bytes, rest: Bytes, limits: Limits, e: nat)
    requires HeadCut(b, limits, e) && (rest == [] || HeadFull(b, limits))
    ensures HeadCut(b + rest, limits, e)
  {
    if rest == [] {
      assert b + rest == b;
    } else if Open(limits) {
      HeadWindowStable(b, rest, limits, e);
    } else {
      ClosedWindow(b + rest, limits);
      assert |b[..e]| == 0;
    }
  }

  /** The same of the head window. */
  lemma StoredHeadWindow(stored: Bytes, forgotten: Bytes, limits: Limits, kept: Slice)
    requires limits.retain.Head? && IsBound(stored, limits, kept)
    requires forgotten == [] || HeadFull(stored, limits)
    ensures LineCount(kept.text) <= LineCount(Whole(Head, forgotten, stored))
    ensures IsBound(Whole(Head, forgotten, stored), limits, Widened(kept, Whole(Head, forgotten, stored)))
  {
    HeadCutWidens(stored, forgotten, limits, kept.bytes);
    PrefixOfJoin(stored, forgotten, kept.bytes);
    PrefixLines(stored + forgotten, kept.bytes);
  }

  /**
   * `start` is the largest index from which the text is over one of the limits, in bytes or in newlines; 0 if the whole
   * text is over neither.
   */
  method TailMargin(bytes: Bytes, limits: Limits) returns (start: nat)
    requires Text(bytes)
    ensures Boundary(bytes, start) && |bytes| - start <= limits.maxBytes + 4
    ensures start > 0 ==> TailFull(bytes[start..], limits)
    ensures forall s | Boundary(bytes, s) && s > start :: !TailFull(bytes[s..], limits)
  {
    TextStart(bytes);
    var byteStart := 0;
    if |bytes| > limits.maxBytes {
      byteStart := CharacterEnd(bytes, |bytes| - limits.maxBytes - 1);
      BoundaryBefore(bytes, |bytes| - limits.maxBytes - 1);
    }
    var lineStart := LineMargin(bytes, limits.maxLines);
    start := if byteStart < lineStart then lineStart else byteStart;
    NewlinesOfSuffix(bytes, start);
    forall s | Boundary(bytes, s) && s > start ensures !TailFull(bytes[s..], limits) {
      NewlinesBetween(bytes, lineStart + 1, s);
      NewlinesOfSuffix(bytes, s);
    }
  }

  /** The margin, and the `lead` before it. */
  method Margin(text: Bytes, limits: Limits) returns (margin: Bytes, ghost lead: Bytes)
    requires Text(text)
    ensures Text(lead) && Text(margin) && lead + margin == text && |margin| <= limits.maxBytes + 4
    ensures if lead == [] then margin == text else TailFull(margin, limits)
  {
    var start := TailMargin(text, limits);
    SplitText(text, start);
    margin, lead := text[start..], text[..start];
  }

  /** The last newline with `maxLines` more after it, or 0. */
  method LineMargin(bytes: Bytes, maxLines: nat) returns (lineStart: nat)
    ensures lineStart <= |bytes|
    ensures lineStart > 0 ==>
              Boundary(bytes, lineStart) && Newlines(bytes) - NewlinesBefore(bytes, lineStart) > maxLines
    ensures bytes != [] ==>
              lineStart < |bytes| && Newlines(bytes) - NewlinesBefore(bytes, lineStart + 1) <= maxLines
  {
    lineStart := 0;
    var newlines, index := 0, LastIndexOf(bytes, |bytes| - 1);
    NewlinesBetween(bytes, index + 1, |bytes|);
    while index != -1
      invariant -1 <= index < |bytes| && lineStart == 0
      invariant index != -1 ==> bytes[index] == NEWLINE
      invariant Newlines(bytes) - NewlinesBefore(bytes, index + 1) == newlines <= maxLines
    {
      newlines := newlines + 1;
      if newlines > maxLines {
        lineStart := index;
        return;
      }
      var next := if index == 0 then -1 else LastIndexOf(bytes, index - 1);
      NewlinesBetween(bytes, next + 1, index);
      index := next;
    }
    if bytes != [] {
      NewlinesBetween(bytes, 0, 1);
    }
  }

  class OutputBuffer {
    const limits: Limits
    /** What is left of the stream: a prefix when the head is kept, a suffix when the tail is. `Valid` says how much. */
    var chunks: seq<Chunk>
    var storedBytes: nat
    var storedNewlines: nat
    var full: bool
    var totalBytes: nat
    var totalNewlines: nat
    var endsWithNewline: bool

    /** The part of the stream that is not stored: what precedes it for tail, what follows it for head. */
    ghost var forgotten: Bytes
    /** The size of the largest accepted text. */
    ghost var largest: nat

    ghost function Stored(): Bytes
      reads this
    {
      Joined(chunks)
    }

    /** Everything accepted or omitted so far. */
    ghost function Stream(): Bytes
      reads this
    {
      Whole(limits.retain, forgotten, Stored())
    }

    ghost function ChunkBound(): nat
      reads this
    {
      if limits.retain.Head? then limits.maxBytes + largest
      else if largest > limits.maxBytes + 4 then largest
      else limits.maxBytes + 4
    }

    /** The counters of what is stored. */
    ghost predicate Counted()
      reads this
    {
      && Counts(chunks, ChunkBound())
      && storedBytes == |Stored()| && storedNewlines == Newlines(Stored())
      && (limits.retain.Tail? && |chunks| > 1 ==> storedBytes - chunks[0].bytes <= limits.maxBytes + 1)
      && (limits.retain.Head? ==> storedBytes <= limits.maxBytes + if full then largest else 0)
    }

    /** The counters of the whole stream. */
    ghost predicate Totaled()
      reads this
    {
      && Text(forgotten) && totalBytes == |Stream()| && totalNewlines == Newlines(Stream())
      && endsWithNewline == (Stream() == [] || EndsWithNewline(Stream()))
    }

    /** Whatever is forgotten can never be in the window again. */
    ghost predicate Settled()
      reads this
    {
      && (limits.retain.Tail? ==> !full && (forgotten == [] || TailFull(Stored(), limits)))
      && (limits.retain.Head? ==> if full then HeadFull(Stored(), limits) else forgotten == [])
    }

    ghost predicate Valid()
      reads this
    {
      Counted() && Totaled() && Settled()
    }

    constructor (limits: Limits)
      ensures Valid() && this.limits == limits && Stream() == [] && largest == 0
    {
      this.limits := limits;
      chunks, storedBytes, storedNewlines := [], 0, 0;
      full := false;
      totalBytes, totalNewlines, endsWithNewline := 0, 0, true;
      forgotten, largest := [], 0;
    }

    /**
     * One chunk. The stream grows by `flushed`, the end of an earlier chunk that was undecided until now; by `omitted`,
     * which only `skip` measures; and by `text`. A `skip` is refused when the head is kept; otherwise its caller sees
     * to it that `text` alone is over the limits.
     */
    method Push(flushed: Bytes, text: Bytes, skip: Skip, ghost omitted: Bytes) returns (r: PushResult)
      requires Valid() && Text(flushed) && Text(text) && Text(omitted) && Measures(skip, omitted)
      requires omitted != [] ==> TailFull(text, limits)
      modifies this
      ensures Valid()
      ensures r == if skip.Skipped? && limits.retain.Head? then SkipNeedsTail
                   else Pushed(skip.Skipped? || flushed + text != [])
      ensures Stream() == old(Stream()) + if r.SkipNeedsTail? then [] else flushed + omitted + text
      ensures old(largest) <= largest <= if old(largest) > |flushed + text| then old(largest) else |flushed + text|
    {
      ghost var before := Stream();
      PushedInOrder(before, flushed, omitted, text);
      if skip.NoSkip? {
        JoinText(flushed, text);
        var accepted := Accept(flushed + text);
        return Pushed(accepted);
      }
      if limits.retain.Head? {
        NothingPushed(before);
        return SkipNeedsTail;
      }
      var _ := Accept(flushed);
      OmitOutput(skip, omitted);
      NothingPushed(text);
      var _ := Accept(text);
      r := Pushed(true);
    }

    /** The totals grow by text never seen, and the stored chunks are forgotten: what comes next is over the limits. */
    method OmitOutput(skip: Skip, ghost omitted: Bytes)
      requires Valid() && limits.retain.Tail? && skip.Skipped? && Text(omitted) && Measures(skip, omitted)
      modifies this
      ensures Counted() && Totaled() && !full && Stream() == old(Stream()) + omitted && largest == old(largest)
      ensures if omitted == [] then Settled() else Stored() == []
    {
      if skip.bytes == 0 {
        NothingPushed(Stream());
      } else {
        CountOmitted(skip, omitted);
      }
    }

    method CountOmitted(skip: Skip, ghost omitted: Bytes)
      requires Counted() && Totaled() && limits.retain.Tail? && skip.Skipped? && omitted != []
      requires Text(omitted) && Measures(skip, omitted)
      modifies this
      ensures Counted() && Totaled() && full == old(full) && Stream() == old(Stream()) + omitted
      ensures largest == old(largest) && Stored() == []
    {
      ghost var whole := Stream() + omitted;
      JoinedText(chunks, ChunkBound());
      OmittedWhole(forgotten, Stored(), omitted);
      totalBytes, totalNewlines := totalBytes + skip.bytes, totalNewlines + skip.newlines;
      endsWithNewline := skip.endsWithNewline;
      forgotten := whole;
      chunks, storedBytes, storedNewlines := [], 0, 0;
    }

    /** The stream grows by a text; what is stored of it is trimmed to what later snapshots can show. */
    method Accept(text: Bytes) returns (accepted: bool)
      requires Counted() && Totaled() && Text(text)
      requires Settled() || (limits.retain.Tail? && !full && TailFull(Stored() + text, limits))
      modifies this
      ensures Valid() && accepted == (text != []) && Stream() == old(Stream()) + text
      ensures largest == if old(largest) > |text| then old(largest) else |text|
    {
      if text == [] {
        NothingPushed(Stream());
        NothingPushed(Stored());
        return false;
      }
      Total(text);
      if full {
        JoinText(forgotten, text);
        WholeForgets(forgotten, Stored(), text);
        forgotten := forgotten + text;
      } else {
        TailFullGrows(Stored(), text, limits);
        Keep(text);
      }
      accepted := true;
    }

    /** Counts a text in the totals. */
    method Total(text: Bytes)
      requires Totaled() && text != []
      modifies `totalBytes, `totalNewlines, `endsWithNewline, `largest
      ensures totalBytes == |Stream() + text| && totalNewlines == Newlines(Stream() + text)
      ensures endsWithNewline == EndsWithNewline(Stream() + text)
      ensures largest == if old(largest) > |text| then old(largest) else |text|
    {
      NewlinesJoin(Stream(), text);
      totalBytes, totalNewlines := totalBytes + |text|, totalNewlines + Newlines(text);
      endsWithNewline := EndsWithNewline(text);
      largest := if largest > |text| then largest else |text|;
    }

    /** Stores a text while the window is not full. */
    method Keep(text: Bytes)
      requires !full && 0 < |text| <= largest && Text(text) && Text(forgotten) && Counts(chunks, ChunkBound())
      requires storedBytes == |Stored()| && storedNewlines == Newlines(Stored())
      requires limits.retain.Head? ==> storedBytes <= limits.maxBytes && forgotten == []
      requires limits.retain.Tail? ==> forgotten == [] || TailFull(Stored() + text, limits)
      modifies `chunks, `storedBytes, `storedNewlines, `full, `forgotten
      ensures Counted() && Settled() && Text(forgotten) && Stream() == old(Stream()) + text
    {
      WholeStores(limits.retain, forgotten, Stored(), text);
      Store(text);
      if limits.retain.Head? {
        // A head that is over the limits has all that a snapshot can show.
        full := storedBytes > limits.maxBytes || storedNewlines >= limits.maxLines;
      } else {
        DropChunks();
      }
    }

    /** Stores a text as the last chunk. */
    method Store(text: Bytes)
      requires Counts(chunks, ChunkBound()) && 0 < |text| <= largest && Text(text)
      requires storedBytes == |Stored()| && storedNewlines == Newlines(Stored())
      modifies `chunks, `storedBytes, `storedNewlines
      ensures Counts(chunks, ChunkBound()) && Stored() == old(Stored()) + text
      ensures storedBytes == |Stored()| && storedNewlines == Newlines(Stored())
      ensures chunks == old(chunks) + [Chunk(text, |text|, Newlines(text))]
    {
      JoinedPush(chunks, Chunk(text, |text|, Newlines(text)));
      NewlinesJoin(Stored(), text);
      chunks := chunks + [Chunk(text, |text|, Newlines(text))];
      storedBytes, storedNewlines := storedBytes + |text|, storedNewlines + Newlines(text);
    }

    /** Forgets whole chunks from the front, as long as `TailFull` holds of what remains. */
    method DropChunks()
      requires limits.retain.Tail? && chunks != [] && Counts(chunks, ChunkBound()) && Text(forgotten)
      requires storedBytes == |Stored()| && storedNewlines == Newlines(Stored())
      modifies `chunks, `storedBytes, `storedNewlines, `forgotten
      ensures Counted() && Text(forgotten) && Stream() == old(Stream())
      ensures (forgotten == old(forgotten) && Stored() == old(Stored())) || TailFull(Stored(), limits)
    {
      while |chunks| > 1
        invariant Counts(chunks, ChunkBound()) && Text(forgotten) && Stream() == old(Stream())
        invariant storedBytes == |Stored()| && storedNewlines == Newlines(Stored())
        invariant (forgotten == old(forgotten) && Stored() == old(Stored())) || TailFull(Stored(), limits)
        decreases |chunks|
      {
        var first := chunks[0];
        var bytesAfter := storedBytes - first.bytes;
        NewlinesJoin(first.text, Joined(chunks[1..]));
        var newlinesAfter := storedNewlines - first.newlines;
        if bytesAfter <= limits.maxBytes + 1 && newlinesAfter <= limits.maxLines + 1 {
          break;
        }
        JoinText(forgotten, first.text);
        WholeShifts(forgotten, first.text, Joined(chunks[1..]));
        forgotten := forgotten + first.text;
        chunks, storedBytes, storedNewlines := chunks[1..], bytesAfter, newlinesAfter;
      }
    }

    /**
     * `window` is the bound of the whole stream, though most of it is forgotten; `r` has that window's sanitized text
     * and its counts.
     */
    method Snapshot() returns (r: BoundedOutput, ghost window: Slice)
      requires Valid()
      modifies `chunks, `storedBytes, `storedNewlines, `forgotten
      ensures Valid() && Stream() == old(Stream())
      ensures IsBound(Stream(), limits, window)
      ensures r == BoundedOutput(Sanitize(window.text), window.droppedBytes, window.droppedLines)
      ensures limits.retain.Tail? ==> storedBytes <= limits.maxBytes + 4
    {
      var stored := JoinChunks();
      JoinedText(chunks, ChunkBound());
      var kept;
      kept, window := BoundStored(stored);
      r := Report(stored, kept, window);
      if limits.retain.Tail? {
        CompactTail(stored);
      } else if |chunks| > 1 {
        CompactHead(stored);
      }
    }

    /** The window of what is stored is the window of the stream. */
    method BoundStored(stored: Bytes) returns (kept: Slice, ghost window: Slice)
      requires Valid() && stored == Stored() && Text(stored)
      ensures IsBound(Stream(), limits, window)
      ensures kept.text == window.text && kept.bytes == window.bytes
      ensures kept.droppedLines + LineCount(kept.text) == LineCount(stored)
    {
      kept := BoundOutput(stored, limits);
      if limits.retain.Tail? {
        StoredTailWindow(forgotten, stored, limits, kept);
      } else {
        StoredHeadWindow(stored, forgotten, limits, kept);
      }
      window := Widened(kept, Stream());
    }

    /** What a snapshot reports, from the totals and the window of what is stored. */
    method Report(stored: Bytes, kept: Slice, ghost window: Slice) returns (r: BoundedOutput)
      requires Valid() && stored == Stored()
      requires window.droppedBytes + window.bytes == |Stream()|
      requires window.droppedLines + LineCount(window.text) == LineCount(Stream())
      requires kept.text == window.text && kept.bytes == window.bytes
      requires kept.droppedLines + LineCount(kept.text) == LineCount(stored)
      ensures r == BoundedOutput(Sanitize(window.text), window.droppedBytes, window.droppedLines)
    {
      var storedLines := Lines(storedNewlines, stored == [] || EndsWithNewline(stored));
      var keptLines := storedLines - kept.droppedLines;
      r := BoundedOutput(Sanitize(kept.text), totalBytes - kept.bytes,
                         Lines(totalNewlines, endsWithNewline) - keptLines);
    }

    /**
     * The stored text becomes its own tail margin, in one chunk: the smallest suffix over the limits. The bound of
     * every longer stream is the same as before, which it would not be if only the window itself were left.
     */
    method CompactTail(stored: Bytes)
      requires Valid() && limits.retain.Tail? && stored == Stored() && Text(stored)
      modifies `chunks, `storedBytes, `storedNewlines, `forgotten
      ensures Valid() && Stream() == old(Stream()) && storedBytes <= limits.maxBytes + 4
    {
      var kept, lead := Margin(stored, limits);
      StoreMargin(kept, lead);
    }

    /** Stores the margin alone; what preceded it is forgotten. */
    method StoreMargin(margin: Bytes, ghost lead: Bytes)
      requires Valid() && limits.retain.Tail? && lead + margin == Stored() && Text(lead) && Text(margin)
      requires |margin| <= limits.maxBytes + 4 && if lead == [] then margin == Stored() else TailFull(margin, limits)
      modifies `chunks, `storedBytes, `storedNewlines, `forgotten
      ensures Valid() && Stream() == old(Stream()) && storedBytes <= limits.maxBytes + 4
    {
      ghost var whole := Stream();
      ForgetLead(margin, lead);
      Compact(margin);
      MarginIsValid(margin, whole);
    }

    /** A margin stored alone is all that later windows need. */
    lemma MarginIsValid(margin: Bytes, whole: Bytes)
      requires limits.retain.Tail? && !full && Stored() == margin && |margin| <= limits.maxBytes + 4 && Text(margin)
      requires forgotten == [] || TailFull(margin, limits)
      requires chunks == if margin == [] then [] else [Chunk(margin, |margin|, Newlines(margin))]
      requires storedBytes == |margin| && storedNewlines == Newlines(margin)
      requires Whole(Tail, forgotten, margin) == whole && Text(forgotten) && totalBytes == |whole|
      requires totalNewlines == Newlines(whole) && endsWithNewline == (whole == [] || EndsWithNewline(whole))
      ensures Valid() && Stream() == whole
    {
      assert Stream() == whole;
      MarginIsCounted(margin);
    }

    lemma MarginIsCounted(margin: Bytes)
      requires limits.retain.Tail? && Stored() == margin && |margin| <= limits.maxBytes + 4 && Text(margin)
      requires chunks == if margin == [] then [] else [Chunk(margin, |margin|, Newlines(margin))]
      requires storedBytes == |margin| && storedNewlines == Newlines(margin)
      ensures Counted()
    {
    }

    /** Forgets what precedes the margin. */
    ghost method ForgetLead(margin: Bytes, lead: Bytes)
      requires limits.retain.Tail? && Text(forgotten) && Text(lead) && Text(margin)
      modifies `forgotten
      ensures Text(forgotten) && Whole(Tail, forgotten, margin) == Whole(Tail, old(forgotten), lead + margin)
      ensures lead == [] ==> forgotten == old(forgotten)
    {
      if lead == [] {
        NothingPushed(margin);
      } else {
        JoinText(forgotten, lead);
        WholeShifts(forgotten, lead, margin);
        forgotten := forgotten + lead;
      }
    }

    /** The stored text becomes one chunk. */
    method CompactHead(stored: Bytes)
      requires Valid() && limits.retain.Head? && stored == Stored() && Text(stored)
      modifies `chunks, `storedBytes, `storedNewlines
      ensures Valid() && Stream() == old(Stream())
    {
      Compact(stored);
    }

    method JoinChunks() returns (stored: Bytes)
      ensures stored == Stored()
    {
      stored := [];
      assert chunks[..0] == [];
      for i := 0 to |chunks|
        invariant stored == Joined(chunks[..i])
      {
        JoinedPush(chunks[..i], chunks[i]);
        assert chunks[..i + 1] == chunks[..i] + [chunks[i]];
        stored := stored + chunks[i].text;
      }
      assert chunks[..|chunks|] == chunks;
    }

    /** Stores `text` as one chunk. */
    method Compact(text: Bytes)
      modifies `chunks, `storedBytes, `storedNewlines
      ensures Stored() == text && storedBytes == |text| && storedNewlines == Newlines(text)
      ensures chunks == if text == [] then [] else [Chunk(text, |text|, Newlines(text))]
    {
      chunks := if text == [] then [] else [Chunk(text, |text|, Newlines(text))];
      storedBytes, storedNewlines := |text|, Newlines(text);
      if text != [] {
        JoinedOne(chunks);
      }
    }

    /** What is stored stays within the limits and one chunk, however long the stream. */
    lemma StorageBounded()
      requires Valid()
      ensures limits.retain.Tail? ==>
                storedBytes <= limits.maxBytes + 1
                               + if largest > limits.maxBytes + 4 then largest else limits.maxBytes + 4
      ensures limits.retain.Head? ==> storedBytes <= limits.maxBytes + largest
    {
      if |chunks| == 1 {
        JoinedOne(chunks);
      }
    }
  }
}
