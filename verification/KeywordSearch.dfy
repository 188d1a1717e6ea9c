/** The streaming keyword search over the first 64 KiB of a response body. */
module KeywordSearch {
  import opened Domain

  type Byte = bv8

  const MAX_BODY_BYTES: nat := 65_536

  // ---- decoding ---------------------------------------------------------

  /** A text decoder that consumes a byte at a time; `flush` is the text of an unfinished character. */
  datatype Decoder<!S> = Decoder(init: S, step: (S, Byte) -> (S, CodeUnits), flush: S -> CodeUnits)

  function StateAfter<S>(d: Decoder<S>, s: S, bytes: seq<Byte>): S {
    if bytes == [] then s else d.step(StateAfter(d, s, bytes[..|bytes| - 1]), bytes[|bytes| - 1]).0
  }

  function TextFrom<S>(d: Decoder<S>, s: S, bytes: seq<Byte>): CodeUnits {
    if bytes == [] then []
    else
      var prefix := bytes[..|bytes| - 1];
      TextFrom(d, s, prefix) + d.step(StateAfter(d, s, prefix), bytes[|bytes| - 1]).1
  }

  /** Decoding all the bytes at once. */
  function WholeText<S>(d: Decoder<S>, bytes: seq<Byte>): CodeUnits {
    TextFrom(d, d.init, bytes) + d.flush(StateAfter(d, d.init, bytes))
  }

  /** Decoding in pieces gives the same text as decoding the concatenation. */
  lemma {:induction false} DecodingConcatenates<S>(d: Decoder<S>, s: S, a: seq<Byte>, b: seq<Byte>)
    ensures StateAfter(d, s, a + b) == StateAfter(d, StateAfter(d, s, a), b)
    ensures TextFrom(d, s, a + b) == TextFrom(d, s, a) + TextFrom(d, StateAfter(d, s, a), b)
  {
    if b == [] {
      assert a + b == a;
    } else {
      var n := |b| - 1;
      assert (a + b)[..|a + b| - 1] == a + b[..n];
      DecodingConcatenates(d, s, a, b[..n]);
    }
  }

  // ---- searching --------------------------------------------------------

  predicate OccursAt(text: CodeUnits, keyword: CodeUnits, i: int) {
    0 <= i <= |text| - |keyword| && text[i..i + |keyword|] == keyword
  }

  ghost predicate Contains(text: CodeUnits, keyword: CodeUnits) {
    exists i :: OccursAt(text, keyword, i)
  }

  /** text.slice(-n) in JavaScript, where -0 is 0 and keeps everything. */
  function LastChars(text: CodeUnits, n: nat): CodeUnits {
    if n == 0 || n >= |text| then text else text[|text| - n..]
  }

  ghost predicate IsSuffix(overlap: CodeUnits, seen: CodeUnits) {
    |overlap| <= |seen| && seen[|seen| - |overlap|..] == overlap
  }

  /** The overlap remembers enough of what was seen: all of it, or at least one code unit less than the keyword. */
  ghost predicate Remembers(overlap: CodeUnits, seen: CodeUnits, keyword: CodeUnits) {
    IsSuffix(overlap, seen) && (overlap == seen || |overlap| >= |keyword| - 1)
  }

  lemma OccurrenceMoves(head: CodeUnits, tail: CodeUnits, keyword: CodeUnits, i: int)
    requires 0 <= i <= |tail|
    ensures OccursAt(tail, keyword, i) <==> OccursAt(head + tail, keyword, |head| + i)
  {
    if i <= |tail| - |keyword| {
      assert (head + tail)[|head| + i..|head| + i + |keyword|] == tail[i..i + |keyword|];
    }
  }

  /** An occurrence that is not in what was seen starts inside the overlap or later. */
  lemma OnlyLate(seen: CodeUnits, overlap: CodeUnits, text: CodeUnits, keyword: CodeUnits, i: int)
    requires Remembers(overlap, seen, keyword) && !Contains(seen, keyword) && OccursAt(seen + text, keyword, i)
    ensures |seen| - |overlap| <= i
  {
    assert i + |keyword| <= |seen| ==> (seen + text)[i..i + |keyword|] == seen[i..i + |keyword|] && OccursAt(seen, keyword, i);
  }

  lemma ContainsGrows(text: CodeUnits, more: CodeUnits, keyword: CodeUnits)
    requires Contains(text, keyword)
    ensures Contains(text + more, keyword)
  {
    var i :| OccursAt(text, keyword, i);
    assert (text + more)[i..i + |keyword|] == text[i..i + |keyword|];
    assert OccursAt(text + more, keyword, i);
  }

  /** Searching behind the overlap finds exactly what searching everything would newly find. */
  lemma OverlapSuffices(seen: CodeUnits, overlap: CodeUnits, text: CodeUnits, keyword: CodeUnits)
    requires keyword != [] && Remembers(overlap, seen, keyword) && !Contains(seen, keyword)
    ensures Contains(overlap + text, keyword) <==> Contains(seen + text, keyword)
  {
    var head := seen[..|seen| - |overlap|];
    assert seen + text == head + (overlap + text);
    if Contains(overlap + text, keyword) {
      var i :| OccursAt(overlap + text, keyword, i);
      OccurrenceMoves(head, overlap + text, keyword, i);
    }
    if Contains(seen + text, keyword) {
      var i :| OccursAt(seen + text, keyword, i);
      OnlyLate(seen, overlap, text, keyword, i);
      OccurrenceMoves(head, overlap + text, keyword, i - |head|);
    }
  }

  lemma LastCharsIsSuffix(text: CodeUnits, n: nat)
    ensures IsSuffix(LastChars(text, n), text)
    ensures LastChars(text, n) == text || |LastChars(text, n)| == n
  {}

  lemma SuffixOfSuffix(a: CodeUnits, b: CodeUnits, c: CodeUnits)
    requires IsSuffix(a, b) && IsSuffix(b, c)
    ensures IsSuffix(a, c)
  {
    assert c[|c| - |b|..][|b| - |a|..] == c[|c| - |a|..];
  }

  lemma KeepingTheOverlap(seen: CodeUnits, overlap: CodeUnits, text: CodeUnits, keyword: CodeUnits)
    requires keyword != [] && Remembers(overlap, seen, keyword)
    ensures Remembers(LastChars(overlap + text, |keyword| - 1), seen + text, keyword)
  {
    var joined, all := overlap + text, seen + text;
    var kept := LastChars(joined, |keyword| - 1);
    LastCharsIsSuffix(joined, |keyword| - 1);
    AppendedSuffix(overlap, seen, text);
    SuffixOfSuffix(kept, joined, all);
    if |kept| < |keyword| - 1 {
      assert kept == joined;
      assert overlap == seen;
    }
  }

  lemma AppendedSuffix(overlap: CodeUnits, seen: CodeUnits, text: CodeUnits)
    requires IsSuffix(overlap, seen)
    ensures IsSuffix(overlap + text, seen + text)
  {
    assert (seen + text)[|seen + text| - |overlap + text|..] == overlap + text;
  }

  /** includes: the first occurrence decides. */
  method Includes(text: CodeUnits, keyword: CodeUnits) returns (found: bool)
    ensures found <==> Contains(text, keyword)
  {
    var i := 0;
    while i + |keyword| <= |text|
      invariant 0 <= i
      invariant forall j :: 0 <= j < i ==> !OccursAt(text, keyword, j)
    {
      if text[i..i + |keyword|] == keyword {
        assert OccursAt(text, keyword, i);
        return true;
      }
      i := i + 1;
    }
    return false;
  }

  // ---- the body ---------------------------------------------------------

  function Joined(chunks: seq<seq<Byte>>): seq<Byte> {
    if chunks == [] then [] else Joined(chunks[..|chunks| - 1]) + chunks[|chunks| - 1]
  }

  function Bounded(bytes: seq<Byte>): seq<Byte> {
    if |bytes| <= MAX_BODY_BYTES then bytes else bytes[..MAX_BODY_BYTES]
  }

  lemma {:induction false} JoinedGrows(chunks: seq<seq<Byte>>, i: nat)
    requires i <= |chunks|
    ensures |Joined(chunks[..i])| <= |Joined(chunks)|
    ensures Joined(chunks)[..|Joined(chunks[..i])|] == Joined(chunks[..i])
  {
    if i < |chunks| {
      JoinedGrows(chunks[..|chunks| - 1], i);
      assert chunks[..|chunks| - 1][..i] == chunks[..i];
    } else {
      assert chunks[..i] == chunks;
    }
  }

  datatype Inspection = Inspection(found: bool, inspected: nat)

  /** How reading ends: the body is over, or it breaks and the error is reported. */
  datatype BodyEnd<E> = Finished | Broken(error: E)

  /** What there is to search: a body cut short by an error has no flushed end. */
  function Searchable<S, E>(d: Decoder<S>, body: seq<Byte>, end: BodyEnd<E>): CodeUnits {
    if |body| >= MAX_BODY_BYTES || end.Finished? then WholeText(d, body) else TextFrom(d, d.init, body)
  }

  /** Text found early is part of what there is to search. */
  lemma FoundEarly<S, E>(d: Decoder<S>, total: seq<Byte>, n: nat, end: BodyEnd<E>, keyword: CodeUnits)
    requires n <= |total| && n < MAX_BODY_BYTES && Contains(TextFrom(d, d.init, total[..n]), keyword)
    ensures Contains(Searchable(d, Bounded(total), end), keyword)
  {
    var body := Bounded(total);
    assert body == total[..n] + body[n..];
    DecodingConcatenates(d, d.init, total[..n], body[n..]);
    ContainsGrows(TextFrom(d, d.init, total[..n]), TextFrom(d, StateAfter(d, d.init, total[..n]), body[n..]), keyword);
    ContainsGrows(TextFrom(d, d.init, body), d.flush(StateAfter(d, d.init, body)), keyword);
  }

  /** A decoder in its current state. */
  class StreamDecoder<!S> {
    const d: Decoder<S>
    var state: S

    constructor (d: Decoder<S>)
      ensures this.d == d && state == d.init
    {
      this.d, this.state := d, d.init;
    }

    /** decode: a non-streaming call also flushes and starts over. */
    method Decode(bytes: seq<Byte>, streaming: bool) returns (text: CodeUnits)
      modifies this`state
      ensures text == TextFrom(d, old(state), bytes) + if streaming then [] else d.flush(StateAfter(d, old(state), bytes))
      ensures bytes == [] && !streaming ==> text == d.flush(old(state))
      ensures state == if streaming then StateAfter(d, old(state), bytes) else d.init
    {
      text := [];
      ghost var start := state;
      var i := 0;
      while i < |bytes|
        invariant 0 <= i <= |bytes|
        invariant state == StateAfter(d, start, bytes[..i]) && text == TextFrom(d, start, bytes[..i])
      {
        assert bytes[..i + 1][..i] == bytes[..i];
        var out := d.step(state, bytes[i]);
        state, text := out.0, text + out.1;
        i := i + 1;
      }
      assert bytes[..i] == bytes;
      if !streaming {
        text, state := text + d.flush(state), d.init;
      }
    }
  }

  /** The text of the bytes so far, flushed once 64 KiB are reached. */
  function SoFar<S>(d: Decoder<S>, read: seq<Byte>): CodeUnits {
    if |read| < MAX_BODY_BYTES then TextFrom(d, d.init, read) else WholeText(d, read)
  }

  lemma DecodedIsAdded<S>(d: Decoder<S>, read: seq<Byte>, bounded: seq<Byte>)
    requires |read| < MAX_BODY_BYTES && |read| + |bounded| <= MAX_BODY_BYTES
    ensures var s := StateAfter(d, d.init, read);
            && StateAfter(d, d.init, read + bounded) == StateAfter(d, s, bounded)
            && SoFar(d, read + bounded)
               == SoFar(d, read) + (TextFrom(d, s, bounded)
                                    + if |read| + |bounded| < MAX_BODY_BYTES then [] else d.flush(StateAfter(d, s, bounded)))
  {
    DecodingConcatenates(d, d.init, read, bounded);
  }

  lemma SoFarIsSearchable<S, E>(d: Decoder<S>, total: seq<Byte>, read: seq<Byte>, end: BodyEnd<E>, keyword: CodeUnits)
    requires read <= total && |read| <= MAX_BODY_BYTES && Contains(SoFar(d, read), keyword)
    ensures Contains(Searchable(d, Bounded(total), end), keyword) && |read| <= |Bounded(total)|
  {
    assert read == total[..|read|];
    if |read| < MAX_BODY_BYTES { FoundEarly(d, total, |read|, end, keyword); } else { assert Bounded(total) == read; }
  }

  /** One more chunk: what the search sees of it is what it adds to the text so far. */
  lemma ChunkIsSearched(seen: CodeUnits, overlap: CodeUnits, decoded: CodeUnits, keyword: CodeUnits)
    requires keyword != [] && Remembers(overlap, seen, keyword) && !Contains(seen, keyword)
    ensures Contains(overlap + decoded, keyword) <==> Contains(seen + decoded, keyword)
    ensures Remembers(LastChars(overlap + decoded, |keyword| - 1), seen + decoded, keyword)
  {
    OverlapSuffices(seen, overlap, decoded, keyword);
    KeepingTheOverlap(seen, overlap, decoded, keyword);
  }

  lemma NextChunk(chunks: seq<seq<Byte>>, i: nat, n: nat)
    requires i < |chunks| && n <= |chunks[i]|
    ensures n == |chunks[i]| ==> Joined(chunks[..i + 1]) == Joined(chunks[..i]) + chunks[i][..n]
    ensures Joined(chunks[..i]) + chunks[i][..n] <= Joined(chunks)
  {
    var before, now := Joined(chunks[..i]), Joined(chunks[..i + 1]);
    assert chunks[..i + 1][..i] == chunks[..i];
    JoinedGrows(chunks, i + 1);
    assert now == before + chunks[i] == Joined(chunks)[..|now|];
    assert (before + chunks[i])[..|before| + n] == before + chunks[i][..n];
    assert Joined(chunks)[..|now|][..|before| + n] == Joined(chunks)[..|before| + n];
  }

  /** The text decoder and the search agree on where they are. */
  ghost predicate Synchronized<S>(d: Decoder<S>, state: S, read: seq<Byte>, overlap: CodeUnits, keyword: CodeUnits) {
    && state == (if |read| < MAX_BODY_BYTES then StateAfter(d, d.init, read) else d.init)
    && Remembers(overlap, SoFar(d, read), keyword) && !Contains(SoFar(d, read), keyword)
  }

  /** After the last chunk: everything has been read, and flushing finds what the end of the body adds. */
  lemma TailIsSearched<S, E>(d: Decoder<S>, state: S, total: seq<Byte>, read: seq<Byte>, overlap: CodeUnits, end: BodyEnd<E>, keyword: CodeUnits)
    requires keyword != [] && d.flush(d.init) == [] && Synchronized(d, state, read, overlap, keyword)
    requires read <= total && |read| <= MAX_BODY_BYTES && (|read| < MAX_BODY_BYTES ==> read == total)
    ensures |read| == |Bounded(total)|
    ensures (if end.Broken? && |read| < MAX_BODY_BYTES then false else Contains(overlap + d.flush(state), keyword))
            <==> Contains(Searchable(d, Bounded(total), end), keyword)
  {
    assert read == Bounded(total);
    var seen := SoFar(d, read);
    OverlapSuffices(seen, overlap, d.flush(state), keyword);
    assert seen + [] == seen;
  }

  /** Searches one chunk behind the overlap and keeps the next overlap. */
  method SearchChunk<S>(textDecoder: StreamDecoder<S>, bounded: seq<Byte>, last: bool, before: CodeUnits, keyword: CodeUnits, ghost read: seq<Byte>)
    returns (found: bool, overlap: CodeUnits)
    requires keyword != [] && |read| < MAX_BODY_BYTES && |read| + |bounded| <= MAX_BODY_BYTES
    requires last <==> |read| + |bounded| == MAX_BODY_BYTES
    requires Synchronized(textDecoder.d, textDecoder.state, read, before, keyword)
    modifies textDecoder`state
    ensures found <==> Contains(SoFar(textDecoder.d, read + bounded), keyword)
    ensures !found ==> Synchronized(textDecoder.d, textDecoder.state, read + bounded, overlap, keyword)
  {
    var decoded := textDecoder.Decode(bounded, !last);
    DecodedIsAdded(textDecoder.d, read, bounded);
    ChunkIsSearched(SoFar(textDecoder.d, read), before, decoded, keyword);
    var text := before + decoded;
    found := Includes(text, keyword);
    overlap := LastChars(text, |keyword| - 1);
  }

  /** The loop over the chunks, up to the keyword, 64 KiB or the last chunk. */
  method SearchChunks<S>(textDecoder: StreamDecoder<S>, chunks: seq<seq<Byte>>, keyword: CodeUnits)
    returns (found: bool, inspected: nat, overlap: CodeUnits, ghost read: seq<Byte>)
    requires keyword != [] && textDecoder.state == textDecoder.d.init
    modifies textDecoder`state
    ensures read <= Joined(chunks) && inspected == |read| <= MAX_BODY_BYTES
    ensures found ==> Contains(SoFar(textDecoder.d, read), keyword)
    ensures !found && inspected < MAX_BODY_BYTES ==> read == Joined(chunks)
    ensures !found ==> Synchronized(textDecoder.d, textDecoder.state, read, overlap, keyword)
  {
    found, inspected, overlap, read := false, 0, [], [];
    assert Joined(chunks[..0]) == [];
    var i := 0;
    while i < |chunks|
      invariant 0 <= i <= |chunks| && !found && inspected == |read| < MAX_BODY_BYTES && read == Joined(chunks[..i])
      invariant Synchronized(textDecoder.d, textDecoder.state, read, overlap, keyword)
    {
      var remaining := MAX_BODY_BYTES - inspected;
      var bounded := chunks[i][..if |chunks[i]| <= remaining then |chunks[i]| else remaining];
      NextChunk(chunks, i, |bounded|);
      inspected := inspected + |bounded|;
      found, overlap := SearchChunk(textDecoder, bounded, inspected == MAX_BODY_BYTES, overlap, keyword, read);
      read := read + bounded;
      if found || |bounded| < |chunks[i]| || inspected >= MAX_BODY_BYTES { return; }
      i := i + 1;
    }
    assert chunks[..i] == chunks;
  }

  /**
   * inspectKeyword. Whatever the chunks, the keyword is reported found iff it occurs in the decoded first
   * 64 KiB; a read error is reported iff it comes before 64 KiB and the text before it lacks the keyword.
   */
  method InspectKeyword<S, E>(d: Decoder<S>, chunks: seq<seq<Byte>>, end: BodyEnd<E>, keyword: CodeUnits)
    returns (r: Result<Inspection, E>)
    requires keyword != [] && d.flush(d.init) == []
    ensures var body := Bounded(Joined(chunks));
            var found := Contains(Searchable(d, body, end), keyword);
            && body <= Joined(chunks) && (|body| == |Joined(chunks)| <= 65_536 || |body| == 65_536)
            && match r
            case Ok(inspection) =>
              && (inspection.found <==> found)
              && inspection.inspected <= |body| <= MAX_BODY_BYTES
              && (!found ==> inspection.inspected == |body| && (|body| == MAX_BODY_BYTES || end.Finished?))
            case Err(e) =>
              end == Broken(e) && |body| < MAX_BODY_BYTES && !found
  {
    ghost var total := Joined(chunks);
    var textDecoder := new StreamDecoder(d);
    var found, inspected, overlap;
    ghost var read;
    found, inspected, overlap, read := SearchChunks(textDecoder, chunks, keyword);
    if found {
      SoFarIsSearchable(d, total, read, end, keyword);
      return Ok(Inspection(true, inspected));
    }
    TailIsSearched(d, textDecoder.state, total, read, overlap, end, keyword);
    if inspected < MAX_BODY_BYTES && end.Broken? { return Err(end.error); }
    var tail := textDecoder.Decode([], false);
    found := Includes(overlap + tail, keyword);
    return Ok(Inspection(found, inspected));
  }
}
