/** Reading a byte range of a site file: the Range header, the host's chunk loop, and the
    visitor that puts the chunks of several interleaved reads back together. */
module SiteRead {
  import opened Options
  import opened Decimal

  type Bytes = seq<bv8>

  const CHUNK := 65536
  const FIRST_CHUNK := 262144
  const MAX_READ_SIZE := 1073741824

  // ─── The Range header ─────────────────────────────────────────────────────

  /** The two numbers of `bytes=<first>-<last>`; either may be missing. */
  datatype Spec = Spec(first: Option<nat>, last: Option<nat>)

  datatype Range = Range(start: nat, end: int)

  function Number(s: string): Option<nat>
    requires AllDigits(s)
  {
    if s == "" then None else Some(ParseDigits(s))
  }

  function DashAt(s: string): (i: nat)
    ensures i <= |s| && (forall j :: 0 <= j < i ==> s[j] != '-') && (i < |s| ==> s[i] == '-')
  {
    if s == "" || s[0] == '-' then 0 else 1 + DashAt(s[1..])
  }

  function ParseNumbers(body: string): Option<Spec> {
    var k := DashAt(body);
    if k == |body| || !AllDigits(body[..k]) || !AllDigits(body[k + 1..]) then None
    else Some(Spec(Number(body[..k]), Number(body[k + 1..])))
  }

  /** The header after trimming, if it has the expected form. */
  function ParseSpec(header: string): Option<Spec> {
    if "bytes=" <= header then ParseNumbers(header[6..]) else None
  }

  function ParseRange(header: string, size: nat): Option<Range> {
    var spec := ParseSpec(header);
    if spec.None? then None
    else if spec.value.first.None? then
      if spec.value.last.None? || spec.value.last.value == 0 then None
      else Some(Range(if size > spec.value.last.value then size - spec.value.last.value else 0, size - 1))
    else
      var start := spec.value.first.value;
      if start >= size then None
      else
        var end := if spec.value.last.None? || spec.value.last.value >= size then size - 1 else spec.value.last.value;
        if end < start then None else Some(Range(start, end))
  }

  /** The positions a byte range names, as in section 14.1.2 of RFC 9110: from the first to
      the last, from the first to the end, or the last so many. */
  ghost predicate Names(spec: Spec, size: nat, i: nat) {
    match (spec.first, spec.last)
    case (Some(first), Some(last)) => first <= i <= last
    case (Some(first), None) => first <= i
    case (None, Some(suffix)) => i + suffix >= size
    case (None, None) => false
  }

  // ─── What the parser accepts ──────────────────────────────────────────────

  /** The grammar of the header: `bytes=`, digits or none, a dash, digits or none. */
  predicate Writes(header: string, a: string, b: string) {
    AllDigits(a) && AllDigits(b) && header == "bytes=" + (a + "-" + b)
  }

  // A missing number is one that is not written; any other is its decimal value.
  ghost predicate Means(n: Option<nat>, digits: string)
    requires AllDigits(digits)
  {
    (n.None? <==> digits == "") && (n.Some? ==> n.value == ParseDigits(digits))
  }

  ghost predicate Spells(header: string, spec: Spec) {
    exists a, b :: Writes(header, a, b) && Means(spec.first, a) && Means(spec.last, b)
  }

  /** The parser reads exactly the headers of the grammar, with the numbers they write. */
  lemma ParseSpecExact(header: string, spec: Spec)
    ensures ParseSpec(header) == Some(spec) <==> Spells(header, spec)
  {
    hide ParseNumbers;
    if Spells(header, spec) {
      var a, b :| Writes(header, a, b) && Means(spec.first, a) && Means(spec.last, b);
      assert header[6..] == a + "-" + b;
      NumbersRead(a, b, spec);
    }
    if ParseSpec(header) == Some(spec) {
      var a, b := NumbersWritten(header[6..], spec);
      assert Writes(header, a, b);
    }
  }

  lemma NumbersRead(a: string, b: string, spec: Spec)
    requires AllDigits(a) && AllDigits(b) && Means(spec.first, a) && Means(spec.last, b)
    ensures ParseNumbers(a + "-" + b) == Some(spec)
  {
    hide ParseDigits;
    var body := a + "-" + b;
    DashAtIs(body, |a|);
    assert body[..|a|] == a && body[|a| + 1..] == b;
  }

  lemma NumbersWritten(body: string, spec: Spec) returns (a: string, b: string)
    requires ParseNumbers(body) == Some(spec)
    ensures AllDigits(a) && AllDigits(b) && body == a + "-" + b && Means(spec.first, a) && Means(spec.last, b)
  {
    hide ParseDigits;
    var k := DashAt(body);
    a, b := body[..k], body[k + 1..];
  }

  // The header names some byte of a file of this size.
  ghost predicate Selects(header: string, size: nat) {
    exists spec, i: nat :: Spells(header, spec) && i < size && Names(spec, size, i)
  }

  /** For a file that is not empty, a header is answered with a range exactly when it is
      of the grammar and names some byte of the file; the range lies in the file and holds
      exactly the bytes named. */
  lemma RangeMeaning(header: string, size: nat)
    requires size > 0
    ensures ParseRange(header, size).Some? <==> Selects(header, size)
    ensures ParseRange(header, size).Some? ==>
      var r := ParseRange(header, size).value;
      && 0 <= r.start <= r.end < size
      && forall spec, i: nat :: Spells(header, spec) && i < size ==> (r.start <= i <= r.end <==> Names(spec, size, i))
  {
    hide ParseSpec;
    if ParseSpec(header).Some? {
      var spec := ParseSpec(header).value;
      ParseSpecExact(header, spec);
      forall other | Spells(header, other) ensures other == spec { ParseSpecExact(header, other); }
      if ParseRange(header, size).Some? {
        var r := ParseRange(header, size).value;
        assert Names(spec, size, r.end);
      } else if spec.first.Some? {
        assert forall i: nat :: i < size ==> !Names(spec, size, i);
      }
    } else {
      forall spec ensures !Spells(header, spec) { ParseSpecExact(header, spec); }
    }
  }

  /** Of an empty file, a suffix range of at least one byte, and nothing else, yields a
      range, with start 0 and end -1. */
  lemma RangeOfEmptyFile(header: string)
    ensures ParseRange(header, 0).Some? <==> exists spec :: Spells(header, spec) && spec.first.None? && spec.last.Some? && spec.last.value > 0
    ensures ParseRange(header, 0).Some? ==> ParseRange(header, 0).value == Range(0, -1)
  {
    hide ParseSpec;
    if ParseSpec(header).Some? {
      var spec := ParseSpec(header).value;
      ParseSpecExact(header, spec);
      forall other | Spells(header, other) ensures other == spec { ParseSpecExact(header, other); }
    } else {
      forall spec ensures !Spells(header, spec) { ParseSpecExact(header, spec); }
    }
  }

  function PrintNumber(n: Option<nat>): string {
    if n.Some? then Digits(n.value) else ""
  }

  function PrintSpec(spec: Spec): string {
    "bytes=" + (PrintNumber(spec.first) + "-" + PrintNumber(spec.last))
  }

  lemma DashAtIs(s: string, k: nat)
    requires k < |s| && s[k] == '-' && forall j :: 0 <= j < k ==> s[j] != '-'
    ensures DashAt(s) == k
  {
  }

  /** Every header a client can print is read back as it was meant. */
  lemma SpecRoundTrip(spec: Spec)
    ensures ParseSpec(PrintSpec(spec)) == Some(spec)
  {
    hide ParseNumbers, PrintNumber;
    var body := PrintNumber(spec.first) + "-" + PrintNumber(spec.last);
    assert PrintSpec(spec)[6..] == body;
    NumbersRoundTrip(spec);
  }

  lemma NumbersRoundTrip(spec: Spec)
    ensures ParseNumbers(PrintNumber(spec.first) + "-" + PrintNumber(spec.last)) == Some(spec)
  {
    hide Digits, ParseDigits;
    var a, b := PrintNumber(spec.first), PrintNumber(spec.last);
    var body := a + "-" + b;
    DashAtIs(body, |a|);
    assert body[..|a|] == a && body[|a| + 1..] == b;
    if spec.first.Some? { DigitsParse(spec.first.value); }
    if spec.last.Some? { DigitsParse(spec.last.value); }
  }

  // ─── The host ─────────────────────────────────────────────────────────────

  /** The data of a chunk is base64 text on the wire; `hash` is an ideal digest, so it
      stands for the bytes that were hashed. */
  datatype Msg =
    | ReadData(siteId: string, reqId: string, data: Bytes)
    | ReadEnd(siteId: string, reqId: string, size: nat, start: nat, end: int, hash: Bytes)
    | ReadFailed(siteId: string, reqId: string)

  function Concat(chunks: seq<Bytes>): Bytes {
    if chunks == [] then [] else Concat(chunks[..|chunks| - 1]) + chunks[|chunks| - 1]
  }

  function DataMsgs(siteId: string, reqId: string, chunks: seq<Bytes>): seq<Msg> {
    if chunks == [] then []
    else DataMsgs(siteId, reqId, chunks[..|chunks| - 1]) + [ReadData(siteId, reqId, chunks[|chunks| - 1])]
  }

  /** The slice a request is about: the parsed range, or the whole file. */
  function Wanted(file: Bytes, header: Option<string>): Range {
    var range := if header.Some? then ParseRange(header.value, |file|) else None;
    if range.Some? then range.value else Range(0, |file| - 1)
  }

  lemma WantedInFile(file: Bytes, header: Option<string>)
    ensures var w := Wanted(file, header); 0 <= w.start <= w.end + 1 <= |file|
  {
    if header.Some? && |file| > 0 {
      RangeMeaning(header.value, |file|);
    }
  }

  function Requested(file: Bytes, header: Option<string>): Bytes {
    var w := Wanted(file, header);
    WantedInFile(file, header);
    file[w.start..w.end + 1]
  }

  /** Without a header, or with one that is malformed or names no byte, the whole file is
      sent; otherwise exactly the bytes named. */
  lemma RequestedExact(file: Bytes, header: Option<string>)
    ensures header.None? || !Selects(header.value, |file|) ==> Requested(file, header) == file
    ensures header.Some? && Selects(header.value, |file|) ==>
      var w := Wanted(file, header);
      && 0 <= w.start <= w.end < |file| && Requested(file, header) == file[w.start..w.end + 1]
      && forall spec, i: nat :: Spells(header.value, spec) && i < |file| ==> (w.start <= i <= w.end <==> Names(spec, |file|, i))
  {
    hide ParseRange, Selects;
    WantedInFile(file, header);
    if header.Some? && |file| > 0 {
      RangeMeaning(header.value, |file|);
    } else if header.Some? {
      NothingSelected(header.value);
    }
  }

  lemma NothingSelected(header: string)
    ensures !Selects(header, 0)
  {
  }

  /** Chunks that are a prefix of the slice, and an end message that tells how far they got. */
  ghost predicate Answers(siteId: string, reqId: string, file: Bytes, header: Option<string>, chunks: seq<Bytes>, msgs: seq<Msg>) {
    && Concat(chunks) <= Requested(file, header)
    && msgs == DataMsgs(siteId, reqId, chunks) + [
         var start := Wanted(file, header).start;
         if file == [] then ReadEnd(siteId, reqId, 0, 0, -1, [])
         else ReadEnd(siteId, reqId, |file|, start, start + |Concat(chunks)| - 1, Concat(chunks))]
  }

  /** A slice cut every k bytes. */
  function Cut(s: Bytes, k: nat): seq<Bytes>
    requires k > 0
  {
    if s == [] then [] else [s[..Min(k, |s|)]] + Cut(s[Min(k, |s|)..], k)
  }

  /** The chunks of reads that return all they ask for. */
  function FullCut(s: Bytes): seq<Bytes> {
    if |s| > FIRST_CHUNK then [s[..FIRST_CHUNK]] + Cut(s[FIRST_CHUNK..], CHUNK) else Cut(s, CHUNK)
  }

  ghost predicate Full(short: nat -> nat) {
    forall i: nat :: short(i) >= FIRST_CHUNK
  }

  // What read number i asks for, with `rest` still to send.
  function Ask(rest: Bytes, i: nat): nat {
    if i == 0 && |rest| > FIRST_CHUNK then FIRST_CHUNK else Min(CHUNK, |rest|)
  }

  // The chunks read from number i on: each as long as asked or as long as the read was.
  function Reads(rest: Bytes, i: nat, short: nat -> nat): seq<Bytes>
    decreases |rest|
  {
    var n := Min(short(i), Ask(rest, i));
    if n == 0 then [] else [rest[..n]] + Reads(rest[n..], i + 1, short)
  }

  // Every read returns the same few bytes.
  ghost predicate Steady(short: nat -> nat, k: nat) {
    0 < k <= CHUNK && forall i: nat :: short(i) == k
  }

  lemma {:induction false} ConcatFront(first: Bytes, chunks: seq<Bytes>)
    ensures Concat([first] + chunks) == first + Concat(chunks)
  {
    if chunks == [] {
      assert [first] + [] == [first] && [first][..0] == [];
    } else {
      var init, last := chunks[..|chunks| - 1], chunks[|chunks| - 1];
      ConcatFront(first, init);
      assert ([first] + chunks)[..|chunks|] == [first] + init;
    }
  }

  lemma {:induction false} CutWhole(s: Bytes, k: nat)
    requires k > 0
    ensures Concat(Cut(s, k)) == s
    decreases |s|
  {
    if s != [] {
      var n := Min(k, |s|);
      CutWhole(s[n..], k);
      ConcatFront(s[..n], Cut(s[n..], k));
    }
  }

  lemma FullCutWhole(s: Bytes)
    ensures Concat(FullCut(s)) == s
  {
    CutWhole(s, CHUNK);
    if |s| > FIRST_CHUNK {
      CutWhole(s[FIRST_CHUNK..], CHUNK);
      ConcatFront(s[..FIRST_CHUNK], Cut(s[FIRST_CHUNK..], CHUNK));
    }
  }

  /** The host's loop.  `short` says how many bytes each read of the file returned, which
      is cut to what was asked for; a read of nothing ends the loop. */
  method HandleRead(siteId: string, reqId: string, file: Bytes, header: Option<string>, short: nat -> nat)
    returns (msgs: seq<Msg>, chunks: seq<Bytes>)
    ensures Answers(siteId, reqId, file, header, chunks, msgs)
    ensures forall c :: c in chunks ==> 0 < |c| <= FIRST_CHUNK
    ensures (forall i: nat :: short(i) > 0) ==> Concat(chunks) == Requested(file, header)
    ensures Full(short) ==> chunks == FullCut(Requested(file, header))
    ensures forall k :: Steady(short, k) ==> chunks == Cut(Requested(file, header), k)
  {
    hide ParseRange, Reads, Cut, FullCut, DataMsgs;
    WantedInFile(file, header);
    NoEmptySlice(file, header);
    var w := Wanted(file, header);
    if |file| == 0 || w.start > w.end {
      msgs, chunks := [ReadEnd(siteId, reqId, 0, 0, -1, [])], [];
      NothingCut(siteId, reqId);
      return;
    }
    var sent;
    msgs, sent, chunks := SendChunks(siteId, reqId, file, w.start, w.end, short);
    msgs := msgs + [ReadEnd(siteId, reqId, |file|, w.start, w.start + |sent| - 1, sent)];
    ReadsOk(Requested(file, header), 0, short);
    ReadsBounded(Requested(file, header), 0, short);
    if Full(short) { FullReads(Requested(file, header), short); }
    forall k | Steady(short, k) ensures chunks == Cut(Requested(file, header), k) {
      LaterReads(Requested(file, header), 0, short, k);
    }
  }

  method SendChunks(siteId: string, reqId: string, file: Bytes, start: nat, end: nat, short: nat -> nat)
    returns (msgs: seq<Msg>, sent: Bytes, chunks: seq<Bytes>)
    requires start <= end < |file|
    ensures msgs == DataMsgs(siteId, reqId, chunks) && sent == Concat(chunks)
    ensures chunks == Reads(file[start..end + 1], 0, short)
  {
    hide Reads, Concat, DataMsgs;
    msgs, sent, chunks := [], [], [];
    ghost var whole := file[start..end + 1];
    NoChunkYet(siteId, reqId, whole, short);
    var remaining := end - start + 1;
    var pos, i := start, 0;
    var firstChunk := Min(FIRST_CHUNK, remaining);
    while remaining > 0
      invariant remaining >= 0 && pos + remaining == end + 1 && start <= pos
      invariant sent == Concat(chunks) && msgs == DataMsgs(siteId, reqId, chunks)
      invariant i == 0 ==> pos == start
      invariant chunks + Reads(file[pos..end + 1], i, short) == Reads(whole, 0, short)
      decreases remaining
    {
      var want := if remaining > firstChunk && i == 0 then firstChunk else Min(CHUNK, remaining);
      var bytesRead := Min(short(i), want);
      ghost var rest := file[pos..end + 1];
      OneMoreRead(chunks, rest, i, short);
      if bytesRead <= 0 { break; }
      var slice := file[pos..pos + bytesRead];
      OneMoreChunk(siteId, reqId, chunks, slice);
      assert slice == rest[..bytesRead] && file[pos + bytesRead..end + 1] == rest[bytesRead..];
      chunks := chunks + [slice];
      msgs := msgs + [ReadData(siteId, reqId, slice)];
      sent := sent + slice;
      pos, remaining, i := pos + bytesRead, remaining - bytesRead, i + 1;
    }
    OneMoreRead(chunks, file[pos..end + 1], i, short);
    assert chunks + [] == chunks;
  }

  // What is read is a prefix of the slice, and all of it if no read returns nothing.
  lemma {:induction false} ReadsOk(rest: Bytes, i: nat, short: nat -> nat)
    ensures Concat(Reads(rest, i, short)) <= rest
    ensures (forall j: nat :: short(j) > 0) ==> Concat(Reads(rest, i, short)) == rest
    decreases |rest|
  {
    var n := Min(short(i), Ask(rest, i));
    if n > 0 {
      ReadsOk(rest[n..], i + 1, short);
      ConcatFront(rest[..n], Reads(rest[n..], i + 1, short));
    }
  }

  lemma {:induction false} ReadsBounded(rest: Bytes, i: nat, short: nat -> nat)
    ensures forall c :: c in Reads(rest, i, short) ==> 0 < |c| <= FIRST_CHUNK
    decreases |rest|
  {
    var n := Min(short(i), Ask(rest, i));
    if n > 0 { ReadsBounded(rest[n..], i + 1, short); }
  }

  // Reads that return all they ask for cut the slice in full chunks.
  lemma FullReads(slice: Bytes, short: nat -> nat)
    requires Full(short)
    ensures Reads(slice, 0, short) == FullCut(slice)
  {
    if |slice| > FIRST_CHUNK {
      LaterReads(slice[FIRST_CHUNK..], 1, short, CHUNK);
    } else {
      LaterReads(slice, 0, short, CHUNK);
    }
  }

  lemma {:induction false} LaterReads(rest: Bytes, i: nat, short: nat -> nat, k: nat)
    requires 0 < k <= CHUNK && forall j: nat :: short(j) == k || (k == CHUNK && short(j) >= CHUNK && (i > 0 || |rest| <= FIRST_CHUNK))
    ensures Reads(rest, i, short) == Cut(rest, k)
    decreases |rest|
  {
    if rest != [] {
      var n := Min(short(i), Ask(rest, i));
      assert n == Min(k, |rest|);
      LaterReads(rest[n..], i + 1, short, k);
    }
  }

  lemma NoChunkYet(siteId: string, reqId: string, slice: Bytes, short: nat -> nat)
    ensures Concat([]) == [] && DataMsgs(siteId, reqId, []) == [] && [] + Reads(slice, 0, short) == Reads(slice, 0, short)
  {
  }

  lemma NothingCut(siteId: string, reqId: string)
    ensures DataMsgs(siteId, reqId, []) == [] && FullCut([]) == [] && forall k :: k > 0 ==> Cut([], k) == []
  {
  }

  lemma OneMoreRead(chunks: seq<Bytes>, rest: Bytes, i: nat, short: nat -> nat)
    ensures var n := Min(short(i), Ask(rest, i));
      if n == 0 then Reads(rest, i, short) == []
      else (chunks + [rest[..n]]) + Reads(rest[n..], i + 1, short) == chunks + Reads(rest, i, short)
  {
    var n := Min(short(i), Ask(rest, i));
    if n > 0 {
      var later := Reads(rest[n..], i + 1, short);
      assert (chunks + [rest[..n]]) + later == chunks + ([rest[..n]] + later);
    }
  }

  lemma OneMoreChunk(siteId: string, reqId: string, chunks: seq<Bytes>, last: Bytes)
    ensures Concat(chunks + [last]) == Concat(chunks) + last
    ensures DataMsgs(siteId, reqId, chunks + [last]) == DataMsgs(siteId, reqId, chunks) + [ReadData(siteId, reqId, last)]
  {
    assert (chunks + [last])[..|chunks|] == chunks;
  }

  lemma NoEmptySlice(file: Bytes, header: Option<string>)
    ensures |file| > 0 ==> Wanted(file, header).start <= Wanted(file, header).end
    ensures file == [] ==> Requested(file, header) == []
  {
    if header.Some? && |file| > 0 {
      RangeMeaning(header.value, |file|);
    }
    WantedInFile(file, header);
  }

  // ─── The visitor ──────────────────────────────────────────────────────────

  datatype Pending = Pending(siteId: string, chunks: seq<Bytes>, bytes: nat)

  datatype Outcome = Body(size: nat, start: nat, end: int, body: Bytes) | OverCap | Mismatch | Failed

  /** Reads that wait, and the promises already settled. */
  datatype Visitor = Visitor(pending: map<string, Pending>, settled: map<string, Outcome>)

  // Length of the base64 text of n bytes.
  function EncodedLength(n: nat): nat {
    4 * ((n + 2) / 3)
  }

  function Settle(v: Visitor, reqId: string, o: Outcome): Visitor {
    Visitor(v.pending - {reqId}, v.settled[reqId := o])
  }

  // Where one read stands.
  datatype Standing = Standing(pending: Option<Pending>, settled: Option<Outcome>)

  function Of(v: Visitor, reqId: string): Standing {
    Standing(if reqId in v.pending then Some(v.pending[reqId]) else None,
             if reqId in v.settled then Some(v.settled[reqId]) else None)
  }

  function Grown(p: Pending, data: Bytes): Pending {
    p.(chunks := p.chunks + [data], bytes := p.bytes + EncodedLength(|data|))
  }

  function Receive(v: Visitor, m: Msg): Visitor {
    if m.reqId !in v.pending then v
    else
      var p := v.pending[m.reqId];
      match m
      case ReadData(siteId, reqId, data) =>
        if siteId != p.siteId then v
        else if Grown(p, data).bytes > MAX_READ_SIZE then Settle(v, reqId, OverCap)
        else v.(pending := v.pending[reqId := Grown(p, data)])
      case ReadEnd(_, reqId, size, start, end, hash) =>
        Settle(v, reqId, if Concat(p.chunks) != hash then Mismatch else Body(size, start, end, Concat(p.chunks)))
      case ReadFailed(_, reqId) => Settle(v, reqId, Failed)
  }

  function ReceiveAll(v: Visitor, ms: seq<Msg>): Visitor {
    if ms == [] then v else Receive(ReceiveAll(v, ms[..|ms| - 1]), ms[|ms| - 1])
  }

  function Only(ms: seq<Msg>, reqId: string): seq<Msg> {
    if ms == [] then []
    else Only(ms[..|ms| - 1], reqId) + if ms[|ms| - 1].reqId == reqId then [ms[|ms| - 1]] else []
  }

  lemma {:induction false} OnlyExact(ms: seq<Msg>, reqId: string)
    ensures forall m :: m in Only(ms, reqId) <==> m in ms && m.reqId == reqId
    ensures (forall m :: m in ms ==> m.reqId == reqId) ==> Only(ms, reqId) == ms
  {
    if ms != [] {
      assert ms == ms[..|ms| - 1] + [ms[|ms| - 1]];
      OnlyExact(ms[..|ms| - 1], reqId);
    }
  }

  /** What a message does to the read of its id: nothing if none waits, or if it is data of
      another site; data joins it, or ends it over the cap of 2^30 characters of base64 text;
      an end settles it with what was received if that has the announced digest.  Every
      other read stays where it was. */
  lemma ReceiveExact(v: Visitor, m: Msg, other: string)
    ensures var u := Receive(v, m);
      && (other != m.reqId ==> Of(u, other) == Of(v, other))
      && (m.reqId !in v.pending || (m.ReadData? && m.siteId != v.pending[m.reqId].siteId) ==> u == v)
      && (m.reqId in v.pending ==>
            var p := v.pending[m.reqId];
            && (m.ReadFailed? ==> Of(u, m.reqId) == Standing(None, Some(Failed)))
            && (m.ReadData? && m.siteId == p.siteId ==>
                  var text := p.bytes + (|m.data| + 2) / 3 * 4;
                  if text > 1073741824 then Of(u, m.reqId) == Standing(None, Some(OverCap))
                  else u.pending == v.pending[m.reqId := Pending(p.siteId, p.chunks + [m.data], text)] && u.settled == v.settled)
            && (m.ReadEnd? && m.hash == Concat(p.chunks) ==> Of(u, m.reqId) == Standing(None, Some(Body(m.size, m.start, m.end, m.hash))))
            && (m.ReadEnd? && m.hash != Concat(p.chunks) ==> Of(u, m.reqId) == Standing(None, Some(Mismatch))))
  {
  }

  lemma ReceiveApart(v: Visitor, u: Visitor, m: Msg, reqId: string)
    requires Of(v, reqId) == Of(u, reqId)
    ensures m.reqId != reqId ==> Of(Receive(v, m), reqId) == Of(u, reqId)
    ensures m.reqId == reqId ==> Of(Receive(v, m), reqId) == Of(Receive(u, m), reqId)
  {
    assert reqId in v.pending <==> reqId in u.pending;
    assert reqId in v.pending ==> v.pending[reqId] == u.pending[reqId];
  }

  /** Reads do not disturb each other: what becomes of one depends only on the messages
      that carry its own id, in their order. */
  lemma {:induction false} ReadsAreIndependent(v: Visitor, ms: seq<Msg>, reqId: string)
    ensures Of(ReceiveAll(v, ms), reqId) == Of(ReceiveAll(v, Only(ms, reqId)), reqId)
  {
    if ms != [] {
      var init, last := ms[..|ms| - 1], ms[|ms| - 1];
      ReadsAreIndependent(v, init, reqId);
      ReceiveApart(ReceiveAll(v, init), ReceiveAll(v, Only(init, reqId)), last, reqId);
      if last.reqId == reqId {
        assert (Only(init, reqId) + [last])[..|Only(init, reqId)|] == Only(init, reqId);
      } else {
        assert Only(init, reqId) + [] == Only(init, reqId);
      }
    }
  }

  function EncodedTotal(chunks: seq<Bytes>): nat {
    if chunks == [] then 0 else EncodedTotal(chunks[..|chunks| - 1]) + EncodedLength(|chunks[|chunks| - 1]|)
  }

  lemma DataStep(u: Visitor, siteId: string, reqId: string, p: Pending, data: Bytes)
    requires Of(u, reqId) == Standing(Some(p), None) && siteId == p.siteId
    ensures Of(Receive(u, ReadData(siteId, reqId, data)), reqId) ==
      if Grown(p, data).bytes > MAX_READ_SIZE then Standing(None, Some(OverCap)) else Standing(Some(Grown(p, data)), None)
  {
    assert reqId in u.pending && reqId !in u.settled;
  }

  lemma SettledIgnores(u: Visitor, m: Msg)
    requires Of(u, m.reqId).pending.None?
    ensures Receive(u, m) == u
  {
  }

  // The data messages of one read, from the state in which it was asked.
  lemma {:induction false} DataArrives(v: Visitor, siteId: string, reqId: string, chunks: seq<Bytes>)
    requires Of(v, reqId) == Standing(Some(Pending(siteId, [], 0)), None)
    ensures Of(ReceiveAll(v, DataMsgs(siteId, reqId, chunks)), reqId) ==
      if EncodedTotal(chunks) <= MAX_READ_SIZE then Standing(Some(Pending(siteId, chunks, EncodedTotal(chunks))), None)
      else Standing(None, Some(OverCap))
  {
    hide Of, Receive, EncodedLength;
    if chunks != [] {
      var init, last := chunks[..|chunks| - 1], chunks[|chunks| - 1];
      DataArrives(v, siteId, reqId, init);
      var u := ReceiveAll(v, DataMsgs(siteId, reqId, init));
      var ms := DataMsgs(siteId, reqId, chunks);
      assert ms[..|ms| - 1] == DataMsgs(siteId, reqId, init) && ms[|ms| - 1] == ReadData(siteId, reqId, last);
      assert init + [last] == chunks;
      if EncodedTotal(init) <= MAX_READ_SIZE {
        DataStep(u, siteId, reqId, Pending(siteId, init, EncodedTotal(init)), last);
      } else {
        SettledIgnores(u, ReadData(siteId, reqId, last));
      }
    }
  }

  /** The whole read: however its messages are interleaved with those of other reads, the
      visitor's body is exactly the bytes the host sent, with the start and end that
      belong to them, if and only if their base64 text fits the visitor's cap. */
  lemma ReadRoundTrip(v: Visitor, ms: seq<Msg>, siteId: string, reqId: string, chunks: seq<Bytes>, end: Msg)
    requires reqId in v.pending && v.pending[reqId] == Pending(siteId, [], 0) && reqId !in v.settled
    requires end.ReadEnd? && end.reqId == reqId && end.hash == Concat(chunks)
    requires Only(ms, reqId) == DataMsgs(siteId, reqId, chunks) + [end]
    ensures Of(ReceiveAll(v, ms), reqId) == Standing(None, Some(
      if EncodedTotal(chunks) <= MAX_READ_SIZE then Body(end.size, end.start, end.end, Concat(chunks)) else OverCap))
  {
    ReadsAreIndependent(v, ms, reqId);
    DataArrives(v, siteId, reqId, chunks);
    var data := DataMsgs(siteId, reqId, chunks);
    assert (data + [end])[..|data|] == data;
    var before := ReceiveAll(v, data);
    assert Of(before, reqId).pending.Some? <==> reqId in before.pending;
  }

  /** A request and its whole answer: the body is the slice the header asked for, or the
      whole file without a usable header, and the reported start and end are its own. */
  lemma RequestRoundTrip(v: Visitor, ms: seq<Msg>, siteId: string, reqId: string, file: Bytes, header: Option<string>,
                         chunks: seq<Bytes>, msgs: seq<Msg>)
    requires Answers(siteId, reqId, file, header, chunks, msgs) && Concat(chunks) == Requested(file, header)
    requires reqId in v.pending && v.pending[reqId] == Pending(siteId, [], 0) && reqId !in v.settled
    requires Only(ms, reqId) == msgs
    ensures Of(ReceiveAll(v, ms), reqId) == Standing(None, Some(
      if EncodedTotal(chunks) > MAX_READ_SIZE then OverCap
      else if file == [] then Body(0, 0, -1, [])
      else Body(|file|, Wanted(file, header).start, Wanted(file, header).end, Requested(file, header))))
  {
    WantedInFile(file, header);
    NoEmptySlice(file, header);
    ReadRoundTrip(v, ms, siteId, reqId, chunks, msgs[|msgs| - 1]);
  }

  // ─── The cap ──────────────────────────────────────────────────────────────

  lemma {:induction false} EncodedBounds(chunks: seq<Bytes>)
    requires forall c :: c in chunks ==> |c| > 0
    ensures 4 * |Concat(chunks)| <= 3 * EncodedTotal(chunks) <= 12 * |Concat(chunks)|
  {
    if chunks == [] {
    } else {
      var init, last := chunks[..|chunks| - 1], chunks[|chunks| - 1];
      assert last in chunks;
      EncodedBounds(init);
    }
  }

  /** The cap counts base64 text, not bytes: a slice of at most a quarter of it always
      arrives, one of more than three quarters never does, however it is cut. */
  lemma CapBounds(chunks: seq<Bytes>)
    requires forall c :: c in chunks ==> |c| > 0
    ensures |Concat(chunks)| <= MAX_READ_SIZE / 4 ==> EncodedTotal(chunks) <= MAX_READ_SIZE
    ensures |Concat(chunks)| > MAX_READ_SIZE / 4 * 3 ==> EncodedTotal(chunks) > MAX_READ_SIZE
  {
    EncodedBounds(chunks);
  }

  lemma {:induction false} EncodedFront(first: Bytes, chunks: seq<Bytes>)
    ensures EncodedTotal([first] + chunks) == EncodedLength(|first|) + EncodedTotal(chunks)
  {
    hide EncodedLength;
    if chunks == [] {
      assert [first] + [] == [first] && [first][..0] == [];
    } else {
      var init, last := chunks[..|chunks| - 1], chunks[|chunks| - 1];
      EncodedFront(first, init);
      assert ([first] + chunks)[..|chunks|] == [first] + init;
    }
  }

  // Text of n bytes cut every k: whole pieces, and a last one for the rest.
  function CutLength(n: nat, k: nat): nat
    requires k > 0
  {
    if n < k then EncodedLength(n) else EncodedLength(k) + CutLength(n - k, k)
  }

  lemma {:induction false} CutEncoded(s: Bytes, k: nat)
    requires k > 0
    ensures EncodedTotal(Cut(s, k)) == CutLength(|s|, k)
    decreases |s|
  {
    if |s| >= k {
      CutEncoded(s[k..], k);
      EncodedFront(s[..k], Cut(s[k..], k));
    } else if s != [] {
      EncodedFront(s, []);
      assert Cut([], k) == [] && s[..|s|] == s && s[|s|..] == [];
    }
  }

  lemma {:induction false} CutLengthIs(q: nat, r: nat, k: nat)
    requires r < k
    ensures CutLength(q * k + r, k) == q * EncodedLength(k) + EncodedLength(r)
  {
    hide EncodedLength;
    if q > 0 {
      OneMoreTime(q, k);
      OneMoreTime(q, EncodedLength(k));
      CutLengthIs(q - 1, r, k);
    }
  }

  lemma OneMoreTime(n: nat, x: nat)
    requires n > 0
    ensures (n - 1) * x + x == n * x
  {
  }

  /** Between those bounds the cut decides: read byte by byte the slice is refused, read
      in pieces that are a multiple of three bytes it arrives. */
  lemma CutDecides(s: Bytes)
    requires MAX_READ_SIZE / 4 < |s| <= MAX_READ_SIZE / 4 * 3
    ensures EncodedTotal(Cut(s, 1)) > MAX_READ_SIZE && EncodedTotal(Cut(s, CHUNK - 1)) <= MAX_READ_SIZE
  {
    hide Cut, EncodedTotal;
    ByteByByte(s);
    ByThrees(s);
  }

  lemma ByteByByte(s: Bytes)
    ensures EncodedTotal(Cut(s, 1)) == 4 * |s|
  {
    hide Cut, EncodedTotal;
    CutEncoded(s, 1);
    CutLengthIs(|s|, 0, 1);
  }

  lemma ByThrees(s: Bytes)
    ensures EncodedTotal(Cut(s, CHUNK - 1)) == EncodedLength(|s|)
  {
    hide Cut, EncodedTotal;
    CutEncoded(s, CHUNK - 1);
    CutLengthIs(|s| / 65535, |s| % 65535, 65535);
    Thirds(|s| / 65535, |s| % 65535);
  }

  lemma Thirds(q: nat, r: nat)
    ensures q * EncodedLength(65535) + EncodedLength(r) == EncodedLength(65535 * q + r)
  {
    assert (65535 * q + r + 2) / 3 == 21845 * q + (r + 2) / 3;
  }

  // The most bytes a visitor can receive from reads that return all that was asked for.
  const READ_LIMIT := 805281800

  lemma FullCutEncoded(s: Bytes)
    ensures EncodedTotal(FullCut(s)) <= MAX_READ_SIZE <==> |s| <= READ_LIMIT
  {
    hide Cut, CutLength, EncodedTotal, EncodedLength;
    if |s| > FIRST_CHUNK {
      var rest := s[FIRST_CHUNK..];
      CutEncoded(rest, CHUNK);
      CutLengthIs(|rest| / CHUNK, |rest| % CHUNK, CHUNK);
      EncodedFront(s[..FIRST_CHUNK], Cut(rest, CHUNK));
      Threshold(|rest| / CHUNK, |rest| % CHUNK);
    } else {
      CutEncoded(s, CHUNK);
      CutLengthIs(|s| / CHUNK, |s| % CHUNK, CHUNK);
      Threshold(|s| / CHUNK, |s| % CHUNK);
    }
  }

  lemma Threshold(q: nat, r: nat)
    requires r < CHUNK
    ensures EncodedLength(FIRST_CHUNK) + q * EncodedLength(CHUNK) + EncodedLength(r) <= MAX_READ_SIZE
      <==> FIRST_CHUNK + q * CHUNK + r <= READ_LIMIT
    ensures q * CHUNK + r <= FIRST_CHUNK ==> q * EncodedLength(CHUNK) + EncodedLength(r) <= MAX_READ_SIZE
  {
  }

  /** A request whose reads return all that they ask for: the slice arrives if and only if
      it is at most 805281800 bytes long, and otherwise the read is refused as too large. */
  lemma FullReadArrives(v: Visitor, ms: seq<Msg>, siteId: string, reqId: string, file: Bytes, header: Option<string>,
                        msgs: seq<Msg>)
    requires Answers(siteId, reqId, file, header, FullCut(Requested(file, header)), msgs)
    requires reqId in v.pending && v.pending[reqId] == Pending(siteId, [], 0) && reqId !in v.settled
    requires Only(ms, reqId) == msgs
    ensures Of(ReceiveAll(v, ms), reqId) == Standing(None, Some(
      if |Requested(file, header)| > READ_LIMIT then OverCap
      else if file == [] then Body(0, 0, -1, [])
      else Body(|file|, Wanted(file, header).start, Wanted(file, header).end, Requested(file, header))))
  {
    var slice := Requested(file, header);
    FullCutWhole(slice);
    FullCutEncoded(slice);
    RequestRoundTrip(v, ms, siteId, reqId, file, header, FullCut(slice), msgs);
  }

  // What the host sends for a whole file when its reads return all they ask for.
  function FullAnswer(siteId: string, reqId: string, file: Bytes): seq<Msg>
    requires file != []
  {
    DataMsgs(siteId, reqId, FullCut(file)) + [ReadEnd(siteId, reqId, |file|, 0, |file| - 1, file)]
  }

  lemma {:induction false} OnlyOwn(siteId: string, reqId: string, chunks: seq<Bytes>)
    ensures Only(DataMsgs(siteId, reqId, chunks), reqId) == DataMsgs(siteId, reqId, chunks)
  {
    if chunks != [] {
      var ms := DataMsgs(siteId, reqId, chunks);
      OnlyOwn(siteId, reqId, chunks[..|chunks| - 1]);
      assert ms[..|ms| - 1] == DataMsgs(siteId, reqId, chunks[..|chunks| - 1]);
    }
  }

  /** A file of 805281801 bytes, a quarter below the cap, asked for whole by a visitor with
      nothing else to do: the answer of the host is refused. */
  lemma UnderCapRefused(siteId: string, reqId: string)
    ensures var file: Bytes := seq(READ_LIMIT + 1, _ => 0);
      var v := Visitor(map[reqId := Pending(siteId, [], 0)], map[]);
      && |file| < MAX_READ_SIZE && |file| <= MAX_READ_SIZE / 4 * 3
      && Answers(siteId, reqId, file, None, FullCut(file), FullAnswer(siteId, reqId, file))
      && Of(ReceiveAll(v, FullAnswer(siteId, reqId, file)), reqId) == Standing(None, Some(OverCap))
  {
    var file: Bytes := seq(READ_LIMIT + 1, _ => 0);
    var v := Visitor(map[reqId := Pending(siteId, [], 0)], map[]);
    var data, msgs := DataMsgs(siteId, reqId, FullCut(file)), FullAnswer(siteId, reqId, file);
    FullCutWhole(file);
    assert Requested(file, None) == file;
    OnlyOwn(siteId, reqId, FullCut(file));
    assert msgs[..|msgs| - 1] == data;
    FullReadArrives(v, msgs, siteId, reqId, file, None, msgs);
  }

  // ─── The visitor in place ─────────────────────────────────────────────────

  class SiteVisitor {
    var pendingReads: map<string, Pending>
    var settled: map<string, Outcome>

    ghost function Now(): Visitor
      reads this
    {
      Visitor(pendingReads, settled)
    }

    method Read(siteId: string, reqId: string)
      requires reqId !in pendingReads && reqId !in settled
      modifies this
      ensures Now() == old(Now()).(pending := old(pendingReads)[reqId := Pending(siteId, [], 0)])
    {
      pendingReads := pendingReads[reqId := Pending(siteId, [], 0)];
    }

    method SettleRead(reqId: string, o: Outcome)
      modifies this
      ensures Now() == Settle(old(Now()), reqId, o)
    {
      pendingReads := pendingReads - {reqId};
      settled := settled[reqId := o];
    }

    method HandleReadData(siteId: string, reqId: string, data: Bytes)
      modifies this
      ensures Now() == Receive(old(Now()), ReadData(siteId, reqId, data))
    {
      if reqId !in pendingReads { return; }
      var p := pendingReads[reqId];
      if siteId != p.siteId { return; }
      p := p.(chunks := p.chunks + [data], bytes := p.bytes + EncodedLength(|data|));
      if p.bytes > MAX_READ_SIZE {
        SettleRead(reqId, OverCap);
      } else {
        pendingReads := pendingReads[reqId := p];
      }
    }

    method HandleReadEnd(m: Msg)
      requires !m.ReadData?
      modifies this
      ensures Now() == Receive(old(Now()), m)
    {
      if m.reqId !in pendingReads { return; }
      var p := pendingReads[m.reqId];
      if m.ReadFailed? {
        SettleRead(m.reqId, Failed);
        return;
      }
      var body := Joined(p.chunks);
      if body != m.hash {
        SettleRead(m.reqId, Mismatch);
      } else {
        SettleRead(m.reqId, Body(m.size, m.start, m.end, body));
      }
    }
  }

  method Joined(chunks: seq<Bytes>) returns (body: Bytes)
    ensures body == Concat(chunks)
  {
    body := [];
    for i := 0 to |chunks|
      invariant body == Concat(chunks[..i])
    {
      assert chunks[..i + 1][..i] == chunks[..i];
      body := body + chunks[i];
    }
    assert chunks[..|chunks|] == chunks;
  }
}
