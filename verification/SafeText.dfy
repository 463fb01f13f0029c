/** Safe text storage: cutting a text at character boundaries, and the usage
    counters that keep room for one limit marker. */
module SafeText {
  import opened LedgerTypes
  import opened Utf8

  const MAXIMUM_CHUNK: nat := 16 * 1024 * 1024
  const MAXIMUM_TEXT: nat := 512 * 1024 * 1024
  const MAXIMUM_CHUNKS: nat := 64
  const MAXIMUM_PREVIEW: nat := 64 * 1024

  // ---------------------------------------------------------------- cutting

  /** The back-off loop: the longest well-formed prefix of at most `limit` bytes. */
  method BackOff(text: seq<Byte>, start: nat, limit: nat) returns (end: nat)
    requires start <= |text|
    ensures start <= end <= |text| && end <= start + limit
    ensures WellFormed(text[start..end])
    ensures forall k :: end < k <= |text| && k <= start + limit ==> !WellFormed(text[start..k])
  {
    end := if start + limit > |text| then |text| else start + limit;
    while end > start && !WellFormed(text[start..end])
      invariant start <= end <= |text| && end <= start + limit
      invariant forall k :: end < k <= |text| && k <= start + limit ==> !WellFormed(text[start..k])
    {
      end := end - 1;
    }
  }

  lemma CutsFar(text: seq<Byte>, start: nat, limit: nat, end: nat)
    requires start <= end <= |text| && WellFormed(text[start..]) && end <= start + limit
    requires forall k :: end < k <= |text| && k <= start + limit ==> !WellFormed(text[start..k])
    ensures end == |text| || end + 3 >= start + limit
    ensures limit >= 4 && start < |text| ==> end > start
  {
    var reach := if start + limit > |text| then |text| else start + limit;
    var rest := text[start..];
    var j := NearBoundary(rest, reach - start);
    assert text[start..start + j] == rest[..j];
    assert text[start..|text|] == rest;
  }

  datatype Span = Span(start: nat, end: nat)

  /** Consecutive spans from `from` to `to`. */
  predicate Tiles(spans: seq<Span>, from: nat, to: nat) {
    if spans == [] then from == to
    else
      && spans[|spans| - 1].end == to && spans[|spans| - 1].start <= to
      && Tiles(spans[..|spans| - 1], from, spans[|spans| - 1].start)
  }

  function Join(text: seq<Byte>, spans: seq<Span>): seq<Byte>
    requires forall i :: 0 <= i < |spans| ==> spans[i].start <= spans[i].end <= |text|
  {
    if spans == [] then []
    else Join(text, spans[..|spans| - 1]) + text[spans[|spans| - 1].start..spans[|spans| - 1].end]
  }

  predicate GoodSpan(text: seq<Byte>, s: Span, limit: nat) {
    s.start < s.end <= |text| && s.end - s.start <= limit && WellFormed(text[s.start..s.end])
  }

  /** The chunk loop. It succeeds on exactly the well-formed texts once a chunk can
      hold any character, and then every chunk is non-empty, bounded and
      well-formed, the chunks tile the text, and all but the last are nearly full. */
  method CutChunks(text: seq<Byte>, limit: nat) returns (r: Result<seq<Span>>)
    requires limit > 0
    ensures r.Ok? ==>
      && Tiles(r.value, 0, |text|)
      && (forall i :: 0 <= i < |r.value| ==> GoodSpan(text, r.value[i], limit))
      && (WellFormed(text) ==> forall i :: 0 <= i < |r.value| - 1 ==> r.value[i].end - r.value[i].start + 3 >= limit)
    ensures limit >= 4 ==> (r.Ok? <==> WellFormed(text))
  {
    hide WellFormed, Tiles, GoodSpan;
    var spans: seq<Span> := [];
    var start := 0;
    NothingCut(text, limit);
    while start < |text|
      invariant start <= |text| && Cut(text, spans, start, limit)
      decreases |text| - start
    {
      var end := BackOff(text, start, limit);
      if WellFormed(text) {
        Remainder(text, spans, start, limit);
        CutsFar(text, start, limit, end);
      }
      if end == start { return Err(Unavailable); }
      CutMore(text, spans, start, end, limit);
      spans := spans + [Span(start, end)];
      start := end;
    }
    assert text[..start] == text;
    Ordered(text, spans, limit);
    return Ok(spans);
  }

  /** The state of the chunk loop: the text before `start` is cut. */
  ghost predicate Cut(text: seq<Byte>, spans: seq<Span>, start: nat, limit: nat) {
    && start <= |text| && Tiles(spans, 0, start) && WellFormed(text[..start])
    && (forall i :: 0 <= i < |spans| ==> GoodSpan(text, spans[i], limit))
    && (WellFormed(text) ==> forall i :: 0 <= i < |spans| ==>
         spans[i].end - spans[i].start + 3 >= limit || spans[i].end == |text|)
  }

  lemma NothingCut(text: seq<Byte>, limit: nat)
    ensures Cut(text, [], 0, limit)
  {
  }

  lemma Remainder(text: seq<Byte>, spans: seq<Span>, start: nat, limit: nat)
    requires Cut(text, spans, start, limit) && WellFormed(text)
    ensures WellFormed(text[start..])
  {
    hide WellFormed;
    assert text[..start] + text[start..] == text;
    Concatenation(text[..start], text[start..]);
  }

  lemma CutMore(text: seq<Byte>, spans: seq<Span>, start: nat, end: nat, limit: nat)
    requires Cut(text, spans, start, limit) && start < end <= |text| && end - start <= limit
    requires WellFormed(text[start..end])
    requires WellFormed(text) ==> end == |text| || end + 3 >= start + limit
    ensures Cut(text, spans + [Span(start, end)], end, limit)
  {
    hide WellFormed;
    var more := spans + [Span(start, end)];
    assert more[..|more| - 1] == spans;
    assert text[..start] + text[start..end] == text[..end];
    Concatenation(text[..start], text[start..end]);
  }

  /** Only the last of some tiles can reach the end of the text. */
  lemma Ordered(text: seq<Byte>, spans: seq<Span>, limit: nat)
    requires Tiles(spans, 0, |text|) && forall i :: 0 <= i < |spans| ==> GoodSpan(text, spans[i], limit)
    ensures forall i :: 0 <= i < |spans| - 1 ==> spans[i].end < |text|
  {
    if |spans| > 1 {
      var last := spans[|spans| - 1];
      TilesEnd(text, spans[..|spans| - 1], last.start, limit);
      forall i | 0 <= i < |spans| - 1
        ensures spans[i].end < |text|
      {
        assert spans[i] == spans[..|spans| - 1][i];
      }
    }
  }

  lemma {:induction false} TilesEnd(text: seq<Byte>, spans: seq<Span>, to: nat, limit: nat)
    requires Tiles(spans, 0, to) && forall i :: 0 <= i < |spans| ==> GoodSpan(text, spans[i], limit)
    ensures forall i :: 0 <= i < |spans| ==> spans[i].end <= to
  {
    if spans != [] {
      var before := spans[..|spans| - 1];
      TilesEnd(text, before, spans[|spans| - 1].start, limit);
      forall i | 0 <= i < |spans|
        ensures spans[i].end <= to
      {
        if i < |before| { assert spans[i] == before[i]; }
      }
    }
  }

  /** The chunks put together are the text. */
  lemma {:induction false} TilesJoin(text: seq<Byte>, spans: seq<Span>, to: nat, limit: nat)
    requires to <= |text| && Tiles(spans, 0, to) && forall i :: 0 <= i < |spans| ==> GoodSpan(text, spans[i], limit)
    ensures (forall i :: 0 <= i < |spans| ==> spans[i].start <= spans[i].end <= |text|)
    ensures Join(text, spans) == text[..to]
  {
    hide WellFormed;
    if spans != [] {
      var before := spans[..|spans| - 1];
      TilesJoin(text, before, spans[|spans| - 1].start, limit);
    }
  }

  lemma {:induction false} FewChunks(text: seq<Byte>, spans: seq<Span>, to: nat, limit: nat)
    requires limit > 3 && Tiles(spans, 0, to) && to <= |text|
    requires forall i :: 0 <= i < |spans| ==> GoodSpan(text, spans[i], limit)
    requires forall i :: 0 <= i < |spans| ==> spans[i].end - spans[i].start + 3 >= limit
    ensures |spans| * (limit - 3) <= to
  {
    hide WellFormed;
    if spans != [] {
      var before := spans[..|spans| - 1];
      FewChunks(text, before, spans[|spans| - 1].start, limit);
      OneMore(|before|, limit - 3, spans[|spans| - 1].start, to);
    }
  }

  lemma OneMore(n: nat, width: nat, from: nat, to: nat)
    requires n * width <= from && from + width <= to
    ensures (n + 1) * width <= to
  {
  }

  lemma AtMost(n: nat, width: nat, total: nat)
    requires n * width <= total && width == MAXIMUM_CHUNK - 3 && total == MAXIMUM_TEXT
    ensures n <= 32
  {
  }

  /** A well-formed text within the size limit never needs more chunks than a
      manifest may list. */
  lemma ChunksFitManifest(text: seq<Byte>, spans: seq<Span>)
    requires |text| <= MAXIMUM_TEXT && Tiles(spans, 0, |text|)
    requires forall i :: 0 <= i < |spans| ==> GoodSpan(text, spans[i], MAXIMUM_CHUNK)
    requires forall i :: 0 <= i < |spans| - 1 ==> spans[i].end - spans[i].start + 3 >= MAXIMUM_CHUNK
    ensures |spans| <= 33 <= MAXIMUM_CHUNKS
  {
    hide WellFormed;
    if spans != [] {
      var before := spans[..|spans| - 1];
      FewChunks(text, before, spans[|spans| - 1].start, MAXIMUM_CHUNK);
      AtMost(|before|, MAXIMUM_CHUNK - 3, MAXIMUM_TEXT);
    }
  }

  /** The preview is the longest well-formed prefix within its limit, and loses at
      most three bytes of it on well-formed text. */
  method Preview(text: seq<Byte>) returns (preview: seq<Byte>)
    ensures preview <= text
    ensures |text| <= MAXIMUM_PREVIEW ==> preview == text
    ensures |text| > MAXIMUM_PREVIEW ==> WellFormed(preview) && |preview| <= MAXIMUM_PREVIEW
    ensures |text| > MAXIMUM_PREVIEW && WellFormed(text) ==> |preview| + 3 >= MAXIMUM_PREVIEW
  {
    if |text| <= MAXIMUM_PREVIEW { return text; }
    preview := text[..MAXIMUM_PREVIEW];
    while preview != [] && !WellFormed(preview)
      invariant preview <= text && |preview| <= MAXIMUM_PREVIEW
      invariant forall k :: |preview| < k <= MAXIMUM_PREVIEW ==> !WellFormed(text[..k])
    {
      assert preview == text[..|preview|];
      preview := preview[..|preview| - 1];
    }
    if WellFormed(text) {
      var j := NearBoundary(text, MAXIMUM_PREVIEW);
    }
  }

  // ----------------------------------------------------------------- usage

  const MAXIMUM_SOURCES := 1024
  const MAXIMUM_STORED_CHUNKS := 2048
  const MAXIMUM_STORAGE := 1024 * 1024 * 1024
  const MARKER_RESERVE := 512 * 1024

  datatype Usage = Usage(textBytes: int, storageBytes: int, sources: int, chunks: int, sealed: bool)

  predicate ValidUsage(u: Usage) {
    && 0 <= u.textBytes <= MAXIMUM_TEXT && 0 <= u.storageBytes <= MAXIMUM_STORAGE
    && 0 <= u.sources <= MAXIMUM_SOURCES && 0 <= u.chunks <= MAXIMUM_STORED_CHUNKS && (u.sealed ==> u.sources > 0)
  }

  predicate CanStoreComplete(u: Usage, textBytes: int, storageBytes: int, chunks: int) {
    && ValidUsage(u) && !u.sealed && textBytes >= 0 && storageBytes >= textBytes && chunks >= 0
    && u.textBytes <= MAXIMUM_TEXT - textBytes
    && u.storageBytes <= MAXIMUM_STORAGE - MARKER_RESERVE - storageBytes
    && u.sources < MAXIMUM_SOURCES - 1 && u.chunks <= MAXIMUM_STORED_CHUNKS - chunks
  }

  /** A new source: its size, its chunks, the sizes of its complete manifest and of
      the marker that would replace it, and whether it arrived incomplete. */
  datatype Source = Source(size: nat, chunks: nat, manifest: nat, marker: nat, incomplete: bool)

  datatype Fault = ReserveInvalid | ExceedsBound

  datatype Captured = Stored(usage: Usage) | Marked(usage: Usage) | Skipped | Faulty(fault: Fault)

  function Updated(u: Usage, s: Source, complete: bool): Usage {
    if complete
    then Usage(u.textBytes + s.size, u.storageBytes + s.manifest + s.size, u.sources + 1, u.chunks + s.chunks, u.sealed)
    else Usage(u.textBytes, u.storageBytes + s.marker, u.sources + 1, u.chunks, true)
  }

  /** captureSafeText from the usage it loads to the usage it stores. */
  function Capture(u: Usage, s: Source): Captured {
    if u.sealed then Skipped
    else if !s.incomplete && s.size <= MAXIMUM_TEXT && CanStoreComplete(u, s.size, s.size + s.manifest, s.chunks) then
      if ValidUsage(Updated(u, s, true)) then Stored(Updated(u, s, true)) else Faulty(ExceedsBound)
    else if s.marker > MARKER_RESERVE || u.sources >= MAXIMUM_SOURCES
        || u.storageBytes > MAXIMUM_STORAGE - s.marker then Faulty(ReserveInvalid)
    else if ValidUsage(Updated(u, s, false)) then Marked(Updated(u, s, false)) else Faulty(ExceedsBound)
  }

  function Next(u: Usage, s: Source): Usage {
    if Capture(u, s).Stored? || Capture(u, s).Marked? then Capture(u, s).usage else u
  }

  function UsageAfter(run: seq<Source>): Usage {
    if run == [] then Usage(0, 0, 0, 0, false) else Next(UsageAfter(run[..|run| - 1]), run[|run| - 1])
  }

  /** Room for one more limit marker of reserve size. */
  predicate KeepsReserve(u: Usage) {
    !u.sealed ==> u.storageBytes + MARKER_RESERVE <= MAXIMUM_STORAGE && u.sources < MAXIMUM_SOURCES
  }

  /** Over any run the counters stay in bounds, and an unsealed usage always has
      room for one marker. */
  lemma {:induction false} ReserveKept(run: seq<Source>)
    ensures ValidUsage(UsageAfter(run)) && KeepsReserve(UsageAfter(run))
  {
    if run != [] { ReserveKept(run[..|run| - 1]); }
  }

  /** So no usage update ever exceeds its bound, and a capture fails only when the
      marker it needs is itself larger than the reserve. */
  lemma {:induction false} CaptureFails(run: seq<Source>, s: Source)
    ensures var u := UsageAfter(run);
      && Capture(u, s) != Faulty(ExceedsBound)
      && (Capture(u, s).Faulty? <==>
            && !u.sealed && s.marker > MARKER_RESERVE
            && !(!s.incomplete && s.size <= MAXIMUM_TEXT && CanStoreComplete(u, s.size, s.size + s.manifest, s.chunks)))
  {
    ReserveKept(run);
  }

  /** After the first marker nothing is counted any more. */
  lemma {:induction false} SealedForever(run: seq<Source>, k: nat)
    requires k <= |run| && UsageAfter(run[..k]).sealed
    ensures UsageAfter(run) == UsageAfter(run[..k])
    decreases |run|
  {
    if k < |run| {
      assert run[..|run| - 1][..k] == run[..k];
      SealedForever(run[..|run| - 1], k);
    } else {
      assert run[..k] == run;
    }
  }
}
