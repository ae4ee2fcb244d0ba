/**
 * The span writer: for each time range of a span (only one is ever built) it
 * materialises the entries, builds the chunk and hands it to the store, logging and
 * otherwise ignoring the store's errors.
 */
module S3Store {

  import opened Wrappers
  import opened Timestamps
  import opened Streams
  import opened Chunks

  /**
   * A span as the writer formats it before building chunks: its label string, its log
   * line and its duration (the integer `span.Duration`, scaled by `time.Microsecond`).
   */
  datatype FormattedSpan = FormattedSpan(labels: string, logLine: string, duration: int)

  /** An error returned by the store. */
  datatype StoreError = StoreError(message: string)

  /** One call of the store's `PutOne(ctx, from, through, chunk)`. */
  datatype PutCall = PutCall(from: int, through: int, chunk: Chunk)

  /** How `WriteSpan` ends: it returns an error value, or a panic unwinds out of it. */
  datatype Exit = Returned(err: Option<StoreError>) | Aborted(reason: Panic)

  /** The store call the writer makes for a built chunk: the chunk with its own bounds. */
  function PutCallOf(c: Chunk): (call: PutCall)
  {
    PutCall(c.from, c.through, c)
  }

  /** The time ranges built for a span: the single range [now, now + duration µs). */
  function SpanRanges(now: int, duration: int): (ranges: seq<TimeRange>)
  {
    [TimeRange(now, now + duration * Microsecond)]
  }

  /** The chunk built, or the panic met, for each range, in order. */
  function ChunksFor(ranges: seq<TimeRange>, labels: string, line: string,
                     parseLabels: string -> Option<LabelSet>, fingerprint: LabelSet -> Fingerprint): (results: seq<BuildResult>)
  {
    seq(|ranges|, k requires 0 <= k < |ranges| =>
      ChunkOf(Stream(labels, Materialize(ranges[k], line)), parseLabels, fingerprint))
  }

  /** The store calls made for a list of build results, and the panic that ends them if any. */
  datatype Plan = Plan(calls: seq<PutCall>, panic: Option<Panic>)

  /**
   * What the loop of `WriteSpan` does with the chunks of its ranges: every chunk is
   * submitted with its own bounds, in order and without looking at the keys submitted
   * before; a panic while building a chunk stops the loop.
   */
  function Submit(results: seq<BuildResult>): (plan: Plan)
  {
    if |results| == 0 then Plan([], None)
    else
      match results[0]
      case Panicked(p) => Plan([], Some(p))
      case Built(c) =>
        var rest := Submit(results[1..]);
        Plan([PutCallOf(c)] + rest.calls, rest.panic)
  }

  /** What `WriteSpan` does for a span received at `now`. */
  function SpanPlan(span: FormattedSpan, now: int, parseLabels: string -> Option<LabelSet>,
                    fingerprint: LabelSet -> Fingerprint): (plan: Plan)
  {
    Submit(ChunksFor(SpanRanges(now, span.duration), span.labels, span.logLine, parseLabels, fingerprint))
  }

  /** The errors the store answers to `calls`, in order: the ones the writer logs. */
  function Failures(calls: seq<PutCall>, reply: PutCall -> Option<StoreError>): (errors: seq<StoreError>)
  {
    if |calls| == 0 then []
    else (if reply(calls[0]).Some? then [reply(calls[0]).value] else []) + Failures(calls[1..], reply)
  }

  /**
   * The writer logs exactly the errors the store answers, in the order of the calls, and
   * nothing when every call succeeds.
   */
  lemma {:induction false} FailuresAreStoreReplies(calls: seq<PutCall>, reply: PutCall -> Option<StoreError>)
    ensures |Failures(calls, reply)| <= |calls|
    ensures forall err :: err in Failures(calls, reply) <==> exists k :: 0 <= k < |calls| && reply(calls[k]) == Some(err)
  {
    if |calls| > 0 {
      FailuresAreStoreReplies(calls[1..], reply);
      forall err | (exists k :: 0 <= k < |calls| && reply(calls[k]) == Some(err))
        ensures err in Failures(calls, reply)
      {
        var k :| 0 <= k < |calls| && reply(calls[k]) == Some(err);
        if k > 0 {
          assert calls[1..][k - 1] == calls[k];
        }
      }
      forall err | err in Failures(calls, reply)
        ensures exists k :: 0 <= k < |calls| && reply(calls[k]) == Some(err)
      {
        if err !in Failures(calls[1..], reply) {
          assert reply(calls[0]) == Some(err);
        } else {
          var k :| 0 <= k < |calls[1..]| && reply(calls[1..][k]) == Some(err);
          assert reply(calls[k + 1]) == Some(err);
        }
      }
    }
  }

  /** The log of one call: its error if the store answered with one, nothing otherwise. */
  lemma FailuresOfOneCall(call: PutCall, reply: PutCall -> Option<StoreError>)
    ensures Failures([call], reply) == if reply(call).Some? then [reply(call).value] else []
  {
    assert [call][1..] == [];
  }

  /**
   * The log of consecutive calls is the log of the first ones followed by the log of the
   * rest: one entry per failed call, in the order of the calls.
   */
  lemma {:induction false} FailuresAppend(a: seq<PutCall>, b: seq<PutCall>, reply: PutCall -> Option<StoreError>)
    ensures Failures(a + b, reply) == Failures(a, reply) + Failures(b, reply)
    decreases |a|
  {
    if |a| > 0 {
      assert (a + b)[0] == a[0] && (a + b)[1..] == a[1..] + b;
      FailuresAppend(a[1..], b, reply);
    } else {
      assert a + b == b;
    }
  }

  /**
   * A materialised range starts at `from` and ends at its last whole second, so these
   * are the bounds of its entries.
   */
  lemma MaterializedBounds(tr: TimeRange, line: string)
    requires tr.from < tr.to
    ensures var s := Materialize(tr, line);
            |s| > 0 && MinNanos(s) == s[0].timestamp == tr.from && MaxNanos(s) == s[|s| - 1].timestamp
  {
    var s := Materialize(tr, line);
    MaterializeEmptyIff(tr, line);
    MaterializeShape(tr, line);
    MaterializeOrdered(tr, line);
    assert s[0].timestamp == tr.from;
  }

  /**
   * Unless a chunk fails to build, every chunk yields exactly one store call, with the
   * chunk and its own bounds, in order; none is skipped, even one that repeats an
   * earlier chunk and so its key.
   */
  lemma {:induction false} SubmitsEveryChunk(results: seq<BuildResult>)
    requires Submit(results).panic == None
    ensures |Submit(results).calls| == |results|
    ensures forall k :: 0 <= k < |results| ==>
              results[k].Built? && Submit(results).calls[k] == PutCallOf(results[k].chunk)
  {
    if |results| > 0 {
      var rest := results[1..];
      SubmitsEveryChunk(rest);
      var calls := Submit(results).calls;
      assert results[0].Built? && calls == [PutCallOf(results[0].chunk)] + Submit(rest).calls;
      forall k | 1 <= k < |results|
        ensures results[k].Built? && calls[k] == PutCallOf(results[k].chunk)
      {
        assert results[k] == rest[k - 1];
      }
    }
  }

  /** Submitting a single build result. */
  lemma SubmitOne(b: BuildResult)
    ensures Submit([b]) == if b.Built? then Plan([PutCallOf(b.chunk)], None) else Plan([], Some(b.reason))
  {
    assert [b][1..] == [];
  }

  /** A range listed twice is submitted twice, under the same chunk and so the same key. */
  lemma RepeatedRangeSubmittedTwice(tr: TimeRange, labels: string, line: string,
                                    parseLabels: string -> Option<LabelSet>,
                                    fingerprint: LabelSet -> Fingerprint)
    requires ChunkOf(Stream(labels, Materialize(tr, line)), parseLabels, fingerprint).Built?
    ensures var c := ChunkOf(Stream(labels, Materialize(tr, line)), parseLabels, fingerprint).chunk;
            Submit(ChunksFor([tr, tr], labels, line, parseLabels, fingerprint)) == Plan([PutCallOf(c), PutCallOf(c)], None)
  {
    var b := ChunkOf(Stream(labels, Materialize(tr, line)), parseLabels, fingerprint);
    var results := ChunksFor([tr, tr], labels, line, parseLabels, fingerprint);
    assert results == [b, b] && results[1..] == [b];
    SubmitOne(b);
  }

  /**
   * Writing a span panics before anything reaches the store when its label string does
   * not parse, or when its duration is zero or negative: the range is then empty, so is
   * the entry list, and the read of its first entry fails.
   */
  lemma SpanWritePanics(span: FormattedSpan, now: int, parseLabels: string -> Option<LabelSet>,
                        fingerprint: LabelSet -> Fingerprint)
    ensures var plan := SpanPlan(span, now, parseLabels, fingerprint);
            && (parseLabels(span.labels).None? ==> plan == Plan([], Some(LabelParseError)))
            && (parseLabels(span.labels).Some? && span.duration <= 0 ==> plan == Plan([], Some(IndexOutOfRange)))
            && (parseLabels(span.labels).Some? && span.duration > 0 ==> plan.panic == None)
  {
    var tr := SpanRanges(now, span.duration)[0];
    var b := ChunkOf(Stream(span.labels, Materialize(tr, span.logLine)), parseLabels, fingerprint);
    assert ChunksFor(SpanRanges(now, span.duration), span.labels, span.logLine, parseLabels, fingerprint) == [b];
    SubmitOne(b);
    MicrosecondsKeepSign(span.duration);
    MaterializeEmptyIff(tr, span.logLine);
  }

  /**
   * The chunk built for a non-empty range holds the range's entries, one per started
   * second, and is bounded by the milliseconds of the range's start and of its last
   * entry.
   */
  lemma RangeChunk(tr: TimeRange, labels: string, line: string,
                   parseLabels: string -> Option<LabelSet>, fingerprint: LabelSet -> Fingerprint)
    requires parseLabels(labels).Some? && tr.from < tr.to
    ensures var b := ChunkOf(Stream(labels, Materialize(tr, line)), parseLabels, fingerprint);
            && b.Built? && b.chunk.userID == Tenant && MetricName in b.chunk.metric
            && b.chunk.metric == WithMetricName(parseLabels(labels).value)
            && b.chunk.fingerprint == fingerprint(b.chunk.metric)
            && |b.chunk.data| == CeilSeconds(tr.from, tr.to)
            && (forall k :: 0 <= k < |b.chunk.data| ==> b.chunk.data[k] == Entry(tr.from + k * Second, line))
            && b.chunk.from == TimeFromUnixNano(tr.from)
            && b.chunk.through == TimeFromUnixNano(b.chunk.data[|b.chunk.data| - 1].timestamp)
  {
    MaterializeShape(tr, line);
    MaterializedBounds(tr, line);
  }

  /**
   * Otherwise writing a span submits exactly one chunk, with the chunk's own bounds: one
   * entry per started second of [now, now + duration µs), each carrying the span's log
   * line, bounded by the milliseconds of `now` and of the last entry, for tenant "fake"
   * and under a label set that names the series.
   */
  lemma SpanWriteSubmitsOneChunk(span: FormattedSpan, now: int, parseLabels: string -> Option<LabelSet>,
                                 fingerprint: LabelSet -> Fingerprint)
    requires parseLabels(span.labels).Some? && span.duration > 0
    ensures var plan := SpanPlan(span, now, parseLabels, fingerprint);
            && plan.panic == None && |plan.calls| == 1
            && var call := plan.calls[0];
            && call.from == call.chunk.from && call.through == call.chunk.through
            && call.chunk.userID == Tenant && MetricName in call.chunk.metric
            && call.chunk.metric == WithMetricName(parseLabels(span.labels).value)
            && call.chunk.fingerprint == fingerprint(call.chunk.metric)
            && |call.chunk.data| == CeilSeconds(now, now + span.duration * Microsecond)
            && (forall k :: 0 <= k < |call.chunk.data| ==> call.chunk.data[k] == Entry(now + k * Second, span.logLine))
            && call.chunk.from == TimeFromUnixNano(now)
            && call.chunk.through == TimeFromUnixNano(call.chunk.data[|call.chunk.data| - 1].timestamp)
  {
    var tr := SpanRanges(now, span.duration)[0];
    MicrosecondsKeepSign(span.duration);
    RangeChunk(tr, span.labels, span.logLine, parseLabels, fingerprint);
    var b := ChunkOf(Stream(span.labels, Materialize(tr, span.logLine)), parseLabels, fingerprint);
    assert ChunksFor(SpanRanges(now, span.duration), span.labels, span.logLine, parseLabels, fingerprint) == [b];
    SubmitOne(b);
  }

  /**
   * The chunk store. Only the calls made to it are modelled; whether a call succeeds is
   * decided by `reply`, which is arbitrary.
   */
  class Store {
    var puts: seq<PutCall>
    const reply: PutCall -> Option<StoreError>

    constructor (reply: PutCall -> Option<StoreError>)
      ensures puts == [] && this.reply == reply
    {
      puts := [];
      this.reply := reply;
    }

    /** Records the call and answers it as `reply` says. */
    method PutOne(from: int, through: int, c: Chunk) returns (err: Option<StoreError>)
      modifies this
      ensures puts == old(puts) + [PutCall(from, through, c)]
      ensures err == reply(PutCall(from, through, c))
    {
      puts := puts + [PutCall(from, through, c)];
      err := reply(PutCall(from, through, c));
    }
  }

  /**
   * The writer. The label parser, the fingerprint hash and the chunk key are external
   * and given at construction; `logged` holds the store errors written to the log.
   */
  class Writer {
    const store: Store
    const parseLabels: string -> Option<LabelSet>
    const fingerprint: LabelSet -> Fingerprint
    const externalKey: Chunk -> string
    var logged: seq<StoreError>

    /** `NewWriter`: keeps the store; nothing else is set up. */
    constructor (store: Store, parseLabels: string -> Option<LabelSet>,
                 fingerprint: LabelSet -> Fingerprint, externalKey: Chunk -> string)
      ensures this.store == store && this.parseLabels == parseLabels
      ensures this.fingerprint == fingerprint && this.externalKey == externalKey
      ensures logged == []
    {
      this.store := store;
      this.parseLabels := parseLabels;
      this.fingerprint := fingerprint;
      this.externalKey := externalKey;
      logged := [];
    }

    /** `Close` releases nothing and always succeeds. */
    method Close() returns (err: Option<StoreError>)
      ensures err == None
    {
      err := None;
    }

    /**
     * `WriteSpan`: builds the chunk of each range, submits it with its own bounds, logs a
     * failed submission and goes on; it returns no error unless building a chunk panics.
     */
    method WriteSpan(span: FormattedSpan, now: int) returns (r: Exit)
      modifies this, store
      ensures var plan := SpanPlan(span, now, parseLabels, fingerprint);
              && store.puts == old(store.puts) + plan.calls
              && logged == old(logged) + Failures(plan.calls, store.reply)
              && r == if plan.panic.Some? then Aborted(plan.panic.value) else Returned(None)
    {
      var ranges := SpanRanges(now, span.duration);
      ghost var results := ChunksFor(ranges, span.labels, span.logLine, parseLabels, fingerprint);
      ghost var plan := Submit(results);
      var addedChunkIDs: set<string> := {};
      var i := 0;
      while i < |ranges|
        invariant 0 <= i <= |ranges|
        invariant var rest := Submit(results[i..]);
                  && store.puts + rest.calls == old(store.puts) + plan.calls
                  && logged + Failures(rest.calls, store.reply) == old(logged) + Failures(plan.calls, store.reply)
                  && rest.panic == plan.panic
      {
        var stream := BuildTestStreams(span.labels, ranges[i], span.logLine);
        var built := NewChunk(stream, parseLabels, fingerprint);
        assert built == results[i] == results[i..][0];
        assert results[i..][1..] == results[i + 1..];
        if built.Panicked? {
          return Aborted(built.reason);
        }
        var chk := built.chunk;
        var err := store.PutOne(chk.from, chk.through, chk);
        if err.Some? {
          logged := logged + [err.value];
        }
        addedChunkIDs := addedChunkIDs + {externalKey(chk)};
        i := i + 1;
      }
      return Returned(None);
    }
  }
}
