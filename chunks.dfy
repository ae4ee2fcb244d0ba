/**
 * The chunk builder (`newChunk`): parse the stream's labels, make sure the series name
 * label is present, scan the entries for their time bounds, append them to a block,
 * seal it and assemble the chunk for the fixed tenant.
 */
module Chunks {

  import opened Wrappers
  import opened Timestamps
  import opened Streams

  /** Parsed labels (`labels.Labels`): names are unique, so a map from name to value. */
  type LabelSet = map<string, string>

  /** The series fingerprint (`model.Fingerprint`), a 64-bit hash. */
  newtype Fingerprint = x: int | 0 <= x < 0x1_0000_0000_0000_0000

  /** Reserved label holding the series name (`labels.MetricName`). */
  const MetricName: string := "__name__"

  /** The series name given to span chunks whose labels lack one. */
  const SpanSeriesName: string := "spans"

  /** The tenant every chunk is built for. */
  const Tenant: string := "fake"

  /** The block size the chunk encoder is created with: 256 KiB. */
  const BlockSize: nat := 256 * 1024

  /** Why building a chunk stops the process. */
  datatype Panic =
    | LabelParseError   // the label string does not parse
    | IndexOutOfRange   // the stream has no entries, so `Entries[0]` does not exist

  /**
   * A `chunk.Chunk`: tenant, fingerprint of the label set, the label set, the sealed
   * block's entries, and the bounds in milliseconds.
   */
  datatype Chunk = Chunk(userID: string, fingerprint: Fingerprint, metric: LabelSet,
                         data: seq<Entry>, from: int, through: int)

  /** What `newChunk` does: return a chunk or panic. */
  datatype BuildResult = Built(chunk: Chunk) | Panicked(reason: Panic)

  /**
   * The label defaulting in `newChunk`: when the series name label is missing it is
   * added with the value "spans"; nothing else is touched.
   */
  function WithMetricName(lbs: LabelSet): (r: LabelSet)
    ensures MetricName in r
    ensures MetricName in lbs ==> r == lbs
    ensures MetricName !in lbs ==> r.Keys == lbs.Keys + {MetricName} && r[MetricName] == SpanSeriesName
    ensures forall name :: name in lbs ==> name in r && r[name] == lbs[name]
  {
    if MetricName in lbs then lbs else lbs[MetricName := SpanSeriesName]
  }

  /** The smallest timestamp among the entries, whatever their order. */
  function MinNanos(entries: seq<Entry>): (m: int)
    requires |entries| > 0
    ensures forall k :: 0 <= k < |entries| ==> m <= entries[k].timestamp
    ensures exists k :: 0 <= k < |entries| && entries[k].timestamp == m
  {
    if |entries| == 1 then entries[0].timestamp
    else
      var init := entries[..|entries| - 1];
      assert forall k :: 0 <= k < |init| ==> init[k] == entries[k];
      Min(MinNanos(init), entries[|entries| - 1].timestamp)
  }

  /** The largest timestamp among the entries, whatever their order. */
  function MaxNanos(entries: seq<Entry>): (m: int)
    requires |entries| > 0
    ensures forall k :: 0 <= k < |entries| ==> entries[k].timestamp <= m
    ensures exists k :: 0 <= k < |entries| && entries[k].timestamp == m
  {
    if |entries| == 1 then entries[0].timestamp
    else
      var init := entries[..|entries| - 1];
      assert forall k :: 0 <= k < |init| ==> init[k] == entries[k];
      Max(MaxNanos(init), entries[|entries| - 1].timestamp)
  }

  /** Extending a prefix by one entry widens its bounds by that entry. */
  lemma PrefixBounds(entries: seq<Entry>, i: nat)
    requires 0 < i < |entries|
    ensures MinNanos(entries[..i + 1]) == Min(MinNanos(entries[..i]), entries[i].timestamp)
    ensures MaxNanos(entries[..i + 1]) == Max(MaxNanos(entries[..i]), entries[i].timestamp)
  {
    var p := entries[..i + 1];
    assert p[..|p| - 1] == entries[..i];
  }

  /**
   * The lower bound after the first `i` iterations of the scan in `newChunk`: it starts
   * at the first entry's millisecond and drops to an entry's millisecond whenever that
   * entry's nanoseconds are below the bound scaled back to nanoseconds.
   */
  function ScanLower(entries: seq<Entry>, i: nat): (from: int)
    requires 0 < |entries| && i <= |entries|
  {
    if i == 0 then TimeFromUnixNano(entries[0].timestamp)
    else
      var from := ScanLower(entries, i - 1);
      if entries[i - 1].timestamp < UnixNano(from) then TimeFromUnixNano(entries[i - 1].timestamp) else from
  }

  /** The upper bound after the first `i` iterations of the scan in `newChunk`. */
  function ScanUpper(entries: seq<Entry>, i: nat): (through: int)
    requires 0 < |entries| && i <= |entries|
  {
    if i == 0 then TimeFromUnixNano(entries[0].timestamp)
    else
      var through := ScanUpper(entries, i - 1);
      if entries[i - 1].timestamp > UnixNano(through) then TimeFromUnixNano(entries[i - 1].timestamp) else through
  }

  /** One iteration of the lower-bound scan keeps it the truncated minimum of the prefix. */
  lemma ScanLowerStep(entries: seq<Entry>, i: nat)
    requires 0 < i <= |entries|
    requires i > 1 ==> ScanLower(entries, i - 1) == TimeFromUnixNano(MinNanos(entries[..i - 1]))
    ensures ScanLower(entries, i) == TimeFromUnixNano(MinNanos(entries[..i]))
  {
    var e := entries[i - 1].timestamp;
    if i == 1 {
      assert entries[..1] == [entries[0]];
      LowerBoundStep(e, e);
    } else {
      LowerBoundStep(MinNanos(entries[..i - 1]), e);
      PrefixBounds(entries, i - 1);
    }
  }

  /** One iteration of the upper-bound scan keeps it the truncated maximum of the prefix. */
  lemma ScanUpperStep(entries: seq<Entry>, i: nat)
    requires 0 < i <= |entries|
    requires i > 1 ==> ScanUpper(entries, i - 1) == TimeFromUnixNano(MaxNanos(entries[..i - 1]))
    ensures ScanUpper(entries, i) == TimeFromUnixNano(MaxNanos(entries[..i]))
  {
    var e := entries[i - 1].timestamp;
    if i == 1 {
      assert entries[..1] == [entries[0]];
      UpperBoundStep(e, e);
    } else {
      UpperBoundStep(MaxNanos(entries[..i - 1]), e);
      PrefixBounds(entries, i - 1);
    }
  }

  /**
   * The scan's lower bound is the truncated minimum of the entries scanned, although
   * each comparison is made against an already truncated bound.
   */
  lemma {:induction false} ScanLowerIsTruncatedMin(entries: seq<Entry>, i: nat)
    requires 0 < i <= |entries|
    ensures ScanLower(entries, i) == TimeFromUnixNano(MinNanos(entries[..i]))
  {
    if i > 1 {
      ScanLowerIsTruncatedMin(entries, i - 1);
    }
    ScanLowerStep(entries, i);
  }

  /** The scan's upper bound is the truncated maximum of the entries scanned. */
  lemma {:induction false} ScanUpperIsTruncatedMax(entries: seq<Entry>, i: nat)
    requires 0 < i <= |entries|
    ensures ScanUpper(entries, i) == TimeFromUnixNano(MaxNanos(entries[..i]))
  {
    if i > 1 {
      ScanUpperIsTruncatedMax(entries, i - 1);
    }
    ScanUpperStep(entries, i);
  }

  /**
   * What `newChunk` computes for a stream, given the label parser and the fingerprint
   * hash (both external): the parse is checked first, then the first entry is read.
   */
  function ChunkOf(stream: Stream, parseLabels: string -> Option<LabelSet>,
                   fingerprint: LabelSet -> Fingerprint): (r: BuildResult)
    ensures r == Panicked(LabelParseError) <==> parseLabels(stream.labels).None?
    ensures r == Panicked(IndexOutOfRange) <==> parseLabels(stream.labels).Some? && |stream.entries| == 0
    ensures r.Built? ==> r.chunk.userID == Tenant && MetricName in r.chunk.metric
                         && r.chunk.fingerprint == fingerprint(r.chunk.metric)
                         && r.chunk.data == stream.entries && r.chunk.from <= r.chunk.through
    ensures r.Built? ==> |stream.entries| > 0
                         && r.chunk.metric == WithMetricName(parseLabels(stream.labels).value)
                         && r.chunk.from == TimeFromUnixNano(MinNanos(stream.entries))
                         && r.chunk.through == TimeFromUnixNano(MaxNanos(stream.entries))
  {
    match parseLabels(stream.labels)
    case None => Panicked(LabelParseError)
    case Some(parsed) =>
      if |stream.entries| == 0 then Panicked(IndexOutOfRange)
      else
        var lbs := WithMetricName(parsed);
        var lo, hi := MinNanos(stream.entries), MaxNanos(stream.entries);
        TimeFromUnixNanoMonotone(lo, hi);
        Built(Chunk(Tenant, fingerprint(lbs), lbs, stream.entries, TimeFromUnixNano(lo), TimeFromUnixNano(hi)))
  }

  /**
   * The chunk's bounds are the earliest and the latest millisecond among its entries:
   * every entry lies within them and each is reached by some entry.
   */
  lemma ChunkBoundsAreEntryBounds(stream: Stream, parseLabels: string -> Option<LabelSet>,
                                  fingerprint: LabelSet -> Fingerprint)
    requires ChunkOf(stream, parseLabels, fingerprint).Built?
    ensures var c := ChunkOf(stream, parseLabels, fingerprint).chunk;
            && (forall k :: 0 <= k < |c.data| ==>
                  c.from <= TimeFromUnixNano(c.data[k].timestamp) <= c.through)
            && (exists k :: 0 <= k < |c.data| && TimeFromUnixNano(c.data[k].timestamp) == c.from)
            && (exists k :: 0 <= k < |c.data| && TimeFromUnixNano(c.data[k].timestamp) == c.through)
  {
    var c := ChunkOf(stream, parseLabels, fingerprint).chunk;
    var lo, hi := MinNanos(c.data), MaxNanos(c.data);
    forall k | 0 <= k < |c.data|
      ensures c.from <= TimeFromUnixNano(c.data[k].timestamp) <= c.through
    {
      TimeFromUnixNanoMonotone(lo, c.data[k].timestamp);
      TimeFromUnixNanoMonotone(c.data[k].timestamp, hi);
    }
  }

  /** The bounds of a collection of entries do not depend on the order they come in. */
  lemma BoundsIgnoreOrder(a: seq<Entry>, b: seq<Entry>)
    requires |a| > 0 && multiset(a) == multiset(b)
    ensures |b| > 0 && MinNanos(a) == MinNanos(b) && MaxNanos(a) == MaxNanos(b)
  {
    assert a[0] in multiset(b);
    forall x | x in multiset(a) ensures x in b { }
    forall x | x in multiset(b) ensures x in a { }
    var ka :| 0 <= ka < |a| && a[ka].timestamp == MinNanos(a);
    var kb :| 0 <= kb < |b| && b[kb].timestamp == MinNanos(b);
    assert a[ka] in b && b[kb] in a;
    var ja :| 0 <= ja < |a| && a[ja].timestamp == MaxNanos(a);
    var jb :| 0 <= jb < |b| && b[jb].timestamp == MaxNanos(b);
    assert a[ja] in b && b[jb] in a;
  }

  /**
   * Reordering the entries of a stream changes nothing in the chunk built from it but
   * the order of its data: the outcome, tenant, labels, fingerprint and bounds agree.
   */
  lemma ChunkIgnoresEntryOrder(s: Stream, t: Stream, parseLabels: string -> Option<LabelSet>,
                               fingerprint: LabelSet -> Fingerprint)
    requires s.labels == t.labels && multiset(s.entries) == multiset(t.entries)
    ensures var r1, r2 := ChunkOf(s, parseLabels, fingerprint), ChunkOf(t, parseLabels, fingerprint);
            && r1.Built? == r2.Built?
            && (r1.Panicked? ==> r1 == r2)
            && (r1.Built? ==> r1.chunk.(data := t.entries) == r2.chunk)
  {
    if |s.entries| > 0 {
      BoundsIgnoreOrder(s.entries, t.entries);
    } else {
      assert |t.entries| == |multiset(t.entries)| == 0;
    }
  }

  /**
   * The in-memory block the entries are appended to (`chunkenc.MemChunk`); compression
   * is not modelled, so the block is the sequence of entries appended so far.
   */
  class MemBlock {
    const blockSize: nat
    var entries: seq<Entry>
    var closed: bool

    constructor (blockSize: nat)
      ensures this.blockSize == blockSize && entries == [] && !closed
    {
      this.blockSize := blockSize;
      entries := [];
      closed := false;
    }

    /** Adds an entry at the end; a sealed block takes no more entries. */
    method Append(e: Entry)
      requires !closed
      modifies this
      ensures entries == old(entries) + [e] && !closed
    {
      entries := entries + [e];
    }

    /** Seals the block. */
    method Close()
      modifies this
      ensures closed && entries == old(entries)
    {
      closed := true;
    }
  }

  /**
   * `newChunk`: the bounds start at the first entry and are widened in one pass that
   * compares each entry's nanoseconds with the millisecond bound scaled back up; every
   * entry is appended in order, the block is sealed and the chunk assembled.
   */
  method NewChunk(stream: Stream, parseLabels: string -> Option<LabelSet>,
                  fingerprint: LabelSet -> Fingerprint) returns (r: BuildResult)
    ensures r == ChunkOf(stream, parseLabels, fingerprint)
  {
    var parsed := parseLabels(stream.labels);
    if parsed.None? {
      return Panicked(LabelParseError);
    }
    var lbs := parsed.value;
    lbs := WithMetricName(lbs);
    if |stream.entries| == 0 {
      return Panicked(IndexOutOfRange);
    }
    var entries := stream.entries;
    var from, through := TimeFromUnixNano(entries[0].timestamp), TimeFromUnixNano(entries[0].timestamp);
    var chk := new MemBlock(BlockSize);
    var i := 0;
    while i < |entries|
      invariant 0 <= i <= |entries|
      invariant from == ScanLower(entries, i) && through == ScanUpper(entries, i)
      invariant chk.entries == entries[..i] && !chk.closed
    {
      var e := entries[i];
      if e.timestamp < UnixNano(from) {
        from := TimeFromUnixNano(e.timestamp);
      }
      if e.timestamp > UnixNano(through) {
        through := TimeFromUnixNano(e.timestamp);
      }
      chk.Append(e);
      assert entries[..i + 1] == entries[..i] + [e];
      i := i + 1;
    }
    ScanLowerIsTruncatedMin(entries, i);
    ScanUpperIsTruncatedMax(entries, i);
    assert entries[..i] == entries;
    chk.Close();
    r := Built(Chunk(Tenant, fingerprint(lbs), lbs, chk.entries, from, through));
  }
}
