/**
 * The entry materialiser (`buildTestStreams`): a half-open time range is walked in
 * one-second steps and every step becomes one log entry carrying the same line.
 */
module Streams {

  import opened Timestamps

  /** A `logproto.Entry`: a nanosecond timestamp and a line of text. */
  datatype Entry = Entry(timestamp: int, line: string)

  /** A `logproto.Stream`: the unparsed label string and the entries, in order. */
  datatype Stream = Stream(labels: string, entries: seq<Entry>)

  /** The writer's `timeRange`: the half-open interval [from, to) in nanoseconds. */
  datatype TimeRange = TimeRange(from: int, to: int)

  /** The number of whole or partial seconds in [from, to): ceil((to - from) / 1s), or 0. */
  function CeilSeconds(from: int, to: int): (n: nat)
  {
    if to <= from then 0 else (to - from + Second - 1) / Second
  }

  /**
   * The entries `buildTestStreams` emits for `tr`, defined recursively from the front:
   * an entry at `tr.from` if it is before `tr.to`, then the entries of the range one
   * second later.
   */
  function Materialize(tr: TimeRange, line: string): (s: seq<Entry>)
    decreases tr.to - tr.from
  {
    if tr.from < tr.to then [Entry(tr.from, line)] + Materialize(TimeRange(tr.from + Second, tr.to), line)
    else []
  }

  /**
   * `buildTestStreams`: the loop appends one entry per second while the cursor is before
   * the end of the range; the label string is passed through unchanged.
   */
  method BuildTestStreams(labels: string, tr: TimeRange, line: string) returns (stream: Stream)
    ensures stream == Stream(labels, Materialize(tr, line))
  {
    stream := Stream(labels, []);
    var from := tr.from;
    while from < tr.to
      invariant stream.labels == labels
      invariant stream.entries + Materialize(TimeRange(from, tr.to), line) == Materialize(tr, line)
      decreases tr.to - from
    {
      assert Materialize(TimeRange(from, tr.to), line)
          == [Entry(from, line)] + Materialize(TimeRange(from + Second, tr.to), line);
      stream := stream.(entries := stream.entries + [Entry(from, line)]);
      from := from + Second;
    }
  }

  /**
   * The shape of a materialised range: ceil((to - from) / 1s) entries, the k-th at
   * `from + k` seconds, each strictly before `to`, each with the given line.
   */
  lemma {:induction false} MaterializeShape(tr: TimeRange, line: string)
    ensures |Materialize(tr, line)| == CeilSeconds(tr.from, tr.to)
    ensures forall k :: 0 <= k < |Materialize(tr, line)| ==>
              Materialize(tr, line)[k] == Entry(tr.from + k * Second, line) && tr.from + k * Second < tr.to
    decreases tr.to - tr.from
  {
    if tr.from < tr.to {
      var next := TimeRange(tr.from + Second, tr.to);
      MaterializeShape(next, line);
      var s := Materialize(tr, line);
      assert s == [Entry(tr.from, line)] + Materialize(next, line);
      forall k | 0 < k < |s|
        ensures s[k] == Entry(tr.from + k * Second, line) && tr.from + k * Second < tr.to
      {
        assert s[k] == Materialize(next, line)[k - 1];
        assert tr.from + Second + (k - 1) * Second == tr.from + k * Second;
      }
    }
  }

  /** An empty or negative range yields no entries, and a non-empty range at least one. */
  lemma MaterializeEmptyIff(tr: TimeRange, line: string)
    ensures |Materialize(tr, line)| == 0 <==> tr.to <= tr.from
  {
    MaterializeShape(tr, line);
  }

  /**
   * Materialised entries are one second apart, hence strictly increasing, and all lie
   * within [from, to).
   */
  lemma MaterializeOrdered(tr: TimeRange, line: string)
    ensures forall k :: 0 < k < |Materialize(tr, line)| ==>
              Materialize(tr, line)[k].timestamp == Materialize(tr, line)[k - 1].timestamp + Second
    ensures forall i, j :: 0 <= i < j < |Materialize(tr, line)| ==>
              Materialize(tr, line)[i].timestamp < Materialize(tr, line)[j].timestamp
    ensures forall k :: 0 <= k < |Materialize(tr, line)| ==>
              tr.from <= Materialize(tr, line)[k].timestamp < tr.to
  {
    MaterializeShape(tr, line);
    var s := Materialize(tr, line);
    forall i, j | 0 <= i < j < |s| ensures s[i].timestamp < s[j].timestamp {
      assert i * Second < j * Second;
    }
  }

  /** Every materialised entry carries exactly the line it was given. */
  lemma MaterializeSameLine(tr: TimeRange, line: string)
    ensures forall k :: 0 <= k < |Materialize(tr, line)| ==> Materialize(tr, line)[k].line == line
  {
    MaterializeShape(tr, line);
  }
}
