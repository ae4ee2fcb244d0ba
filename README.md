# Span-to-chunk writer of jaeger-s3, modelled in Dafny

This project models the write path of the jaeger-s3 span store (`s3store/writer.go`).
The writer gets a Jaeger span and builds one time range from "now" to "now + duration µs".
It materialises one log entry per second of that range, all carrying the same log line.
It then builds a Loki/Cortex chunk from those entries:
- the label string is parsed and the series name label `__name__` is defaulted to `spans`;
- the entries are scanned once for their earliest and latest millisecond;
- the entries are appended to a block, which is then sealed;
- the chunk is stamped with tenant `fake` and the fingerprint of the labels.
The chunk goes to the store with its own bounds. A store error is logged and otherwise ignored.

Time is integer nanoseconds (Go `time.Time`). Chunk bounds are integer milliseconds (Prometheus `model.Time`).
The conversion truncates toward zero, as Go's int64 division does.
The collaborators are supplied from outside: the label parser, the fingerprint hash, the chunk key and the store's answer.
Go panics are modelled as outcomes (`Panicked` / `Aborted`), not as preconditions.

Modules (one file each):
- `Timestamps` (`timestamps.dfy`): Go and Prometheus time units, `TimeFromUnixNano`, and the two one-step facts behind the bound scan.
- `Streams` (`streams.dfy`): entries, streams and time ranges; `Materialize` (the reference definition) and `BuildTestStreams` (the loop).
- `Chunks` (`chunks.dfy`): label defaulting, min/max timestamps, the scan folds `ScanLower`/`ScanUpper`, the block class `MemBlock`, `ChunkOf` (what `newChunk` computes) and `NewChunk` (the loop).
- `S3Store` (`writer.dfy`): the `Store` and `Writer` classes, `WriteSpan`, `Close`, and the end-to-end lemmas.
- `Wrappers` (`wrappers.dfy`): `Option`.

Three behaviours of the code worth knowing:
- no chunk is skipped when its key repeats: `addedChunkIDs` is written but never read;
- a zero or negative duration is not widened to one tick; it gives an empty entry list and `newChunk` panics reading the first entry;
- the reference instant is the processing time `now`, not the span's start time.

## Model

| member | source | states |
|---|---|---|
| `Timestamps.TimeFromUnixNanoMonotone` | s3store/writer.go:82 | Converting nanoseconds to model time (truncation toward zero) preserves order |
| `Timestamps.LowerBoundStep` | s3store/writer.go:85-87 | A scan step compares the entry with the truncated bound scaled back to ns, not with the true minimum; it still yields the truncated minimum |
| `Timestamps.UpperBoundStep` | s3store/writer.go:88-90 | Same for the upper bound: the step yields the truncated maximum |
| `Streams.BuildTestStreams` | s3store/writer.go:55-69 | The loop's stream keeps the label string unchanged; its entries are exactly `Materialize(tr, line)` |
| `Streams.MaterializeShape` | s3store/writer.go:61-66 | ceil((to-from)/1s) entries (0 when to <= from); entry k is at from + k s, is strictly before `to`, and carries `line` |
| `Streams.MaterializeEmptyIff` | s3store/writer.go:61 | No entries exactly when the range is empty or negative |
| `Streams.MaterializeOrdered` | s3store/writer.go:61 | Consecutive entries are exactly one second apart; timestamps strictly increase; all lie in [from, to) |
| `Streams.MaterializeSameLine` | s3store/writer.go:62-64 | Every entry carries the given line |
| `Chunks.WithMetricName` | s3store/writer.go:76-81 | The result always has `__name__`; an existing one is kept with the set unchanged; a missing one is added as "spans" and nothing else changes |
| `Chunks.MinNanos` | s3store/writer.go:82-87 | Below or equal to every entry's timestamp and equal to one of them, whatever the order |
| `Chunks.MaxNanos` | s3store/writer.go:82-90 | At or above every entry's timestamp and equal to one of them, whatever the order |
| `Chunks.ScanLowerIsTruncatedMin` | s3store/writer.go:82-87 | After i iterations the scanned lower bound equals TimeFromUnixNano(min of the first i timestamps) |
| `Chunks.ScanUpperIsTruncatedMax` | s3store/writer.go:82-90 | After i iterations the scanned upper bound equals TimeFromUnixNano(max of the first i timestamps) |
| `Chunks.ChunkOf` | s3store/writer.go:71-100 | Unparsable labels panic first; otherwise an empty stream panics at `Entries[0]`; otherwise a chunk with tenant "fake", the parsed labels with `__name__` defaulted, fingerprint of those labels, all entries in order, From/Through the truncated min/max timestamp (so From <= Through) |
| `Chunks.NewChunk` | s3store/writer.go:71-100 | The imperative scan-and-append builds exactly `ChunkOf(stream)` (same panics, same bounds, every entry appended once in order) |
| `Chunks.MemBlock.constructor` | s3store/writer.go:83 | A new block of 256 KiB size, empty and open |
| `Chunks.MemBlock.Append` | s3store/writer.go:91 | Appends one entry at the end of an open block |
| `Chunks.MemBlock.Close` | s3store/writer.go:93 | Seals the block, entries unchanged |
| `Chunks.ChunkBoundsAreEntryBounds` | s3store/writer.go:82-94 | Every entry's millisecond lies in [From, Through], and some entry reaches each bound |
| `Chunks.BoundsIgnoreOrder` | s3store/writer.go:84-90 | Two permutations of the same entries have the same min and max timestamps |
| `Chunks.ChunkIgnoresEntryOrder` | s3store/writer.go:82-94 | Reordering the entries changes only the chunk's data order: outcome, tenant, labels, fingerprint and bounds are equal |
| `S3Store.SubmitsEveryChunk` | s3store/writer.go:149-161 | Without a panic, there is one store call per built chunk, in order, with the chunk's own From/Through; nothing is skipped |
| `S3Store.RepeatedRangeSubmittedTwice` | s3store/writer.go:147-161 | A range listed twice is submitted twice under the same chunk (so the same key): there is no dedup |
| `S3Store.FailuresOfOneCall` | s3store/writer.go:155-158 | One call logs its error exactly when the store answers with one, and nothing otherwise |
| `S3Store.FailuresAppend` | s3store/writer.go:149-161 | The log of consecutive calls is the log of the first ones followed by the log of the rest; with the one-call case this fixes the log as one error per failed call, in call order |
| `S3Store.FailuresAreStoreReplies` | s3store/writer.go:155-158 | The logged errors are exactly the store's error answers, never more than the calls |
| `S3Store.SpanWritePanics` | s3store/writer.go:136-152 | Unparsable labels panic; a duration <= 0 yields an empty range and panics with an index out of range; both happen before any store call; a duration > 0 with parsable labels does not panic |
| `S3Store.RangeChunk` | s3store/writer.go:152 | The chunk of a non-empty range has ceil(width/1s) entries at from + k s, From = ms of the range start, Through = ms of the last entry, tenant "fake", the parsed labels with `__name__` defaulted and their fingerprint |
| `S3Store.SpanWriteSubmitsOneChunk` | s3store/writer.go:136-161 | With parsable labels and duration > 0: exactly one store call, with the chunk's own From/Through, ceil(duration*1000 ns / 1s) entries at now + k s carrying the log line, From = ms(now), Through = ms(last entry), the parsed labels with `__name__` defaulted and their fingerprint |
| `S3Store.Store.PutOne` | s3store/writer.go:155 | Records the call (from, through, chunk) and answers as the store's reply function says |
| `S3Store.Writer.constructor` | s3store/writer.go:103-111 | `NewWriter` keeps the store and collaborators; nothing logged yet |
| `S3Store.Writer.Close` | s3store/writer.go:114-116 | Always returns a nil error |
| `S3Store.Writer.WriteSpan` | s3store/writer.go:119-164 | The store receives exactly `SpanPlan`'s calls, the log gains exactly the store's error answers, and the result is a nil error unless building the chunk panicked |

## Left out

- Gzip compression and the block encoding (`chunkenc.NewMemChunk`, `NewFacade`) are foreign library code. The block is modelled as the sequence of entries appended to it.
- The block's own append policy is also foreign code and is not modelled. `newChunk` discards the error `Append` returns. The materialiser's entries are strictly increasing anyway.
- `client.Fingerprint` and `ExternalKey()` are foreign calls. They are function-valued parameters of the model.
- The `c.Encode()` checksum is foreign code. It is treated as never failing.
- NewChunk: does not model the panic raised when `c.Encode()` fails, because encoding is foreign library code.
- `logql.ParseLabels` follows an external grammar. It is a function-valued parameter returning `None` for a malformed label string.
- The `fmt.Sprintf` formatting of the label string and the log line (including `mapModelKV`, which is not part of this model) is string formatting. `WriteSpan` receives the formatted strings in `FormattedSpan`.
- `time.Now()` is a clock read. It becomes the parameter `now`.
- RFC 3339 formatting of the start time and `parseDate` are library date handling and not modelled.
- `log.Println` output text and the hclog logger are I/O. The writer records the logged store errors in `logged`.
- The store's I/O is not modelled. `Store` records each call; success or failure comes from an arbitrary reply function.
- The process-wide `user.InjectOrgID` context, the unused writer fields (`spanMeasurement`, `cfg`, `logger`, …) and the interface assertions are plumbing.
- Integers are unbounded. Go `int64` overflow in `Duration * time.Microsecond`, and in time values outside the range `UnixNano` can represent, is not modelled.
- The local `addedChunkIDs` set is kept in `WriteSpan` as the source has it. No contract mentions it, because nothing reads it.
