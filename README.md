# CSV reader scalar buffer

A model of `CSVReader.ScalarBuffer`, the lookahead buffer of the CodableCSV
reader. While the reader infers configuration values it reads Unicode scalars
ahead of the parse; it hands them to this buffer and later replays them, in
order, before any new input. The buffer keeps its scalars in one array stored
in **reverse** of the order they are produced, so that producing the next
scalar and pushing one scalar back both work at the array's end.

The model:

- `Scalars` — `Scalar` (a Unicode scalar value: a code point outside the
  surrogate range) and `Option`, Swift's optional, which `next()` returns.
- `Reversal` — `Reversed`, the reversal the buffer applies to its storage
  and to every batch it stores, characterised element by element; that
  characterisation is all the buffer's proofs need.
- `ReaderBuffer.ScalarBuffer` — the class. Its real field `readScalars` is the
  Swift array, a value-semantics sequence that each method reassigns; the
  ghost field `Contents` is the buffer as the consumer sees it, and `Valid()`
  ties the two: `Contents == Reversed(readScalars)`. Every method states both
  the new storage (what the Swift code does to the array) and the new
  `Contents` (what that means for the consumer).
- `BufferLaws` — consumer-side procedures built only on the class's
  contracts: draining, lookahead with pushback, and the ordering laws the
  buffer exists to provide (append order, pushback keeps a batch's order,
  pushback goes first, clearing, empty batches, replay after lookahead).

The Swift initialiser accepts any `Int` as the capacity and passes it to
`reserveCapacity`, which has no observable effect; the model's constructor
therefore takes any `int` and ignores it, where a description of the buffer
as "created with a non-negative capacity hint" would suggest a precondition.

## Model

| member | source | states |
|---|---|---|
| Reversal.Reversed | sources/imperative/reader/internal/ReaderBuffer.swift:27 | the reversal Swift's `reversed()` performs: same length, and element `k` of the result is element `n-1-k` of the input |
| ReaderBuffer.ScalarBuffer.constructor | sources/imperative/reader/internal/ReaderBuffer.swift:10-13 | a new buffer is empty (storage and contents), whatever the capacity argument |
| ReaderBuffer.ScalarBuffer.Next | sources/imperative/reader/internal/ReaderBuffer.swift:15-18 | returns `None` exactly when the buffer is empty, and then changes nothing; otherwise returns the logical front scalar, drops it from the contents, and removes the storage's last element |
| ReaderBuffer.ScalarBuffer.PrependScalar | sources/imperative/reader/internal/ReaderBuffer.swift:20-23 | the contents become `[x] + old contents`; the storage gains `x` at its end |
| ReaderBuffer.ScalarBuffer.PrependScalars | sources/imperative/reader/internal/ReaderBuffer.swift:25-28 | the contents become `s + old contents`, with `s` in its own order; the storage gains `reverse(s)` at its end |
| ReaderBuffer.ScalarBuffer.AppendScalar | sources/imperative/reader/internal/ReaderBuffer.swift:30-33 | the contents become `old contents + [x]`; the storage gains `x` at its start |
| ReaderBuffer.ScalarBuffer.AppendScalars | sources/imperative/reader/internal/ReaderBuffer.swift:35-38 | the contents become `old contents + s`, with `s` in its own order; the storage gains `reverse(s)` at its start |
| ReaderBuffer.ScalarBuffer.RemoveAll | sources/imperative/reader/internal/ReaderBuffer.swift:40-43 | the storage and the contents are empty, whatever they held |
| BufferLaws.Drain | sources/imperative/reader/internal/ReaderBuffer.swift:15-18 | repeated `next()` calls yield the buffered scalars front to back: up to `n` calls return the first `min(n, size)` of them and leave the rest |
| BufferLaws.Lookahead | sources/imperative/reader/internal/ReaderBuffer.swift:15-28 | reading `k` scalars ahead and pushing them back as one batch returns the buffer's first `min(k, size)` scalars and restores its contents exactly |
| BufferLaws.FreshBufferIsEmpty | sources/imperative/reader/internal/ReaderBuffer.swift:10-18 | the first `next()` on a new buffer returns `None`, whatever the capacity |
| BufferLaws.AppendedInOrder | sources/imperative/reader/internal/ReaderBuffer.swift:30-33 | scalars appended one by one are produced in the order appended, followed by `None` |
| BufferLaws.PushbackKeepsOrder | sources/imperative/reader/internal/ReaderBuffer.swift:25-28 | a batch `[x, y, z]` pushed back into an empty buffer is produced as `x, y, z`, not reversed |
| BufferLaws.PushbackGoesFirst | sources/imperative/reader/internal/ReaderBuffer.swift:20-23 | after appending `a`, `b` and pushing back `p`, the buffer produces `p, a, b` and then `None` |
| BufferLaws.ClearedBufferIsEmpty | sources/imperative/reader/internal/ReaderBuffer.swift:40-43 | whatever was appended or pushed back, `next()` returns `None` after `removeAll()`, and again after a second `removeAll()` |
| BufferLaws.MixedBatches | sources/imperative/reader/internal/ReaderBuffer.swift:35-38 | appending `[1, 2]` then pushing back `[9, 8]` produces `9, 8, 1, 2` and then `None` |
| BufferLaws.EmptyBatchesAreNoOps | sources/imperative/reader/internal/ReaderBuffer.swift:25-38 | pushing back or appending an empty batch leaves the produced sequence unchanged |
| BufferLaws.ReplayAfterLookahead | sources/imperative/reader/internal/ReaderBuffer.swift:15-38 | on a buffer filled with `s`, a lookahead of `k` sees the first `min(k, length of s)` scalars of `s` and reading everything afterwards replays `s` exactly |

## Left out

- `reserveCapacity` (line 12) is an allocation hint with no observable effect; the capacity argument is accepted and ignored.
- The "efficient to remove" reason for the reversed storage (line 6) is a cost claim; the model proves ordering and contents, not running time.
- The `IteratorProtocol` conformance and the generic `Sequence` parameters: `next()` is a method returning `Option<Scalar>`, and batches are `seq<Scalar>` (a Swift sequence is materialised by `reversed()` before insertion, so nothing is lost).
- Swift's `reversed()` and the array primitives (`append`, `insert(at:)`, `removeLast`, `removeAll`) are standard-library code; they are modelled by their effect on a sequence, not by their implementation.
- The surrounding `CSVReader`, which decides when to read ahead and push back, is not part of this model; `BufferLaws` stands in for its use of the buffer.
