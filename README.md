# objects-go batching core, modelled in Dafny

The model covers the sequential part of the Segment Objects client's batching
pipeline:

- **The per-collection buffer** (`buffer.dfy`). A class `Buffer` holds a
  mailbox, the pre-serialised payloads and a running byte counter.
  `marshalArray` produces `'['`, the payloads joined by `','`, then `']'`.
  The lemmas pin that output down byte for byte. They also prove it is the
  array production of section 5 of RFC 8259.
- **The sharded map** (`cmap.dfy`). A class `ConcurrentMap<V>` holds an
  array of 32 `map`s. A key lives in shard `fnv32(key) % 32`, where fnv32 is
  FNV-1, 32 bits. A ghost `contents` map is what the shards represent
  together. `Fetch` is fetch-or-create. `Iter` is a sequential enumeration
  that yields every entry exactly once.
- **The worker's batching rule** (`worker.dfy`). It is a pure step function
  over the events the worker's `select` can pick: a record that serialised
  or failed, a timer tick, or exit with the records still queued. The lemmas
  prove:
  - the flush-first rule (`size+len(x) >= MaxBatchBytes || count+1 >= MaxBatchCount`), both ways;
  - the ceilings on every buffer and every batch;
  - order preservation, with failed records skipped;
  - that exit drains everything.
- **The client** (`client.dfy`):
  - `getFinalConfig` and its defaults;
  - `flush`;
  - the record, tick and exit branches as `Client` methods (`Receive`, `Tick`, `Drain`) that take the worker's `Buffer`, each proved against the worker model;
  - `Set`, with its closed check, validation and fetch-or-create of the collection's buffer;
  - `Close`, with its closed check and in-order draining of every worker;
  - `Lifecycle`, which chains `New`, `Set`, `Close`, `Set` and `Close` on one client.
  - `dispatched` collects the batches `flush` hands to the request sender.
  - `workers` is the wait group's count.
- **The record** (`object.dfy`): the three validation tags, and the exclusion of
  `Collection` from the JSON payload.

Go strings are byte strings (`seq<bv8>`). Go's `int` is taken as 64 bits wide,
so the arithmetic of sizes and counts does not wrap. The 32-bit case of the
shard index is a finding, below.

The count ceiling is reached one record early. The check before adding a
payload is `count()+1 >= MaxBatchCount`, so with `MaxBatchCount = 2` it
already fires on the second record: records a, b, c give the batches `[a]`,
`[b]` and, on exit, `[c]`. With `MaxBatchCount` at least 2, no buffer and no
batch ever holds `MaxBatchCount` payloads.
`Worker.MaxCountTwo` and `Worker.CountCeilingNeverReached` prove this.

Two places in the code do not line up; the model follows what client.go uses:

- `flush` sets a `Source` field (client.go:121) that `batch` (batch.go:5-9)
  does not declare. `Batch` carries it, as `flush` does.
- `NewWithConfig` calls `newConcurrentMap` (client.go:69) while cmap.go:20
  defines `NewConcurrentMap`. Both are the constructor of `ConcurrentMap`.

## Model

| member | source | states |
|---|---|---|
| Objects.Validate | object.go:3-7 | defines the set of fields whose tag fails: `nonzero` on `Collection` and `ID`, `min=1` on `Properties` |
| Objects.Encode | object.go:3-7 | defines the JSON-visible record: `id` and `properties`, without the collection |
| Objects.IsValid | client.go:206-208 | defines acceptance by the validator: no tag of object.go:4-6 fails |
| Objects.ValidIff | object.go:3-7 | an object is valid exactly when its collection and id are non-empty and it has at least one property; each rule's field is reported exactly when that rule fails |
| Objects.ZeroObjectInvalid | object.go:3-7 | the zero `Object{}` fails all three rules |
| Objects.EncodeIgnoresCollection | object.go:4 | the collection (`json:"-"`) does not affect the serialised record |
| Buffers.TotalSize | buffer.go:26-33 | defines the total length of the buffered payloads, the value `currentByteSize` tracks |
| Buffers.Join | buffer.go:45 | defines `bytes.Join`: the payloads in order, one separator between each neighbouring pair |
| Buffers.JsonArray | buffer.go:44-49 | defines `marshalArray`'s output: `[`, the payloads joined by `,`, then `]` |
| Buffers.TotalSizeAppend | buffer.go:26-29 | appending a payload adds its length to the total size |
| Buffers.JoinLength | buffer.go:45 | the joined bytes are the payload bytes plus one separator between each neighbouring pair |
| Buffers.JsonArrayEmpty | buffer.go:44-49 | an empty buffer marshals to exactly `[]` |
| Buffers.JsonArrayLength | buffer.go:44-49 | the output length is `2 + size + max(count-1, 0)` |
| Buffers.JoinAtLast | buffer.go:45 | the last payload ends the joined bytes |
| Buffers.JoinAt | buffer.go:45 | payload i sits unchanged at its offset in the join, followed by the separator or by the end |
| Buffers.JsonArrayAt | buffer.go:44-49 | the output opens with `[`; every payload sits unchanged at its offset, in insertion order, followed by `,` or, for the last one, by `]` |
| Buffers.MoreValuesAppend | buffer.go:45 | the RFC 8259 tail `*( value-separator value )` grows at the end by `,` and the new value |
| Buffers.JoinIsValueList | buffer.go:45 | joining by `,` yields the RFC 8259 `value *( value-separator value )` of the payloads |
| Buffers.JsonArrayIsArrayText | buffer.go:44-49 | the output is the RFC 8259 array text whose elements are the payloads in order |
| Buffers.Buffer.constructor | buffer.go:16-24 | a new buffer has the given collection, an empty mailbox, no payloads and size 0 |
| Buffers.Buffer.Add | buffer.go:26-29 | the payload is appended at the end and the size grows by its length; the size invariant is kept |
| Buffers.Buffer.Send | client.go:210 | the record joins the end of the mailbox |
| Buffers.Buffer.Size | buffer.go:31-33 | the result is the total length of the buffered payloads |
| Buffers.Buffer.Count | buffer.go:35-37 | the result is the number of buffered payloads |
| Buffers.Buffer.Reset | buffer.go:39-42 | the payloads and the size become empty and 0; the collection and mailbox are untouched |
| Buffers.Buffer.MarshalArray | buffer.go:44-49 | the result is `[` + the payloads joined by `,` + `]`, and the buffer is unchanged |
| ConcurrentMaps.FnvFrom | cmap.go:30-31 | defines the FNV-1 fold: per byte, multiply by 16777619 modulo 2^32, then XOR the byte |
| ConcurrentMaps.Fnv32 | cmap.go:30-32 | defines `Sum32()` of `fnv.New32()` fed with the key: the fold from offset basis 2166136261 |
| ConcurrentMaps.FnvCheckValues | cmap.go:30-32 | the FNV-1 32-bit sums of "" and "a" are the published check values |
| ConcurrentMaps.ShardOf | cmap.go:29-33 | the shard index is in [0, 32) |
| ConcurrentMaps.Int32Of | cmap.go:32 | defines Go's `int(u)` of a `uint32` where `int` is 32 bits wide: values at or above 2^31 wrap to negative |
| ConcurrentMaps.GoRem | cmap.go:32 | defines Go's `%`, which truncates toward zero |
| ConcurrentMaps.IndexInt32 | cmap.go:32 | defines the shard index as written, for a hash value, where `int` is 32 bits wide |
| ConcurrentMaps.ShardIndexInt32 | cmap.go:29-33 | defines the shard index as written for a key, where `int` is 32 bits wide |
| ConcurrentMaps.ShardIndexInt32Negative | cmap.go:32 | with a 32-bit `int`, the key "collection" (hash 0xae63d045) selects index -27 |
| ConcurrentMaps.IndexInt32Agrees | cmap.go:32 | the 32-bit index is negative exactly for hashes at or above 2^31 that are not multiples of 32, and otherwise equals the 64-bit index |
| ConcurrentMaps.ConcurrentMap.InShardUpdate | cmap.go:36-42 | binding a key changes only the key's own shard |
| ConcurrentMaps.ConcurrentMap.InShardRemove | cmap.go:96-102 | deleting a key changes only the key's own shard |
| ConcurrentMaps.ConcurrentMap.constructor | cmap.go:20-26 | 32 empty shards; the represented map is empty |
| ConcurrentMaps.ConcurrentMap.GetShard | cmap.go:29-33 | the index is the shard the key's hash selects, in [0, 32) |
| ConcurrentMaps.ConcurrentMap.Set | cmap.go:36-42 | the key is bound to the value; every other key keeps its binding; each key stays in its own shard only |
| ConcurrentMaps.ConcurrentMap.Get | cmap.go:45-54 | the value is returned exactly when the key is present |
| ConcurrentMaps.ConcurrentMap.Fetch | cmap.go:57-69 | a present key returns its value, does not call the factory and changes nothing; an absent key calls the factory once, binds its result and returns it |
| ConcurrentMaps.ConcurrentMap.KeysBelowStep | cmap.go:72-81 | shard i adds exactly its own keys to those of the shards below it, disjointly |
| ConcurrentMaps.ConcurrentMap.KeysBelowAll | cmap.go:72-81 | the keys of all 32 shards are the keys of the map |
| ConcurrentMaps.ConcurrentMap.DisjointUnionSize | cmap.go:72-81 | the size of a disjoint union is the sum of the sizes |
| ConcurrentMaps.ConcurrentMap.CountStep | cmap.go:72-81 | shard i adds its own size to the count of distinct keys below it |
| ConcurrentMaps.ConcurrentMap.Count | cmap.go:72-81 | the sum of the shard sizes is the number of distinct stored keys |
| ConcurrentMaps.ConcurrentMap.Has | cmap.go:84-93 | true exactly when the key is stored |
| ConcurrentMaps.ConcurrentMap.Remove | cmap.go:96-102 | the key is gone and every other key is unchanged; removing an absent key changes nothing |
| ConcurrentMaps.ConcurrentMap.IsEmpty | cmap.go:105-107 | true exactly when the map holds no key |
| ConcurrentMaps.ConcurrentMap.EnumeratesAdd | cmap.go:123-125 | yielding a new entry keeps the enumeration exactly-once |
| ConcurrentMaps.ConcurrentMap.EnumeratesSize | cmap.go:116-131 | an exactly-once enumeration has one entry per key |
| ConcurrentMaps.ConcurrentMap.IterStep | cmap.go:123-125 | one more entry of shard i keeps the enumeration exactly-once and in shard order |
| ConcurrentMaps.ConcurrentMap.IterShard | cmap.go:122-126 | after shard i, every entry of the shards up to i has been yielded exactly once |
| ConcurrentMaps.ConcurrentMap.Iter | cmap.go:116-131 | every entry is yielded exactly once with its value, shard by shard in index order |
| Worker.FlushesFirst | client.go:154 | defines the pre-emptive check made before adding x: `size+len(x) >= MaxBatchBytes || count+1 >= MaxBatchCount` (repeated at client.go:172) |
| Worker.Flush | client.go:113-133 | defines `flush` on the worker state: an empty buffer sends nothing; otherwise its contents become one more batch and the buffer empties |
| Worker.Add | client.go:154-157 | defines the record rule: flush first when `size+len(x) >= MaxBatchBytes` or `count+1 >= MaxBatchCount`, then always add x |
| Worker.Receive | client.go:143-157 | defines one mailbox record: skipped when serialising failed, otherwise added by the record rule |
| Worker.ReceiveAll | client.go:161-176 | defines the `range b.Channel` drain: the queued records received in order |
| Worker.Step | client.go:141-179 | defines the three `select` branches: a record, a tick (unconditional flush), exit (drain, then a final flush) |
| Worker.Run | client.go:140-180 | defines the event loop: events in order until the first exit, after which nothing more is seen |
| Worker.ReceiveFrame | client.go:143-157 | taking a record only appends to the batches already sent |
| Worker.FlushFrame | client.go:113-133 | flushing only appends to the batches already sent |
| Worker.FlattenAppend | client.go:113-133 | the entries of one more batch follow those of the earlier ones |
| Worker.AddFlushesIff | client.go:154-157 | a batch is sent before x exactly when the check fires on a non-empty buffer; x always ends up last in the buffer |
| Worker.AddBounded | client.go:154-157 | after an add, the buffer holds only the new payload, or fewer than `MaxBatchCount` payloads totalling fewer than `MaxBatchBytes` bytes |
| Worker.FlushWellFormed | client.go:113-133 | a flush keeps the buffer and every sent batch bounded and non-empty |
| Worker.AddWellFormed | client.go:154-157 | an add keeps the buffer and every sent batch bounded and non-empty |
| Worker.AddDelivers | client.go:154-157 | an add loses nothing and appends x last to what was accepted |
| Worker.FlushDelivers | client.go:113-133 | a flush empties the buffer and loses nothing |
| Worker.TickFlushes | client.go:158-159 | a tick flushes unconditionally and loses nothing |
| Worker.ReceiveAllDelivers | client.go:161-176 | the queued records that serialised are appended in order; failed ones are skipped |
| Worker.ExitDrains | client.go:160-178 | exit takes every queued record with the same rule and a final flush leaves the buffer empty; the batches hold the old buffer and then the queued payloads |
| Worker.RunDelivers | client.go:141-180 | the sent batches followed by the buffer are the serialised records in arrival order up to the first exit |
| Worker.ReceiveAllWellFormed | client.go:161-176 | draining the mailbox keeps the ceilings |
| Worker.StepWellFormed | client.go:141-180 | every branch of the `select` keeps the ceilings |
| Worker.RunWellFormed | client.go:141-180 | at every point of a run, the buffer and every batch sent are bounded, and every batch is non-empty |
| Worker.CountCeilingNeverReached | client.go:154 | with a ceiling of at least 2, no buffer and no batch ever reaches `MaxBatchCount` payloads |
| Worker.IdleWellFormed | buffer.go:16-24 | a fresh worker's state is well formed |
| Worker.RunKeepsSent | client.go:141-180 | a run never alters the batches already sent |
| Worker.ReceiveAllKeepsSent | client.go:161-176 | draining never alters the batches already sent |
| Worker.MaxCountTwo | client.go:154-157 | with `MaxBatchCount = 2`, records a, b, c and exit send `[a]`, `[b]`, `[c]` |
| Clients.IsFinal | client.go:74-104 | defines a configuration whose every defaulted field already holds a usable value |
| Clients.GetFinalConfig | client.go:74-104 | each unset or non-positive field takes its default (512000 bytes, 100 records, 10 s, the endpoint, "project", the stderr logger, the default HTTP client); usable fields and `PrintErrors` are kept; the result is final |
| Clients.GetFinalConfigFixedPoints | client.go:74-104 | a configuration is left unchanged exactly when it is already final |
| Clients.GetFinalConfigIdempotent | client.go:74-104 | applying the defaults twice equals applying them once |
| Clients.Envelopes | client.go:120-125 | defines the `batch` envelopes of a sequence of flushes, one per flush, in order |
| Clients.EnvelopesAt | client.go:120-125 | one envelope per flush, in order, each with the source, the collection, the write key and the JSON array flushed |
| Clients.EnvelopesOne | client.go:120-125 | one flush gives one envelope |
| Clients.EnvelopesAppend | client.go:120-125 | flushing in two stretches sends the envelopes of both, in order |
| Clients.Client.Serialise | client.go:144-147 | defines one record's payload: `tableize` and `json.Marshal` (the client's `marshal` parameter) of the record without its collection |
| Clients.Client.SerialiseAll | client.go:161-165 | defines the payloads of the queued records, in mailbox order |
| Clients.Client.NewWithConfig | client.go:64-72 | the configuration is `getFinalConfig`'s result, and the write key and serialiser are the ones given; the client is open, with an empty map, no buffer, no worker and nothing dispatched |
| Clients.Client.New | client.go:60-62 | as `NewWithConfig` with the zero configuration: the write key and serialiser are the ones given |
| Clients.Client.Flush | client.go:113-133 | an empty buffer dispatches nothing; otherwise exactly one batch holding `marshalArray()` for the buffer's collection is dispatched, and the buffer is left empty |
| Clients.Client.Handle | client.go:143-157 | the record branch sends exactly the batches, and leaves exactly the buffer, of the worker model's record step |
| Clients.Client.Receive | client.go:142-157 | the oldest mailbox record is taken and handled as the worker model says; an empty mailbox changes nothing |
| Clients.Client.Tick | client.go:158-159 | the tick branch sends exactly the worker model's tick batches and empties the buffer |
| Clients.Client.DrainStep | client.go:161-176 | taking one more queued record continues the model's run, and the batches it sends follow the earlier ones |
| Clients.Client.DrainMailbox | client.go:161-176 | the mailbox is emptied, and the buffer and batches are those of the model receiving every queued record in order |
| Clients.Client.Drain | client.go:160-178 | the exit branch empties the buffer and the mailbox and sends exactly the worker model's exit batches |
| Clients.Client.FetchBuffer | client.go:106-111 | a known collection's buffer is returned with nothing else changed; an unknown one gets a fresh empty buffer, filed under it, and one more worker; every buffer it adds is fresh |
| Clients.Client.RegisteredAfterFetch | client.go:106-111 | filing a buffer under its collection keeps one buffer per collection and one worker per buffer |
| Clients.Client.Enqueue | client.go:210 | the record joins the end of its collection's mailbox; no other mailbox and no buffer changes; every buffer it adds is fresh |
| Clients.Client.Set | client.go:201-212 | a closed client returns `ErrClientClosed` and an invalid record returns its failing fields, both before the map is touched; otherwise the record is enqueued, and the map gains at most the one collection; every buffer it adds is fresh |
| Clients.Client.DrainAll | client.go:189-195 | every listed worker runs its exit branch in order; their batches are dispatched in that order and all of them end empty; every other buffer is left as it was |
| Clients.Client.DrainedIsValid | client.go:195 | once every worker has exited, the closed client keeps its invariant |
| Clients.Client.ShutdownBatches | client.go:189-195 | defines what the `Close` loop dispatches: each listed worker's exit-branch batches, worker by worker in the order given |
| Clients.Client.Shutdown | client.go:185-196 | the client is closed, no worker is left, no buffer is added, and the batches are those of every exit branch in `Iter` order |
| Clients.Client.Close | client.go:184-199 | the first call returns nil, closes the client and runs every worker's exit branch in `Iter` order; every later call returns `ErrClientClosed` and dispatches nothing; no buffer is added |
| Clients.Lifecycle | client_test.go:134-141 | on a new client, a `Set` succeeds exactly for a valid record; the first `Close` returns nil; the `Set` and the `Close` after it both return `ErrClientClosed` |

## Left out

- Goroutines, channels and `select` are left out, and so are the ticker, the wait group, the semaphore and the shard mutexes.
  - The worker is a step function.
  - `Receive`, `Tick` and `Drain` are methods the caller invokes one event at a time.
  - The map is sequential state.
  - The wait group is the counter `workers`.
  - `semaphore.Wait` has nothing to wait for, since dispatch is instantaneous.
- A mailbox is an unbounded sequence, while Go's channel holds 100 records. A full channel only blocks the sender, which is concurrency.
- `makeRequest`, HTTP and the backoff retry are not part of this model. A dispatched batch is appended to `dispatched`.
- The worker overwrites the caller's `req.Properties` with the tableized map, in place (client.go:144-146, 162-164). The mailbox also carries `*Object` pointers, so a caller who changes an object after `Set` changes what is serialised. The model's mailbox holds `Object` values and `Serialise` is a pure function, so neither this aliasing nor the in-place update is modelled.
- `json.Marshal` and `tableize` are the client's `marshal` parameter, a function from a record to bytes or a failure. `validator.Validate` is replaced by the three tag rules, so the error value is the set of failing fields.
- Logging and `PrintErrors` are left out. They produce output only. Line 128 logs even when the request succeeded.
- `IterBuffered`, `MarshalJSON` and `UnmarshalJSON` (cmap.go:134-178) are left out: the client never calls them. `UnmarshalJSON` returns nil when decoding fails.
- Clients.Client.Close: Go sets `closed` with a compare-and-swap before iterating. The model sets it after the workers have drained. No sequential caller can observe the difference. The race between a concurrent `Set` and `Close` is not modelled.
- ConcurrentMaps.ConcurrentMap.Fetch: takes the factory's result as a parameter rather than the factory itself. `called` reports whether that result was used. `FetchBuffer` performs `fetchFunction`'s side effects only then.
- ConcurrentMaps.ConcurrentMap.Iter: the order within a shard is left unspecified, like Go's map iteration order.
- The overflow of Go's 64-bit `int` in sizes and counts is not modelled.
- `Version` (client.go:24) is not used by the core.

## Findings

| source | as written | input that shows it | evidently intended | confidence | as-written member | corrected member |
|---|---|---|---|---|---|---|
| cmap.go:32 | `int(hasher.Sum32())%shardCount`: where Go's `int` is 32 bits wide, `int(...)` makes hashes at or above 2^31 negative, and `%` truncates toward zero | key "collection": FNV-1 hash 0xae63d045 gives index -27, out of range for the 32-shard slice | take the remainder of the unsigned hash so the index is always in [0, 32) | not executed | ConcurrentMaps.ShardIndexInt32Negative | ConcurrentMaps.ShardOf |
