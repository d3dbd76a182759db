/** The client facade: configuration defaults, lifecycle (`Set`, `Close`),
    and the worker's three branches (record, tick, exit) acting on one
    collection's buffer. The worker's goroutine is replaced by methods the
    caller invokes one event at a time. */
module Clients {
  import opened Bytes
  import opened Objects
  import opened Buffers
  import opened ConcurrentMaps
  import W = Worker

  /** "https://objects.segment.com" */
  const DefaultBaseEndpoint: GoString :=
    [0x68, 0x74, 0x74, 0x70, 0x73, 0x3a, 0x2f, 0x2f, 0x6f, 0x62, 0x6a, 0x65, 0x63, 0x74, 0x73, 0x2e, 0x73, 0x65, 0x67, 0x6d, 0x65, 0x6e, 0x74, 0x2e, 0x63, 0x6f, 0x6d]
  /** "project" */
  const DefaultSource: GoString := [0x70, 0x72, 0x6f, 0x6a, 0x65, 0x63, 0x74]
  /** `500 << 10` bytes. */
  const DefaultMaxBatchBytes: int := 500 * 1024
  const DefaultMaxBatchCount: int := 100
  /** `time.Second`: durations are counted in nanoseconds. */
  const Second: int := 1_000_000_000
  const DefaultMaxBatchInterval: int := 10 * Second

  /** A `*log.Logger`: nil, the default one writing to standard error with
      the prefix "segment ", or one the caller supplied. */
  datatype LoggerRef = NilLogger | StderrLogger | CustomLogger(id: nat)

  /** A `*http.Client`: nil, `http.DefaultClient`, or one the caller supplied. */
  datatype HttpClientRef = NilHttpClient | DefaultHttpClient | CustomHttpClient(id: nat)

  datatype Config = Config(
    baseEndpoint: GoString,
    logger: LoggerRef,
    httpClient: HttpClientRef,
    source: GoString,
    maxBatchBytes: int,
    maxBatchCount: int,
    maxBatchInterval: int,
    printErrors: bool)

  /** `Config{}`. */
  const ZeroConfig := Config([], NilLogger, NilHttpClient, [], 0, 0, 0, false)

  /** Every field that has a default holds a usable value. */
  predicate IsFinal(c: Config)
  {
    && c.baseEndpoint != []
    && c.logger != NilLogger
    && c.httpClient != NilHttpClient
    && c.maxBatchBytes > 0
    && c.maxBatchCount > 0
    && c.maxBatchInterval > 0
    && c.source != []
  }

  /** `getFinalConfig`: each unset or non-positive field takes its default;
      each usable field and `PrintErrors` are kept. */
  function GetFinalConfig(c: Config): (r: Config)
    ensures IsFinal(r)
    ensures r.printErrors == c.printErrors
    ensures r.baseEndpoint == if c.baseEndpoint == [] then DefaultBaseEndpoint else c.baseEndpoint
    ensures r.logger == if c.logger == NilLogger then StderrLogger else c.logger
    ensures r.httpClient == if c.httpClient == NilHttpClient then DefaultHttpClient else c.httpClient
    ensures r.maxBatchBytes == if c.maxBatchBytes <= 0 then DefaultMaxBatchBytes else c.maxBatchBytes
    ensures r.maxBatchCount == if c.maxBatchCount <= 0 then DefaultMaxBatchCount else c.maxBatchCount
    ensures r.maxBatchInterval == if c.maxBatchInterval <= 0 then DefaultMaxBatchInterval else c.maxBatchInterval
    ensures r.source == if c.source == [] then DefaultSource else c.source
  {
    Config(
      if c.baseEndpoint == [] then DefaultBaseEndpoint else c.baseEndpoint,
      if c.logger == NilLogger then StderrLogger else c.logger,
      if c.httpClient == NilHttpClient then DefaultHttpClient else c.httpClient,
      if c.source == [] then DefaultSource else c.source,
      if c.maxBatchBytes <= 0 then DefaultMaxBatchBytes else c.maxBatchBytes,
      if c.maxBatchCount <= 0 then DefaultMaxBatchCount else c.maxBatchCount,
      if c.maxBatchInterval <= 0 then DefaultMaxBatchInterval else c.maxBatchInterval,
      c.printErrors)
  }

  /** A configuration is left alone exactly when it is already final. */
  lemma GetFinalConfigFixedPoints(c: Config)
    ensures GetFinalConfig(c) == c <==> IsFinal(c)
  {
  }

  /** Applying `getFinalConfig` twice is applying it once. */
  lemma GetFinalConfigIdempotent(c: Config)
    ensures GetFinalConfig(GetFinalConfig(c)) == GetFinalConfig(c)
  {
    GetFinalConfigFixedPoints(GetFinalConfig(c));
  }

  /** The envelope of one delivery: `batch` as `flush` fills it in,
      including the `Source` that `flush` sets. */
  datatype Batch = Batch(source: GoString, collection: GoString, writeKey: GoString, objects: Bytes)

  /** The envelopes for a sequence of flushed buffer contents. */
  function Envelopes(source: GoString, collection: GoString, writeKey: GoString, sent: seq<seq<Bytes>>): seq<Batch>
  {
    if sent == [] then []
    else Envelopes(source, collection, writeKey, sent[..|sent| - 1])
           + [Batch(source, collection, writeKey, JsonArray(sent[|sent| - 1]))]
  }

  /** One envelope per flush, in flush order, each carrying the JSON array
      of what was flushed. */
  lemma {:induction false} EnvelopesAt(source: GoString, collection: GoString, writeKey: GoString, sent: seq<seq<Bytes>>)
    ensures |Envelopes(source, collection, writeKey, sent)| == |sent|
    ensures forall i :: 0 <= i < |sent| ==>
      Envelopes(source, collection, writeKey, sent)[i] == Batch(source, collection, writeKey, JsonArray(sent[i]))
  {
    if sent != [] {
      EnvelopesAt(source, collection, writeKey, sent[..|sent| - 1]);
    }
  }

  lemma EnvelopesOne(source: GoString, collection: GoString, writeKey: GoString, x: seq<Bytes>)
    ensures Envelopes(source, collection, writeKey, [x]) == [Batch(source, collection, writeKey, JsonArray(x))]
  {
    assert [x][..0] == [];
  }

  /** Flushing in two stretches sends the envelopes of both, in order. */
  lemma {:induction false} EnvelopesAppend(source: GoString, collection: GoString, writeKey: GoString, a: seq<seq<Bytes>>, b: seq<seq<Bytes>>)
    ensures Envelopes(source, collection, writeKey, a + b)
         == Envelopes(source, collection, writeKey, a) + Envelopes(source, collection, writeKey, b)
    decreases |b|
  {
    if b == [] {
      assert a + b == a;
    } else {
      var n := |b|;
      assert (a + b)[..|a + b| - 1] == a + b[..n - 1];
      EnvelopesAppend(source, collection, writeKey, a, b[..n - 1]);
    }
  }

  lemma AppendAssoc<T>(a: seq<T>, b: seq<T>, c: seq<T>)
    ensures a + (b + c) == (a + b) + c
  {
  }

  datatype Error = ErrClientClosed | ErrInvalid(fields: set<Field>)

  /** `Client`. `dispatched` lists, in order, the batches `flush` has handed
      to the (unmodelled) request sender; `workers` is the wait group's
      count of running workers. */
  class Client {
    const config: Config
    const writeKey: GoString
    /** `tableize` followed by `json.Marshal`, for one record: its payload,
        or `None` when serialising fails. */
    const marshal: Record -> Option<Bytes>
    const cmap: ConcurrentMap<Buffer>
    var closed: bool
    var workers: nat
    var dispatched: seq<Batch>
    /** The buffers created so far: one per worker, filed in `cmap` under
        its collection. */
    ghost var buffers: set<Buffer>

    function Limits(): W.Limits
    {
      W.Limits(config.maxBatchBytes, config.maxBatchCount)
    }

    function Serialise(o: Object): Option<Bytes>
    {
      marshal(Encode(o))
    }

    /** The serialisations of `os`, in order. */
    function SerialiseAll(os: seq<Object>): seq<Option<Bytes>>
    {
      if os == [] then [] else SerialiseAll(os[..|os| - 1]) + [Serialise(os[|os| - 1])]
    }

    function Batches(collection: GoString, sent: seq<seq<Bytes>>): seq<Batch>
    {
      Envelopes(config.source, collection, writeKey, sent)
    }

    /** One buffer per collection, each filed under its own collection, and
        one running worker per buffer until the client is closed. */
    ghost predicate Registered()
      reads this`closed, this`workers, this`buffers, cmap, cmap.shards, buffers`buf, buffers`currentByteSize
    {
      && cmap.Valid()
      && IsFinal(config)
      && (forall k :: k in cmap.contents ==>
            cmap.contents[k] in buffers && cmap.contents[k].collection == k && cmap.contents[k].Valid())
      && workers == (if closed then 0 else |cmap.contents|)
    }

    /** Every buffer and every mailbox is empty. */
    ghost predicate Quiescent()
      reads this`buffers, cmap, buffers`buf, buffers`channel
      requires forall k :: k in cmap.contents ==> cmap.contents[k] in buffers
    {
      forall k :: k in cmap.contents ==> cmap.contents[k].buf == [] && cmap.contents[k].channel == []
    }

    /** The client's invariant: once closed, nothing is left buffered or
        queued. */
    ghost predicate Valid()
      reads this`closed, this`workers, this`buffers, cmap, cmap.shards, buffers
    {
      Registered() && (closed ==> Quiescent())
    }

    /** `NewWithConfig`. */
    constructor NewWithConfig(writeKey: GoString, config: Config, marshal: Record -> Option<Bytes>)
      ensures Valid() && fresh(cmap) && fresh(cmap.shards)
      ensures this.config == GetFinalConfig(config) && this.writeKey == writeKey && this.marshal == marshal
      ensures !closed && workers == 0 && dispatched == [] && cmap.contents == map[] && buffers == {}
    {
      this.config := GetFinalConfig(config);
      this.writeKey := writeKey;
      this.marshal := marshal;
      cmap := new ConcurrentMap<Buffer>();
      closed := false;
      workers := 0;
      dispatched := [];
      buffers := {};
    }

    /** `New`: `NewWithConfig` with the zero configuration. */
    constructor New(writeKey: GoString, marshal: Record -> Option<Bytes>)
      ensures Valid() && fresh(cmap) && fresh(cmap.shards)
      ensures this.config == GetFinalConfig(ZeroConfig) && this.writeKey == writeKey && this.marshal == marshal
      ensures !closed && workers == 0 && dispatched == [] && cmap.contents == map[] && buffers == {}
    {
      this.config := GetFinalConfig(ZeroConfig);
      this.writeKey := writeKey;
      this.marshal := marshal;
      cmap := new ConcurrentMap<Buffer>();
      closed := false;
      workers := 0;
      dispatched := [];
      buffers := {};
    }

    /** `flush`: nothing for an empty buffer; otherwise one batch carrying
        `marshalArray()` for the buffer's collection, then a reset. */
    method Flush(b: Buffer)
      requires b.Valid()
      modifies this`dispatched, b`buf, b`currentByteSize
      ensures b.Valid() && b.buf == []
      ensures old(b.buf) == [] ==> dispatched == old(dispatched)
      ensures old(b.buf) != [] ==>
        dispatched == old(dispatched) + [Batch(config.source, b.collection, writeKey, JsonArray(old(b.buf)))]
    {
      var n := b.Count();
      if n == 0 {
        return;
      }
      var rm := b.MarshalArray();
      dispatched := dispatched + [Batch(config.source, b.collection, writeKey, rm)];
      b.Reset();
    }

    /** The record case of the loop: serialise; on failure skip the record;
        otherwise flush first if the payload would reach a ceiling, then add
        it. The batches it sends are the worker model's. */
    method Handle(b: Buffer, o: Object)
      requires b.Valid()
      modifies this`dispatched, b`buf, b`currentByteSize
      ensures b.Valid()
      ensures var s := W.Receive(Limits(), W.State(old(b.buf), []), Serialise(o));
              b.buf == s.buf && dispatched == old(dispatched) + Batches(b.collection, s.sent)
    {
      var p := Serialise(o);
      if p.None? {
        return;
      }
      var x := p.value;
      EnvelopesOne(config.source, b.collection, writeKey, b.buf);
      var size := b.Size();
      var count := b.Count();
      if size + |x| >= config.maxBatchBytes || count + 1 >= config.maxBatchCount {
        Flush(b);
      }
      b.Add(x);
    }

    /** The worker takes the oldest record from its mailbox (the `select`
        waits while the mailbox is empty, so then nothing happens). */
    method Receive(b: Buffer)
      requires b.Valid()
      modifies this`dispatched, b
      ensures b.Valid()
      ensures old(b.channel) == [] ==> b.buf == old(b.buf) && b.channel == [] && dispatched == old(dispatched)
      ensures old(b.channel) != [] ==>
        && b.channel == old(b.channel)[1..]
        && var s := W.Step(Limits(), W.State(old(b.buf), []), W.Record(Serialise(old(b.channel)[0])));
           b.buf == s.buf && dispatched == old(dispatched) + Batches(b.collection, s.sent)
    {
      if b.channel == [] {
        return;
      }
      var o := b.channel[0];
      b.channel := b.channel[1..];
      Handle(b, o);
    }

    /** The timer fires: flush unconditionally. */
    method Tick(b: Buffer)
      requires b.Valid()
      modifies this`dispatched, b`buf, b`currentByteSize
      ensures b.Valid()
      ensures var s := W.Step(Limits(), W.State(old(b.buf), []), W.Tick);
              b.buf == s.buf && dispatched == old(dispatched) + Batches(b.collection, s.sent)
    {
      EnvelopesOne(config.source, b.collection, writeKey, b.buf);
      Flush(b);
    }

    /** Receiving one more record continues the model's run from where the
        earlier records left it, and its batches follow the earlier ones. */
    lemma DrainStep(collection: GoString, start: W.State, queued: seq<Object>, i: nat, st: W.State, one: W.State,
                    d0: seq<Batch>, d1: seq<Batch>)
      requires i < |queued|
      requires st == W.ReceiveAll(Limits(), start, SerialiseAll(queued[..i]))
      requires one == W.Receive(Limits(), W.State(st.buf, []), Serialise(queued[i]))
      requires d1 == d0 + Batches(collection, st.sent) + Batches(collection, one.sent)
      ensures W.ReceiveAll(Limits(), start, SerialiseAll(queued[..i + 1])) == W.State(one.buf, st.sent + one.sent)
      ensures d1 == d0 + Batches(collection, st.sent + one.sent)
    {
      assert queued[..i + 1][..i] == queued[..i];
      W.ReceiveFrame(Limits(), st, Serialise(queued[i]));
      EnvelopesAppend(config.source, collection, writeKey, st.sent, one.sent);
    }

    /** The first half of the exit case: the records still in the mailbox
        are taken one by one, each with the record rule. */
    method DrainMailbox(b: Buffer) returns (ghost st: W.State)
      requires b.Valid()
      modifies this`dispatched, b
      ensures b.Valid() && b.channel == []
      ensures st == W.ReceiveAll(Limits(), W.State(old(b.buf), []), SerialiseAll(old(b.channel)))
      ensures b.buf == st.buf && dispatched == old(dispatched) + Batches(b.collection, st.sent)
    {
      ghost var queued := b.channel;
      ghost var start := W.State(b.buf, []);
      ghost var d0 := dispatched;
      st := start;
      ghost var i: nat := 0;
      while b.channel != []
        invariant b.Valid() && i <= |queued| && b.channel == queued[i..]
        invariant st == W.ReceiveAll(Limits(), start, SerialiseAll(queued[..i]))
        invariant b.buf == st.buf && dispatched == d0 + Batches(b.collection, st.sent)
        decreases |b.channel|
      {
        var o := b.channel[0];
        b.channel := b.channel[1..];
        ghost var one := W.Receive(Limits(), W.State(st.buf, []), Serialise(o));
        Handle(b, o);
        DrainStep(b.collection, start, queued, i, st, one, d0, dispatched);
        st := W.State(one.buf, st.sent + one.sent);
        i := i + 1;
      }
      assert queued[..i] == queued;
    }

    /** The exit case: the mailbox is drained with the record rule, then one
        final flush; the buffer and mailbox end empty. */
    method Drain(b: Buffer)
      requires b.Valid()
      modifies this`dispatched, b
      ensures b.Valid() && b.buf == [] && b.channel == []
      ensures var s := W.Step(Limits(), W.State(old(b.buf), []), W.Exit(SerialiseAll(old(b.channel))));
              dispatched == old(dispatched) + Batches(b.collection, s.sent)
    {
      ghost var st := DrainMailbox(b);
      EnvelopesAppend(config.source, b.collection, writeKey, st.sent, [st.buf]);
      EnvelopesOne(config.source, b.collection, writeKey, st.buf);
      Flush(b);
    }

    /** What the exit branches send, worker by worker in the order given. */
    ghost function ShutdownBatches(items: seq<(GoString, Buffer)>): seq<Batch>
      requires forall j :: 0 <= j < |items| ==> items[j].1 in buffers
      reads this`buffers, buffers`buf, buffers`channel
    {
      if items == [] then []
      else
        var b := items[|items| - 1].1;
        ShutdownBatches(items[..|items| - 1])
          + Batches(b.collection, W.Step(Limits(), W.State(b.buf, []), W.Exit(SerialiseAll(b.channel))).sent)
    }

    /** Filing buffer `b` under `collection` keeps the registry: a new
        collection brings a new buffer and one more worker. */
    lemma RegisteredAfterFetch(before: map<GoString, Buffer>, workers0: nat, buffers0: set<Buffer>,
                               collection: GoString, b: Buffer)
      requires cmap.Valid() && IsFinal(config) && !closed
      requires forall k :: k in before ==> before[k] in buffers0 && before[k].collection == k && before[k].Valid()
      requires workers0 == |before|
      requires b.Valid() && b.collection == collection
      requires cmap.contents == before[collection := b]
      requires collection in before ==> b == before[collection] && workers == workers0 && buffers == buffers0
      requires collection !in before ==> workers == workers0 + 1 && buffers == buffers0 + {b}
      ensures Valid()
    {
      if collection in before {
        assert cmap.contents == before;
      }
    }

    /** `Fetch(o.Collection, c.fetchFunction)`: the buffer of a known
        collection, or else a new one, filed under the collection and served
        by one more worker. */
    method FetchBuffer(collection: GoString) returns (b: Buffer)
      requires Valid() && !closed
      modifies this`workers, this`buffers, cmap, cmap.shards
      ensures Valid() && b.collection == collection && b in buffers && fresh(buffers - old(buffers))
      ensures cmap.contents == old(cmap.contents)[collection := b]
      ensures collection in old(cmap.contents) ==>
        b == old(cmap.contents[collection]) && workers == old(workers) && buffers == old(buffers)
      ensures collection !in old(cmap.contents) ==>
        && fresh(b) && b.buf == [] && b.channel == []
        && workers == old(workers) + 1 && buffers == old(buffers) + {b}
    {
      var candidate := new Buffer(collection);
      var called;
      b, called := cmap.Fetch(collection, candidate);
      assert !called ==> old(cmap.contents)[collection := b] == old(cmap.contents);
      if called {
        // the rest of `fetchFunction`: `wg.Add(1)` and starting the worker
        workers := workers + 1;
        buffers := buffers + {b};
      }
      RegisteredAfterFetch(old(cmap.contents), old(workers), old(buffers), collection, b);
    }

    /** The accepted path of `Set`: the record joins the end of its
        collection's mailbox; no other mailbox and no buffer changes. */
    method Enqueue(o: Object)
      requires Valid() && !closed
      modifies this`workers, this`buffers, cmap, cmap.shards, buffers`channel
      ensures Valid() && fresh(buffers - old(buffers))
      ensures o.collection in cmap.contents
      ensures cmap.contents == old(cmap.contents)[o.collection := cmap.contents[o.collection]]
      ensures workers == old(workers) + if o.collection in old(cmap.contents) then 0 else 1
      ensures cmap.contents[o.collection].channel ==
        (if o.collection in old(cmap.contents) then old(cmap.contents[o.collection].channel) else []) + [o]
      ensures cmap.contents[o.collection].buf ==
        (if o.collection in old(cmap.contents) then old(cmap.contents[o.collection].buf) else [])
      ensures forall k :: k in old(cmap.contents) && k != o.collection ==>
        old(cmap.contents[k]).channel == old(cmap.contents[k].channel)
      ensures forall k :: k in old(cmap.contents) ==> old(cmap.contents[k]).buf == old(cmap.contents[k].buf)
    {
      var b := FetchBuffer(o.collection);
      b.Send(o);
    }

    /** `Set`: refused on a closed client, then refused for an invalid
        record, in both cases before the map is touched; otherwise the
        collection's buffer is fetched or created (a new one registers one
        more worker) and the record joins the end of its mailbox. */
    method Set(o: Object) returns (err: Option<Error>)
      requires Valid()
      modifies this, cmap, cmap.shards, buffers`channel
      ensures Valid() && fresh(buffers - old(buffers))
      ensures closed == old(closed) && dispatched == old(dispatched)
      ensures err == if old(closed) then Some(ErrClientClosed)
                     else if !IsValid(o) then Some(ErrInvalid(Validate(o)))
                     else None
      ensures err.Some? ==> cmap.contents == old(cmap.contents) && workers == old(workers)
      ensures err.None? ==> o.collection in cmap.contents
      ensures err.None? ==> cmap.contents == old(cmap.contents)[o.collection := cmap.contents[o.collection]]
      ensures err.None? ==>
        cmap.contents[o.collection].channel ==
        (if o.collection in old(cmap.contents) then old(cmap.contents[o.collection].channel) else []) + [o]
      ensures err.None? ==>
        cmap.contents[o.collection].buf ==
        (if o.collection in old(cmap.contents) then old(cmap.contents[o.collection].buf) else [])
      ensures forall k :: k in old(cmap.contents) && (err.Some? || k != o.collection) ==>
        old(cmap.contents[k]).channel == old(cmap.contents[k].channel)
      ensures forall k :: k in old(cmap.contents) ==> old(cmap.contents[k]).buf == old(cmap.contents[k].buf)
    {
      if closed {
        return Some(ErrClientClosed);
      }
      var errs := Validate(o);
      if errs != {} {
        return Some(ErrInvalid(errs));
      }
      Enqueue(o);
      err := None;
    }

    /** Every worker in `items` runs its exit branch, in order, and leaves
        the wait group. */
    method DrainAll(items: seq<(GoString, Buffer)>, ghost listed: set<Buffer>)
      requires listed == set j | 0 <= j < |items| :: items[j].1
      requires forall j :: 0 <= j < |items| ==> items[j].1.Valid()
      requires forall j, j' :: 0 <= j < j' < |items| ==> items[j].1.collection != items[j'].1.collection
      requires forall j :: 0 <= j < |items| ==> items[j].1 in buffers
      requires workers >= |items|
      modifies this`dispatched, this`workers, buffers
      ensures forall j :: 0 <= j < |items| ==> items[j].1.Drained()
      ensures forall b :: b in buffers && b !in listed ==> unchanged(b)
      ensures workers == old(workers) - |items|
      ensures dispatched == old(dispatched) + old(ShutdownBatches(items))
    {
      var i := 0;
      while i < |items|
        invariant 0 <= i <= |items|
        invariant workers == old(workers) - i
        invariant forall j :: 0 <= j < i ==> items[j].1.Drained()
        invariant forall b :: b in buffers && b !in listed ==> unchanged(b)
        invariant forall j :: i <= j < |items| ==> unchanged(items[j].1)
        invariant dispatched == old(dispatched) + old(ShutdownBatches(items[..i]))
      {
        var b := items[i].1;
        assert items[..i + 1][..i] == items[..i];
        ghost var exit := Batches(b.collection, W.Step(Limits(), W.State(b.buf, []), W.Exit(SerialiseAll(b.channel))).sent);
        assert old(ShutdownBatches(items[..i + 1])) == old(ShutdownBatches(items[..i])) + exit;
        Drain(b);
        AppendAssoc(old(dispatched), old(ShutdownBatches(items[..i])), exit);
        workers := workers - 1;
        i := i + 1;
      }
      assert items[..i] == items;
    }

    /** Once every enumerated buffer is drained, the closed client is valid. */
    lemma DrainedIsValid(items: seq<(GoString, Buffer)>)
      requires cmap.Valid() && IsFinal(config) && closed && workers == 0
      requires cmap.Enumerates(items, cmap.contents.Keys)
      requires forall k :: k in cmap.contents ==> cmap.contents[k] in buffers && cmap.contents[k].collection == k
      requires forall j :: 0 <= j < |items| ==> items[j].1.Drained()
      ensures Valid()
    {
      forall k | k in cmap.contents
        ensures cmap.contents[k].buf == [] && cmap.contents[k].channel == [] && cmap.contents[k].Valid()
      {
        var j :| 0 <= j < |items| && items[j].0 == k;
      }
    }

    /** The body of a first `Close`: mark the client closed and run the
        exit branch of every worker in `items`, in order. */
    method Shutdown(items: seq<(GoString, Buffer)>)
      requires Valid() && !closed && cmap.Enumerates(items, cmap.contents.Keys)
      modifies this, buffers
      ensures Valid() && closed && workers == 0 && buffers == old(buffers)
      ensures cmap.Enumerates(items, cmap.contents.Keys)
      ensures dispatched == old(dispatched) + old(ShutdownBatches(items))
    {
      cmap.EnumeratesSize(items, cmap.contents.Keys);
      assert forall j :: 0 <= j < |items| ==> items[j].1 == cmap.contents[items[j].0];
      DrainAll(items, set j | 0 <= j < |items| :: items[j].1);
      closed := true;
      DrainedIsValid(items);
    }

    /** `Close`: the first call marks the client closed and runs every
        worker's exit branch, in `Iter` order, until no worker is left;
        every later call returns `ErrClientClosed` and changes nothing. */
    method Close() returns (err: Option<Error>, ghost order: seq<(GoString, Buffer)>)
      requires Valid()
      modifies this, buffers
      ensures Valid() && closed && workers == 0 && buffers == old(buffers)
      ensures err == if old(closed) then Some(ErrClientClosed) else None
      ensures old(closed) ==> dispatched == old(dispatched)
      ensures !old(closed) ==> cmap.Enumerates(order, cmap.contents.Keys)
      ensures !old(closed) ==> dispatched == old(dispatched) + old(ShutdownBatches(order))
    {
      if closed {
        return Some(ErrClientClosed), [];
      }
      var items := cmap.Iter();
      order := items;
      Shutdown(items);
      err := None;
    }
  }

  /** A client's life: a record handed to a fresh client is accepted exactly
      when it is valid, closing succeeds once, and every record offered
      after that is refused with `ErrClientClosed` (the sequence of
      `TestClose`, with a `Set` before the close). */
  method Lifecycle(writeKey: GoString, marshal: Record -> Option<Bytes>, a: Object, b: Object)
    returns (first: Option<Error>, closing: Option<Error>, after: Option<Error>, again: Option<Error>)
    ensures first == if IsValid(a) then None else Some(ErrInvalid(Validate(a)))
    ensures closing == None
    ensures after == Some(ErrClientClosed) && again == Some(ErrClientClosed)
  {
    var c := new Client.New(writeKey, marshal);
    first := c.Set(a);
    ghost var order;
    closing, order := c.Close();
    after := c.Set(b);
    again, order := c.Close();
  }
}
