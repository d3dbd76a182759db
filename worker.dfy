/** The batching decision of the per-collection worker (the `for`/`select`
    loop of `buffer()`), as a step function over the events the worker
    sees. Payloads arrive already serialised, or as a serialisation failure. */
module Worker {
  import opened Bytes
  import opened Buffers

  /** The two ceilings: `MaxBatchBytes` and `MaxBatchCount`. */
  datatype Limits = Limits(maxBytes: int, maxCount: int)

  /** The buffered payloads, and the contents of every batch flushed so far,
      oldest first. */
  datatype State = State(buf: seq<Bytes>, sent: seq<seq<Bytes>>)

  /** What the `select` can pick: a record from the mailbox (its payload, or
      `None` when serialising it failed), a tick of the flush timer, or the
      exit signal together with the records still queued in the mailbox. */
  datatype Event = Record(payload: Option<Bytes>) | Tick | Exit(remaining: seq<Option<Bytes>>)

  /** The pre-emptive check made before a payload x is added. */
  predicate FlushesFirst(lim: Limits, buf: seq<Bytes>, x: Bytes)
  {
    TotalSize(buf) + |x| >= lim.maxBytes || |buf| + 1 >= lim.maxCount
  }

  /** `flush`: an empty buffer sends nothing; otherwise its contents become
      one batch and the buffer is emptied. */
  function Flush(s: State): State
  {
    if |s.buf| == 0 then s else State([], s.sent + [s.buf])
  }

  /** Flush first when the check says so, then always add x. */
  function Add(lim: Limits, s: State, x: Bytes): State
  {
    var t := if FlushesFirst(lim, s.buf, x) then Flush(s) else s;
    State(t.buf + [x], t.sent)
  }

  /** One mailbox record: skipped when it could not be serialised. */
  function Receive(lim: Limits, s: State, p: Option<Bytes>): State
  {
    match p
    case None => s
    case Some(x) => Add(lim, s, x)
  }

  /** The records of `ps`, received in order. */
  function ReceiveAll(lim: Limits, s: State, ps: seq<Option<Bytes>>): State
  {
    if ps == [] then s else Receive(lim, ReceiveAll(lim, s, ps[..|ps| - 1]), ps[|ps| - 1])
  }

  /** One branch of the `select`. On exit the worker drains its mailbox with
      the same rule and then flushes one last time. */
  function Step(lim: Limits, s: State, e: Event): State
  {
    match e
    case Record(p) => Receive(lim, s, p)
    case Tick => Flush(s)
    case Exit(rs) => Flush(ReceiveAll(lim, s, rs))
  }

  /** The event loop: events are handled in order until the first `Exit`,
      after which the worker has returned and sees nothing more. */
  function Run(lim: Limits, s: State, es: seq<Event>): State
    decreases es
  {
    if es == [] then s
    else if es[0].Exit? then Step(lim, s, es[0])
    else Run(lim, Step(lim, s, es[0]), es[1..])
  }

  /** Receiving only appends to what was already sent. */
  lemma ReceiveFrame(lim: Limits, s: State, p: Option<Bytes>)
    ensures var t := Receive(lim, State(s.buf, []), p);
            Receive(lim, s, p) == State(t.buf, s.sent + t.sent)
  {
  }

  /** Flushing only appends to what was already sent. */
  lemma FlushFrame(s: State)
    ensures var t := Flush(State(s.buf, []));
            Flush(s) == State(t.buf, s.sent + t.sent)
  {
  }

  /** The payloads that serialised, in order. */
  function Serialised(ps: seq<Option<Bytes>>): seq<Bytes>
  {
    if ps == [] then []
    else Serialised(ps[..|ps| - 1]) + (if ps[|ps| - 1].Some? then [ps[|ps| - 1].value] else [])
  }

  /** The payloads the loop accepts from `es`: those of the records up to
      and including the first `Exit`'s remaining ones. */
  function Arrivals(es: seq<Event>): seq<Bytes>
  {
    if es == [] then []
    else match es[0]
      case Record(p) => (if p.Some? then [p.value] else []) + Arrivals(es[1..])
      case Tick => Arrivals(es[1..])
      case Exit(rs) => Serialised(rs)
  }

  function Flatten(ss: seq<seq<Bytes>>): seq<Bytes>
  {
    if ss == [] then [] else Flatten(ss[..|ss| - 1]) + ss[|ss| - 1]
  }

  /** Everything accepted so far, in arrival order: the flushed batches and
      then the buffer. */
  function Delivered(s: State): seq<Bytes>
  {
    Flatten(s.sent) + s.buf
  }

  /** A buffer holds at most one payload, or fewer than `maxCount` payloads
      totalling fewer than `maxBytes` bytes. */
  predicate Bounded(lim: Limits, buf: seq<Bytes>)
  {
    |buf| <= 1 || (|buf| < lim.maxCount && TotalSize(buf) < lim.maxBytes)
  }

  /** The buffer is bounded, and every batch sent is non-empty and bounded. */
  predicate WellFormed(lim: Limits, s: State)
  {
    && Bounded(lim, s.buf)
    && forall i :: 0 <= i < |s.sent| ==> s.sent[i] != [] && Bounded(lim, s.sent[i])
  }

  lemma FlattenAppend(ss: seq<seq<Bytes>>, t: seq<Bytes>)
    ensures Flatten(ss + [t]) == Flatten(ss) + t
  {
    assert (ss + [t])[..|ss|] == ss;
  }

  // ---- one step at a time ----

  /** The flush-first rule, both ways: a batch is sent before x exactly when
      the check fires on a non-empty buffer, and x always ends up last in the
      buffer, never dropped. */
  lemma AddFlushesIff(lim: Limits, s: State, x: Bytes)
    ensures |Add(lim, s, x).sent| == |s.sent| + 1 <==> FlushesFirst(lim, s.buf, x) && s.buf != []
    ensures |Add(lim, s, x).sent| == |s.sent| ==> Add(lim, s, x).sent == s.sent && Add(lim, s, x).buf == s.buf + [x]
    ensures |Add(lim, s, x).sent| == |s.sent| + 1 ==> Add(lim, s, x).sent == s.sent + [s.buf] && Add(lim, s, x).buf == [x]
  {
  }

  /** Whatever the buffer held, after an add it is within the ceilings, or
      it holds the one payload just added. */
  lemma AddBounded(lim: Limits, s: State, x: Bytes)
    ensures Bounded(lim, Add(lim, s, x).buf)
  {
    if !FlushesFirst(lim, s.buf, x) {
      TotalSizeAppend(s.buf, x);
    }
  }

  lemma FlushWellFormed(lim: Limits, s: State)
    requires WellFormed(lim, s)
    ensures WellFormed(lim, Flush(s))
  {
  }

  lemma AddWellFormed(lim: Limits, s: State, x: Bytes)
    requires WellFormed(lim, s)
    ensures WellFormed(lim, Add(lim, s, x))
  {
    AddBounded(lim, s, x);
    FlushWellFormed(lim, s);
  }

  lemma AddDelivers(lim: Limits, s: State, x: Bytes)
    ensures Delivered(Add(lim, s, x)) == Delivered(s) + [x]
  {
    if FlushesFirst(lim, s.buf, x) && s.buf != [] {
      FlattenAppend(s.sent, s.buf);
    }
  }

  lemma FlushDelivers(s: State)
    ensures Flush(s).buf == []
    ensures Delivered(Flush(s)) == Delivered(s)
  {
    if s.buf != [] {
      FlattenAppend(s.sent, s.buf);
    }
  }

  /** A tick flushes unconditionally and loses nothing. */
  lemma TickFlushes(lim: Limits, s: State)
    ensures Step(lim, s, Tick).buf == []
    ensures Delivered(Step(lim, s, Tick)) == Delivered(s)
  {
    FlushDelivers(s);
  }

  lemma {:induction false} ReceiveAllDelivers(lim: Limits, s: State, ps: seq<Option<Bytes>>)
    ensures Delivered(ReceiveAll(lim, s, ps)) == Delivered(s) + Serialised(ps)
  {
    if ps != [] {
      var init := ps[..|ps| - 1];
      var t := ReceiveAll(lim, s, init);
      ReceiveAllDelivers(lim, s, init);
      if ps[|ps| - 1].Some? {
        AddDelivers(lim, t, ps[|ps| - 1].value);
      }
    }
  }

  /** On exit every queued record is processed with the same rule and a
      final flush leaves the buffer empty: the batches sent then hold the
      buffer followed by every queued record that serialised. */
  lemma ExitDrains(lim: Limits, s: State, rs: seq<Option<Bytes>>)
    ensures Step(lim, s, Exit(rs)).buf == []
    ensures Delivered(Step(lim, s, Exit(rs))) == Delivered(s) + Serialised(rs)
    ensures Flatten(Step(lim, s, Exit(rs)).sent) == Flatten(s.sent) + s.buf + Serialised(rs)
  {
    ReceiveAllDelivers(lim, s, rs);
    FlushDelivers(ReceiveAll(lim, s, rs));
  }

  // ---- whole runs ----

  /** Order preservation: the batches sent, followed by the buffer, are the
      serialised records in arrival order; failed records are skipped. */
  lemma {:induction false} RunDelivers(lim: Limits, s: State, es: seq<Event>)
    ensures Delivered(Run(lim, s, es)) == Delivered(s) + Arrivals(es)
    decreases es
  {
    if es != [] {
      match es[0]
      case Record(p) =>
        if p.Some? {
          AddDelivers(lim, s, p.value);
        }
        RunDelivers(lim, Step(lim, s, es[0]), es[1..]);
      case Tick =>
        TickFlushes(lim, s);
        RunDelivers(lim, Step(lim, s, es[0]), es[1..]);
      case Exit(rs) =>
        ExitDrains(lim, s, rs);
    }
  }

  lemma {:induction false} ReceiveAllWellFormed(lim: Limits, s: State, ps: seq<Option<Bytes>>)
    requires WellFormed(lim, s)
    ensures WellFormed(lim, ReceiveAll(lim, s, ps))
  {
    if ps != [] {
      var t := ReceiveAll(lim, s, ps[..|ps| - 1]);
      ReceiveAllWellFormed(lim, s, ps[..|ps| - 1]);
      if ps[|ps| - 1].Some? {
        AddWellFormed(lim, t, ps[|ps| - 1].value);
      }
    }
  }

  lemma StepWellFormed(lim: Limits, s: State, e: Event)
    requires WellFormed(lim, s)
    ensures WellFormed(lim, Step(lim, s, e))
  {
    match e
    case Record(p) =>
      if p.Some? {
        AddWellFormed(lim, s, p.value);
      }
    case Tick =>
      FlushWellFormed(lim, s);
    case Exit(rs) =>
      ReceiveAllWellFormed(lim, s, rs);
      FlushWellFormed(lim, ReceiveAll(lim, s, rs));
  }

  /** The ceilings hold throughout: at every point of a run the buffer is
      bounded, and every batch the worker sends is non-empty and either a
      single payload or below both ceilings. */
  lemma {:induction false} RunWellFormed(lim: Limits, s: State, es: seq<Event>)
    requires WellFormed(lim, s)
    ensures WellFormed(lim, Run(lim, s, es))
    decreases es
  {
    if es != [] {
      StepWellFormed(lim, s, es[0]);
      if !es[0].Exit? {
        RunWellFormed(lim, Step(lim, s, es[0]), es[1..]);
      }
    }
  }

  /** Because the count test is `count+1 >= MaxBatchCount`, with a ceiling
      of at least 2 neither the buffer nor any batch ever reaches
      `MaxBatchCount` payloads. */
  lemma CountCeilingNeverReached(lim: Limits, s: State)
    requires lim.maxCount >= 2 && WellFormed(lim, s)
    ensures |s.buf| < lim.maxCount
    ensures forall i :: 0 <= i < |s.sent| ==> |s.sent[i]| < lim.maxCount
  {
  }

  /** A fresh worker's state. */
  const Idle := State([], [])

  lemma IdleWellFormed(lim: Limits)
    ensures WellFormed(lim, Idle)
  {
  }

  /** Batches only accumulate: a run never alters what was already sent. */
  lemma {:induction false} RunKeepsSent(lim: Limits, s: State, es: seq<Event>)
    ensures |s.sent| <= |Run(lim, s, es).sent|
    ensures Run(lim, s, es).sent[..|s.sent|] == s.sent
    decreases es
  {
    if es != [] {
      ReceiveAllKeepsSent(lim, s, if es[0].Exit? then es[0].remaining else []);
      if !es[0].Exit? {
        RunKeepsSent(lim, Step(lim, s, es[0]), es[1..]);
      }
    }
  }

  lemma {:induction false} ReceiveAllKeepsSent(lim: Limits, s: State, ps: seq<Option<Bytes>>)
    ensures |s.sent| <= |ReceiveAll(lim, s, ps).sent|
    ensures ReceiveAll(lim, s, ps).sent[..|s.sent|] == s.sent
  {
    if ps != [] {
      ReceiveAllKeepsSent(lim, s, ps[..|ps| - 1]);
    }
  }

  /** With `MaxBatchCount = 2`, records a, b and c followed by exit send
      three batches [a], [b], [c] (not [a, b] and [c]): the check on b
      already fires at count 1. */
  lemma MaxCountTwo(a: Bytes, b: Bytes, c: Bytes, maxBytes: int)
    ensures Run(Limits(maxBytes, 2), Idle, [Record(Some(a)), Record(Some(b)), Record(Some(c)), Exit([])]).sent == [[a], [b], [c]]
  {
    var lim := Limits(maxBytes, 2);
    var es := [Record(Some(a)), Record(Some(b)), Record(Some(c)), Exit([])];
    var s1 := State([a], []);
    assert Step(lim, Idle, es[0]) == s1;
    var s2 := State([b], [[a]]);
    assert Step(lim, s1, es[1]) == s2;
    var s3 := State([c], [[a], [b]]);
    assert Step(lim, s2, es[2]) == s3;
    assert Run(lim, Idle, es) == Run(lim, s1, es[1..]);
    assert Run(lim, s1, es[1..]) == Run(lim, s2, es[2..]);
    assert Run(lim, s2, es[2..]) == Run(lim, s3, es[3..]);
    assert Run(lim, s3, es[3..]) == Flush(ReceiveAll(lim, s3, []));
  }
}
