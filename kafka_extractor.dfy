/**
 * The queue-consumer extractor. The Kafka consumer is replaced by a finite
 * trace of what its receive loop observes; JSON decoding is an abstract
 * partial function from payload bytes to `DtData`.
 */
module KafkaExtractor {
  import opened Common
  import opened DtEvent
  import opened OffsetFormat
  import opened Queue

  /** A received Kafka message: its own offset and its payload, if any. */
  datatype Message = Message(offset: i64, payload: Option<seq<byte>>)

  /**
   * One event of a run, in the order the extractor meets them: the consumer
   * hands over a message, the consumer's receive fails, or the task on the
   * other side of the buffer closes it (interleaved between receives).
   */
  datatype Step = Receive(msg: Message) | ReceiveError | CloseByConsumer

  /** Payload decoding (`serde_json::from_slice`); `None` is a decode error. */
  type Decoder = seq<byte> -> Option<DtData>

  /** The two `unwrap` calls of the loop that abort the task. */
  datatype Panic = ReceivePanic | DecodePanic(offset: i64)

  /**
   * How a run ends: still blocked in the receive (the trace is exhausted),
   * aborted by a panic, or returned from `extract` with a result.
   */
  datatype Exit = Running | Panicked(panic: Panic) | Returned(result: Result<(), PushError>)

  /** What the loop body makes of one message. */
  datatype Handled = Skipped | Undecodable | Decoded(event: DtData)

  function Handle(m: Message, decode: Decoder): (h: Handled)
    ensures h.Skipped? <==> m.payload.None?
    ensures h.Undecodable? <==> m.payload.Some? && decode(m.payload.value).None?
    ensures h.Decoded? ==>
              var decoded := decode(m.payload.value).value;
              && Blanked(h.event) == Blanked(decoded)
              && (Positioned(decoded) ==> PositionOf(h.event) == Some(OffsetPosition(m.offset)))
              && (!Positioned(decoded) ==> h.event == decoded)
  {
    match m.payload
    case None => Skipped
    case Some(payload) =>
      match decode(payload)
      case None => Undecodable
      case Some(decoded) => Decoded(Stamp(decoded, OffsetPosition(m.offset)))
  }

  /** What one step contributes to the buffer when its push succeeds. */
  function Output(s: Step, decode: Decoder): (out: seq<DtData>)
    ensures |out| <= 1
  {
    match s
    case Receive(m) => (match Handle(m, decode) case Decoded(event) => [event] case _ => [])
    case _ => []
  }

  /**
   * The events a run pushes while it completes every step of `t`, in arrival
   * order. A push refused by a closed buffer stops the run, so that step is
   * never completed; for a run that did not complete `t` this is not what it pushed.
   */
  function Emitted(t: seq<Step>, decode: Decoder): seq<DtData>
    decreases |t|
  {
    if t == [] then [] else Emitted(t[..|t| - 1], decode) + Output(t[|t| - 1], decode)
  }

  /** The received messages that carry a payload, in arrival order. */
  function Carrying(t: seq<Step>): seq<Message>
    decreases |t|
  {
    if t == [] then []
    else
      var last := t[|t| - 1];
      Carrying(t[..|t| - 1]) + (if last.Receive? && last.msg.payload.Some? then [last.msg] else [])
  }

  /** Every payload received in `t` decodes. */
  predicate AllDecode(t: seq<Step>, decode: Decoder)
  {
    forall i :: 0 <= i < |t| && t[i].Receive? && t[i].msg.payload.Some? ==>
      decode(t[i].msg.payload.value).Some?
  }

  /** Whether the buffer is closed after the steps `t`, starting from `closed`. */
  predicate ClosedAfter(closed: bool, t: seq<Step>)
  {
    closed || CloseByConsumer in t
  }

  /** Whether step `s` ends the run, given whether the buffer is closed when it happens. */
  function StopOf(s: Step, decode: Decoder, closed: bool): (r: Option<Exit>)
    ensures r.Some? ==> !r.value.Running?
    ensures r.Some? && r.value.Returned? ==> r.value.result.Err?
    ensures s.CloseByConsumer? ==> r.None?
    ensures s.Receive? && s.msg.payload.None? ==> r.None?
    ensures s.ReceiveError? ==> r == Some(Panicked(ReceivePanic))
    ensures s.Receive? && Handle(s.msg, decode).Undecodable? ==> r == Some(Panicked(DecodePanic(s.msg.offset)))
    ensures s.Receive? && Handle(s.msg, decode).Decoded? ==>
              r == (if closed then Some(Returned(Err(Closed))) else None)
  {
    match s
    case ReceiveError => Some(Panicked(ReceivePanic))
    case CloseByConsumer => None
    case Receive(m) =>
      match Handle(m, decode)
      case Skipped => None
      case Undecodable => Some(Panicked(DecodePanic(m.offset)))
      case Decoded(_) => if closed then Some(Returned(Err(Closed))) else None
  }

  lemma EmittedSnoc(t: seq<Step>, s: Step, decode: Decoder)
    ensures Emitted(t + [s], decode) == Emitted(t, decode) + Output(s, decode)
  {
    assert (t + [s])[..|t|] == t;
  }

  lemma ClosedAfterSnoc(closed: bool, t: seq<Step>, s: Step)
    ensures ClosedAfter(closed, t + [s]) == (ClosedAfter(closed, t) || s.CloseByConsumer?)
  {
  }

  /** No step of `t` stops the run, when the buffer starts out `closed` or not. */
  predicate Completed(t: seq<Step>, decode: Decoder, closed: bool)
    decreases |t|
  {
    t == [] ||
    (Completed(t[..|t| - 1], decode, closed) &&
     StopOf(t[|t| - 1], decode, ClosedAfter(closed, t[..|t| - 1])).None?)
  }

  lemma CompletedSnoc(t: seq<Step>, s: Step, decode: Decoder, closed: bool)
    requires Completed(t, decode, closed)
    requires StopOf(s, decode, ClosedAfter(closed, t)).None?
    ensures Completed(t + [s], decode, closed)
  {
    assert (t + [s])[..|t|] == t;
  }

  /** A completed run passed every step and decoded every payload it met. */
  lemma {:induction false} CompletedRunsThrough(t: seq<Step>, decode: Decoder, closed: bool)
    requires Completed(t, decode, closed)
    ensures forall i :: 0 <= i < |t| ==> StopOf(t[i], decode, ClosedAfter(closed, t[..i])).None?
    ensures AllDecode(t, decode)
  {
    if t != [] {
      var init := t[..|t| - 1];
      CompletedRunsThrough(init, decode, closed);
      forall i | 0 <= i < |t|
        ensures StopOf(t[i], decode, ClosedAfter(closed, t[..i])).None?
      {
        if i < |init| {
          assert t[..i] == init[..i];
          assert t[i] == init[i];
        }
      }
      forall i | 0 <= i < |t| && t[i].Receive? && t[i].msg.payload.Some?
        ensures decode(t[i].msg.payload.value).Some?
      {
        if i < |init| {
          assert t[i] == init[i];
        }
      }
    }
  }

  /** One entry of a `TopicPartitionList`. */
  datatype TopicPartition = TopicPartition(topic: string, partition: i32, offset: Option<i64>)

  /** The consumer as configured: its client properties and its partition assignment. */
  datatype Consumer = Consumer(config: map<string, string>, assignment: seq<TopicPartition>)

  /**
   * The offset the consumer starts reading at: the assigned offset if the
   * entry carries one, otherwise the one chosen by `auto.offset.reset`
   * (`logEnd` for `latest`, `logStart` for `earliest`).
   */
  function StartOffset(c: Consumer, logStart: int, logEnd: int): Option<int>
  {
    if |c.assignment| != 1 then None
    else if c.assignment[0].offset.Some? then Some(c.assignment[0].offset.value)
    else if "auto.offset.reset" !in c.config then None
    else if c.config["auto.offset.reset"] == "latest" then Some(logEnd)
    else if c.config["auto.offset.reset"] == "earliest" then Some(logStart)
    else None
  }

  class KafkaExtractor {
    const buffer: ConcurrentQueue<DtData>
    const url: string
    const group: string
    const topic: string
    const partition: i32
    const offset: i64

    constructor (buffer: ConcurrentQueue<DtData>, url: string, group: string, topic: string, partition: i32, offset: i64)
      ensures this.buffer == buffer && this.url == url && this.group == group
      ensures this.topic == topic && this.partition == partition && this.offset == offset
    {
      this.buffer := buffer;
      this.url := url;
      this.group := group;
      this.topic := topic;
      this.partition := partition;
      this.offset := offset;
    }

    /**
     * The client configuration and the single-partition assignment; an
     * explicit offset is assigned only when the configured one is positive.
     */
    function CreateConsumer(): (c: Consumer)
      ensures c.config.Keys == {"bootstrap.servers", "group.id", "auto.offset.reset", "session.timeout.ms"}
      ensures c.config["bootstrap.servers"] == url && c.config["group.id"] == group
      ensures c.config["auto.offset.reset"] == "latest" && c.config["session.timeout.ms"] == "10000"
      ensures |c.assignment| == 1
      ensures c.assignment[0].topic == topic && c.assignment[0].partition == partition
      ensures c.assignment[0].offset.Some? <==> offset > 0
      ensures c.assignment[0].offset.Some? ==> c.assignment[0].offset.value == offset
    {
      var config := map[
        "bootstrap.servers" := url,
        "group.id" := group,
        "auto.offset.reset" := "latest",
        "session.timeout.ms" := "10000"];
      var entry := if offset > 0 then TopicPartition(topic, partition, Some(offset))
                   else TopicPartition(topic, partition, None);
      Consumer(config, [entry])
    }

    /**
     * One pass of the loop body: the received message is skipped, decoded,
     * stamped and pushed; a receive or decode failure panics and a refused
     * push is returned as the loop's result.
     */
    method HandleStep(step: Step, decode: Decoder) returns (stop: Option<Exit>)
      modifies buffer
      ensures stop == StopOf(step, decode, old(buffer.closed))
      ensures buffer.closed == (old(buffer.closed) || step.CloseByConsumer?)
      ensures buffer.items == if stop.Some? then old(buffer.items) else old(buffer.items) + Output(step, decode)
    {
      match step {
        case ReceiveError =>
          return Some(Panicked(ReceivePanic));
        case CloseByConsumer =>
          buffer.Close();
        case Receive(msg) =>
          var position := OffsetPosition(msg.offset);
          if msg.payload.Some? {
            var decoded := decode(msg.payload.value);
            if decoded.None? {
              return Some(Panicked(DecodePanic(msg.offset)));
            }
            var data := Stamp(decoded.value, position);
            var pushed := buffer.Push(data);
            if pushed.Err? {
              return Some(Returned(pushed));
            }
          }
      }
      stop := None;
    }

    /**
     * The receive loop over `trace`. `steps` is the number of steps completed;
     * when the run stops, `trace[steps]` is the step that stopped it and no later
     * step is looked at.
     */
    method Extract(trace: seq<Step>, decode: Decoder) returns (exit: Exit, steps: nat)
      modifies buffer
      ensures steps <= |trace|
      ensures exit.Running? <==> steps == |trace|
      ensures exit.Returned? ==> exit.result.Err?
      ensures steps < |trace| ==> StopOf(trace[steps], decode, buffer.closed) == Some(exit)
      ensures forall i :: 0 <= i < steps ==>
                StopOf(trace[i], decode, ClosedAfter(old(buffer.closed), trace[..i])).None?
      ensures AllDecode(trace[..steps], decode)
      ensures buffer.closed == ClosedAfter(old(buffer.closed), trace[..steps])
      ensures buffer.items == old(buffer.items) + Emitted(trace[..steps], decode)
    {
      var consumer := CreateConsumer();
      ghost var closed0, items0 := buffer.closed, buffer.items;
      exit, steps := Running, 0;
      while steps < |trace|
        invariant steps <= |trace|
        invariant Completed(trace[..steps], decode, closed0)
        invariant buffer.closed == ClosedAfter(closed0, trace[..steps])
        invariant buffer.items == items0 + Emitted(trace[..steps], decode)
        invariant exit.Running?
        decreases |trace| - steps
      {
        var step := trace[steps];
        var stop := HandleStep(step, decode);
        if stop.Some? {
          exit := stop.value;
          break;
        }
        assert trace[..steps + 1] == trace[..steps] + [step];
        ClosedAfterSnoc(closed0, trace[..steps], step);
        CompletedSnoc(trace[..steps], step, decode, closed0);
        EmittedSnoc(trace[..steps], step, decode);
        steps := steps + 1;
      }
      CompletedRunsThrough(trace[..steps], decode, closed0);
      assert forall i :: 0 <= i < steps ==> trace[..steps][..i] == trace[..i];
    }
  }

  /** With `offset > 0` reading resumes at that offset; otherwise at the end of the log. */
  lemma ResumeAtConfiguredOffset(e: KafkaExtractor, logStart: int, logEnd: int)
    ensures e.offset > 0 ==> StartOffset(e.CreateConsumer(), logStart, logEnd) == Some(e.offset)
    ensures e.offset <= 0 ==> StartOffset(e.CreateConsumer(), logStart, logEnd) == Some(logEnd)
  {
  }

  /**
   * `Emitted` holds exactly one event per payload-carrying message, in arrival
   * order, each the decoded payload stamped with its message's offset.
   */
  lemma {:induction false} EmittedOnePerPayload(t: seq<Step>, decode: Decoder)
    requires AllDecode(t, decode)
    ensures |Emitted(t, decode)| == |Carrying(t)|
    ensures forall k :: 0 <= k < |Carrying(t)| ==>
              Handle(Carrying(t)[k], decode) == Decoded(Emitted(t, decode)[k])
  {
    if t != [] {
      var init := t[..|t| - 1];
      assert AllDecode(init, decode) by {
        forall i | 0 <= i < |init| && init[i].Receive? && init[i].msg.payload.Some?
          ensures decode(init[i].msg.payload.value).Some?
        {
          assert init[i] == t[i];
        }
      }
      EmittedOnePerPayload(init, decode);
      var last := t[|t| - 1];
      if last.Receive? && last.msg.payload.Some? {
        assert decode(t[|t| - 1].msg.payload.value).Some?;
      }
    }
  }

  /**
   * A run that completes every step of `t` pushes one event per
   * payload-carrying message, in arrival order, each the decoded payload
   * stamped with its message's offset.
   */
  lemma CompletedRunPushesOnePerPayload(t: seq<Step>, decode: Decoder, closed: bool)
    requires Completed(t, decode, closed)
    ensures |Emitted(t, decode)| == |Carrying(t)|
    ensures forall k :: 0 <= k < |Carrying(t)| ==>
              Handle(Carrying(t)[k], decode) == Decoded(Emitted(t, decode)[k])
  {
    CompletedRunsThrough(t, decode, closed);
    EmittedOnePerPayload(t, decode);
  }

  /** A message without payload pushes nothing and does not stop the run. */
  lemma SkipLeavesBufferAlone(t: seq<Step>, offset: i64, decode: Decoder, closed: bool)
    ensures Emitted(t + [Receive(Message(offset, None))], decode) == Emitted(t, decode)
    ensures StopOf(Receive(Message(offset, None)), decode, closed) == None
  {
    var t' := t + [Receive(Message(offset, None))];
    assert t'[..|t'| - 1] == t;
  }

  /**
   * When the received offsets strictly increase (as within one partition),
   * the positions of the `Dml`/`Commit` events in `Emitted` are pairwise distinct.
   */
  lemma EmittedPositionsDistinct(t: seq<Step>, decode: Decoder, j: nat, k: nat)
    requires AllDecode(t, decode)
    requires forall a, b :: 0 <= a < b < |Carrying(t)| ==> Carrying(t)[a].offset < Carrying(t)[b].offset
    requires j < k < |Emitted(t, decode)|
    requires Positioned(Emitted(t, decode)[j]) && Positioned(Emitted(t, decode)[k])
    ensures PositionOf(Emitted(t, decode)[j]) != PositionOf(Emitted(t, decode)[k])
  {
    EmittedOnePerPayload(t, decode);
    var mj, mk := Carrying(t)[j], Carrying(t)[k];
    assert Handle(mj, decode) == Decoded(Emitted(t, decode)[j]);
    assert Handle(mk, decode) == Decoded(Emitted(t, decode)[k]);
    assert PositionOf(Emitted(t, decode)[j]) == Some(OffsetPosition(mj.offset));
    assert PositionOf(Emitted(t, decode)[k]) == Some(OffsetPosition(mk.offset));
    OffsetPositionInjective(mj.offset, mk.offset);
  }
}
