/**
 * The sensor device of device.py: a generation process that stamps readings
 * into a FIFO buffer and a transmission process that pops the oldest reading
 * and either hands it to the gateway after a delay or loses it.
 *
 * Each `while True` body is one step. The virtual time `now` and the random
 * draws of that step are inputs. A run of one device is a sequence of `Step`s;
 * `Run` replays it into a `History`, and the lemmas below are about any run.
 * The class `IoTDevice` keeps the steps it has taken as ghost state and its
 * buffer equal to the replayed one.
 */
module Device {
  import opened Wrappers
  import opened Packets
  import opened Network

  const DefaultDataRate: real := 3.0

  /** Range of `random.uniform(30, 40)` for a reading. */
  const MinValue: real := 30.0
  const MaxValue: real := 40.0

  /** Range of `random.uniform(0.1, 0.5)` for a transmission delay. */
  const MinDelay: real := 0.1
  const MaxDelay: real := 0.5

  /** A draw of `random.random()` above this is a delivery; at or below it, a loss. */
  const LossProb: real := 0.01

  /** Sleep of the transmission process when the buffer is empty. */
  const PollInterval: real := 0.1

  /** Why a generation step cannot ask for its timeout. */
  datatype Fault =
    | ZeroDivision   // `1 / data_rate` with a zero rate
    | NegativeDelay  // the scheduler refuses a negative timeout

  /** The timeout a generation step yields: one reading every `1 / dataRate` seconds. */
  function GenerateTimeout(dataRate: real): (r: Result<real, Fault>)
    ensures r.Success? <==> dataRate > 0.0
    ensures r.Success? ==> r.value > 0.0 && r.value * dataRate == 1.0
    ensures r.Failure? ==> (r.error == ZeroDivision <==> dataRate == 0.0)
  {
    if dataRate == 0.0 then Failure(ZeroDivision)
    else if dataRate < 0.0 then Failure(NegativeDelay)
    else Success(1.0 / dataRate)
  }

  /** The reading a generation step appends. */
  function Reading(name: string, now: real, value: real): Packet {
    Packet(now, value, name, None)
  }

  /** One turn of either process, with the time it starts and its random draws. */
  datatype Step =
    | Generate(now: real, value: real)
    | Send(now: real, delay: real, draw: real)

  /** The draws lie in the ranges the random calls return. */
  predicate InRange(s: Step) {
    match s
    case Generate(_, value) => MinValue <= value <= MaxValue
    case Send(_, delay, draw) => MinDelay <= delay <= MaxDelay && 0.0 <= draw < 1.0
  }

  /** A step at `now` may follow `steps`: virtual time never goes back. */
  predicate CanFollow(steps: seq<Step>, now: real) {
    steps == [] || steps[|steps| - 1].now <= now
  }

  /** Every step's draws are in range and every step starts no earlier than the one before it. */
  predicate Feasible(steps: seq<Step>)
    decreases |steps|
  {
    steps == [] ||
    var prefix, last := steps[..|steps| - 1], steps[|steps| - 1];
    Feasible(prefix) && CanFollow(prefix, last.now) && InRange(last)
  }

  /** What one transmission step does with the buffer it finds. */
  datatype SendOutcome =
    | Idle                                   // empty buffer: poll again later
    | Dropped(packet: Packet)                // popped and lost
    | Delivered(packet: Packet, delay: real) // popped, delayed, handed to the gateway

  /** A non-empty buffer always gives up its oldest packet; only a draw strictly above `LossProb` delivers it. */
  function Transmit(buffer: seq<Packet>, delay: real, draw: real): (o: SendOutcome)
    ensures o.Idle? <==> buffer == []
    ensures o.Delivered? <==> buffer != [] && draw > LossProb
    ensures o.Dropped? <==> buffer != [] && draw <= LossProb
    ensures !o.Idle? ==> o.packet == buffer[0]
    ensures o.Delivered? ==> o.delay == delay
  {
    if buffer == [] then Idle
    else if draw > LossProb then Delivered(buffer[0], delay)
    else Dropped(buffer[0])
  }

  /** The timeout a transmission step yields; a loss yields none and loops at once. */
  function SendTimeout(o: SendOutcome): Option<real> {
    match o
    case Idle => Some(PollInterval)
    case Dropped(_) => None
    case Delivered(_, delay) => Some(delay)
  }

  /**
   * What a device has done so far: the packets still buffered, those popped
   * (in pop order), those the gateway received (as stamped) and how many were lost.
   */
  datatype History = History(buffer: seq<Packet>, departed: seq<Packet>, delivered: seq<Packet>, lost: nat)

  function Apply(name: string, h: History, s: Step): History {
    match s
    case Generate(now, value) =>
      h.(buffer := h.buffer + [Reading(name, now, value)])
    case Send(now, delay, draw) =>
      match Transmit(h.buffer, delay, draw)
      case Idle => h
      case Dropped(p) =>
        h.(buffer := h.buffer[1..], departed := h.departed + [p], lost := h.lost + 1)
      case Delivered(p, d) =>
        h.(buffer := h.buffer[1..], departed := h.departed + [p],
           delivered := h.delivered + [Stamp(p, now + d)])
  }

  /** Replays a device's steps from a fresh device. */
  function Run(name: string, steps: seq<Step>): History
    decreases |steps|
  {
    if steps == [] then History([], [], [], 0)
    else Apply(name, Run(name, steps[..|steps| - 1]), steps[|steps| - 1])
  }

  /** Reference definition of everything generated: the readings of the generation steps, in order. */
  function Readings(name: string, steps: seq<Step>): seq<Packet>
    decreases |steps|
  {
    if steps == [] then []
    else
      var last := steps[|steps| - 1];
      Readings(name, steps[..|steps| - 1]) +
        (if last.Generate? then [Reading(name, last.now, last.value)] else [])
  }

  lemma RunAppend(name: string, steps: seq<Step>, s: Step)
    ensures Run(name, steps + [s]) == Apply(name, Run(name, steps), s)
    ensures Readings(name, steps + [s]) ==
            Readings(name, steps) + (if s.Generate? then [Reading(name, s.now, s.value)] else [])
  {
    assert (steps + [s])[..|steps|] == steps;
  }

  lemma FeasibleAppend(steps: seq<Step>, s: Step)
    requires Feasible(steps) && CanFollow(steps, s.now) && InRange(s)
    ensures Feasible(steps + [s])
  {
    assert (steps + [s])[..|steps|] == steps;
  }

  /** Packets leave the buffer in the order they were generated: nothing is reordered, skipped or duplicated. */
  lemma {:induction false} RunKeepsOrder(name: string, steps: seq<Step>)
    ensures Readings(name, steps) == Run(name, steps).departed + Run(name, steps).buffer
    decreases |steps|
  {
    if steps != [] {
      var prefix, last := steps[..|steps| - 1], steps[|steps| - 1];
      RunKeepsOrder(name, prefix);
      var h := Run(name, prefix);
      match last
      case Generate(now, value) =>
        assert (h.departed + h.buffer) + [Reading(name, now, value)]
            == h.departed + (h.buffer + [Reading(name, now, value)]);
      case Send(now, delay, draw) =>
        if h.buffer != [] {
          assert h.buffer == [h.buffer[0]] + h.buffer[1..];
          assert h.departed + h.buffer == (h.departed + [h.buffer[0]]) + h.buffer[1..];
        }
    }
  }

  /** Every popped packet was either delivered once or lost once. */
  lemma {:induction false} DepartedSplit(name: string, steps: seq<Step>)
    ensures |Run(name, steps).departed| == |Run(name, steps).delivered| + Run(name, steps).lost
    decreases |steps|
  {
    if steps != [] {
      DepartedSplit(name, steps[..|steps| - 1]);
    }
  }

  /** Conservation: generated = still buffered + delivered + lost. */
  lemma {:induction false} RunConserves(name: string, steps: seq<Step>)
    ensures |Readings(name, steps)| ==
            |Run(name, steps).buffer| + |Run(name, steps).delivered| + Run(name, steps).lost
    ensures |Run(name, steps).delivered| <= |Readings(name, steps)|
  {
    RunKeepsOrder(name, steps);
    DepartedSplit(name, steps);
  }

  /**
   * A buffered packet is one of this device's in-range readings, not yet
   * received, generated no later than the last step.
   */
  lemma {:induction false} BufferedPackets(name: string, steps: seq<Step>)
    requires Feasible(steps)
    ensures forall p | p in Run(name, steps).buffer ::
              p.device == name && !Received(p) && MinValue <= p.value <= MaxValue &&
              steps != [] && p.timestamp <= steps[|steps| - 1].now
    decreases |steps|
  {
    if steps != [] {
      var prefix, last := steps[..|steps| - 1], steps[|steps| - 1];
      BufferedPackets(name, prefix);
      var h := Run(name, prefix);
      if last.Send? && h.buffer != [] {
        forall p | p in h.buffer[1..] ensures p in h.buffer {
        }
      }
    }
  }

  /**
   * Every packet this device delivered is one of its in-range readings and
   * reached the gateway at least `MinDelay` after it was generated.
   */
  lemma {:induction false} RunLatency(name: string, steps: seq<Step>)
    requires Feasible(steps)
    ensures forall p | p in Run(name, steps).delivered ::
              p.device == name && Received(p) && MinValue <= p.value <= MaxValue &&
              Latency(p) >= MinDelay
    decreases |steps|
  {
    if steps != [] {
      var prefix, last := steps[..|steps| - 1], steps[|steps| - 1];
      RunLatency(name, prefix);
      BufferedPackets(name, prefix);
    }
  }

  /**
   * With every draw above the loss probability, no packet is ever lost: the
   * gateway receives exactly the popped packets, in pop order, each changed
   * only by its arrival stamp.
   */
  lemma {:induction false} NoLossWithoutLossDraw(name: string, steps: seq<Step>)
    requires forall i :: 0 <= i < |steps| && steps[i].Send? ==> steps[i].draw > LossProb
    ensures Run(name, steps).lost == 0
    ensures |Run(name, steps).delivered| == |Run(name, steps).departed|
    ensures forall i :: 0 <= i < |Run(name, steps).delivered| ==>
              var q := Run(name, steps).delivered[i];
              Received(q) && q == Run(name, steps).departed[i].(receivedAt := q.receivedAt)
    decreases |steps|
  {
    if steps != [] {
      var prefix, last := steps[..|steps| - 1], steps[|steps| - 1];
      assert forall i :: 0 <= i < |prefix| ==> prefix[i] == steps[i];
      NoLossWithoutLossDraw(name, prefix);
      var h := Run(name, prefix);
      if last.Send? && h.buffer != [] {
        var q := Stamp(h.buffer[0], last.now + last.delay);
        assert Run(name, steps).delivered == h.delivered + [q];
        assert Run(name, steps).departed == h.departed + [h.buffer[0]];
      }
    }
  }

  /** With every draw at or below the loss probability, the gateway receives nothing. */
  lemma {:induction false} NoDeliveryWithOnlyLossDraws(name: string, steps: seq<Step>)
    requires forall i :: 0 <= i < |steps| && steps[i].Send? ==> steps[i].draw <= LossProb
    ensures Run(name, steps).delivered == []
    decreases |steps|
  {
    if steps != [] {
      var prefix := steps[..|steps| - 1];
      assert forall i :: 0 <= i < |prefix| ==> prefix[i] == steps[i];
      NoDeliveryWithOnlyLossDraws(name, prefix);
    }
  }

  /** What one transmission turn does to a device's history, whatever that history is. */
  lemma ApplySend(name: string, h0: History, now: real, delay: real, draw: real)
    ensures var h, o := Apply(name, h0, Send(now, delay, draw)), Transmit(h0.buffer, delay, draw);
            && h.buffer == (if h0.buffer == [] then [] else h0.buffer[1..])
            && h.delivered == h0.delivered + (if o.Delivered? then [Stamp(o.packet, now + delay)] else [])
            && h.lost == h0.lost + (if o.Dropped? then 1 else 0)
  {
  }

  /** The packet a transmission turn would hand over reaches the gateway at least `MinDelay` after it was generated. */
  lemma FrontArrivesLate(name: string, steps: seq<Step>, now: real, delay: real)
    requires Feasible(steps) && CanFollow(steps, now) && MinDelay <= delay
    requires Run(name, steps).buffer != []
    ensures Latency(Stamp(Run(name, steps).buffer[0], now + delay)) >= MinDelay
  {
    BufferedPackets(name, steps);
    assert Run(name, steps).buffer[0] in Run(name, steps).buffer;
  }

  /** Every packet in the list arrived at least `MinDelay` after it was generated. */
  predicate Punctual(received: seq<Packet>) {
    forall i :: 0 <= i < |received| ==> Received(received[i]) && Latency(received[i]) >= MinDelay
  }

  lemma PunctualAppend(received: seq<Packet>, p: Packet)
    requires Punctual(received) && Received(p) && Latency(p) >= MinDelay
    ensures Punctual(received + [p])
  {
  }

  class IoTDevice {
    const name: string
    const dataRate: real
    /** FIFO: the generation process appends, the transmission process pops the front. */
    var dataBuffer: seq<Packet>
    /** The steps both processes have taken, in virtual-time order. */
    ghost var steps: seq<Step>
    /** Lifecycle counters: everything generated, and the replayed history (delivered, lost). */
    ghost var generated: seq<Packet>
    ghost var history: History

    ghost predicate Valid()
      reads this
    {
      && Feasible(steps)
      && generated == Readings(name, steps)
      && history == Run(name, steps)
      && dataBuffer == history.buffer
    }

    constructor (name: string, dataRate: real := DefaultDataRate)
      ensures Valid()
      ensures this.name == name && this.dataRate == dataRate
      ensures dataBuffer == [] && steps == []
      ensures generated == [] && history.delivered == [] && history.lost == 0
    {
      this.name := name;
      this.dataRate := dataRate;
      dataBuffer := [];
      steps := [];
      generated := [];
      history := History([], [], [], 0);
    }

    /** One turn of `generate_data`: append a reading stamped `now`, then ask to sleep `1 / dataRate`. */
    method GenerateDataStep(now: real, value: real) returns (timeout: Result<real, Fault>)
      requires Valid() && CanFollow(steps, now)
      requires MinValue <= value <= MaxValue
      modifies this
      ensures Valid() && steps == old(steps) + [Generate(now, value)]
      ensures dataBuffer == old(dataBuffer) + [Reading(name, now, value)]
      ensures timeout == GenerateTimeout(dataRate)
      ensures generated == old(generated) + [Reading(name, now, value)]
      ensures history.delivered == old(history.delivered) && history.lost == old(history.lost)
      ensures |generated| == |dataBuffer| + |history.delivered| + history.lost
    {
      ghost var s := Generate(now, value);
      FeasibleAppend(steps, s);
      RunAppend(name, steps, s);
      var data := Reading(name, now, value);
      dataBuffer := dataBuffer + [data];
      timeout := GenerateTimeout(dataRate);
      steps, generated, history := steps + [s], generated + [data], Apply(name, history, s);
      RunConserves(name, steps);
    }

    /**
     * One turn of `send_data`. On a non-empty buffer it pops the oldest packet;
     * on a draw above `LossProb` it waits `delay` and hands the packet to
     * `network` at `now + delay`, otherwise it drops it. On an empty buffer it
     * only asks to poll again.
     */
    method SendDataStep(network: IoTNetwork, now: real, delay: real, draw: real)
      returns (outcome: SendOutcome, timeout: Option<real>)
      requires Valid() && CanFollow(steps, now)
      requires MinDelay <= delay <= MaxDelay && 0.0 <= draw < 1.0
      modifies this, network
      ensures Valid() && steps == old(steps) + [Send(now, delay, draw)]
      ensures outcome == Transmit(old(dataBuffer), delay, draw)
      ensures dataBuffer == if old(dataBuffer) == [] then [] else old(dataBuffer)[1..]
      ensures timeout == SendTimeout(outcome)
      ensures network.receivedPackets == old(network.receivedPackets) +
                (if outcome.Delivered? then [Stamp(outcome.packet, now + delay)] else [])
      ensures history.delivered == old(history.delivered) +
                (if outcome.Delivered? then [Stamp(outcome.packet, now + delay)] else [])
      ensures history.lost == old(history.lost) + (if outcome.Dropped? then 1 else 0)
      ensures generated == old(generated)
      ensures |generated| == |dataBuffer| + |history.delivered| + history.lost
      ensures Punctual(old(network.receivedPackets)) ==> Punctual(network.receivedPackets)
    {
      ghost var s := Send(now, delay, draw);
      FeasibleAppend(steps, s);
      RunAppend(name, steps, s);
      ApplySend(name, history, now, delay, draw);
      if dataBuffer != [] {
        FrontArrivesLate(name, steps, now, delay);
        var packet := dataBuffer[0];
        dataBuffer := dataBuffer[1..];
        if draw > LossProb {
          if Punctual(network.receivedPackets) {
            PunctualAppend(network.receivedPackets, Stamp(packet, now + delay));
          }
          network.ReceivePacket(packet, now + delay);
          outcome, timeout := Delivered(packet, delay), Some(delay);
        } else {
          outcome, timeout := Dropped(packet), None;
        }
      } else {
        outcome, timeout := Idle, Some(PollInterval);
      }
      steps, history := steps + [s], Apply(name, history, s);
      RunConserves(name, steps);
    }
  }
}
