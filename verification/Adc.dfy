/**
 ADC reads: the sampling protocol of drivers/adc/adc_context.h, in which a
 timer and the end of a sampling race on a counter, and the buffer arithmetic
 of drivers/adc/adc_mchp_xec.c.
 */
module Adc {
  import opened Bitmasks
  import opened Lists
  import opened Memory
  import opened Wrappers

  const CHANNELS := 8  // channel_read_reg has eight registers

  /** How many of the channels below k are selected. */
  function Selected(mask: bv32, k: nat): nat {
    if k == 0 then 0 else Selected(mask, k - 1) + One(Has(mask, k - 1))
  }

  /** The readings of the selected channels below k, lowest channel first. */
  function Samples(mask: bv32, regs: seq<nat>, k: nat): (s: seq<nat>)
    requires k <= |regs|
    ensures |s| == Selected(mask, k)
  {
    if k == 0 then []
    else
      var s := Samples(mask, regs, k - 1);
      if Has(mask, k - 1) then s + [regs[k - 1] % 0x1_0000] else s
  }

  /** adc_xec_validate_buffer_size; extra is None for a sequence without options. */
  method ValidateBufferSize(channels: bv32, extra: Option<nat>, bufferSize: nat) returns (ok: bool)
    ensures ok <==> 2 * Selected(channels, CHANNELS) * (if extra.Some? then 1 + extra.value else 1) <= bufferSize
  {
    var count := 0;
    var k := CHANNELS;
    while k > 0
      invariant 0 <= k <= CHANNELS && count + Selected(channels, k) == Selected(channels, CHANNELS)
    {
      if Has(channels, k - 1) {
        count := count + 1;
      }
      k := k - 1;
    }
    var need := count * 2;
    if extra.Some? {
      need := need * (1 + extra.value);
    }
    ok := need <= bufferSize;
  }

  lemma {:induction false} SamplesSkip(mask: bv32, regs: seq<nat>, k: nat, n: nat)
    requires k <= n <= |regs| && forall p :: k <= p < n ==> !Has(mask, p)
    ensures Samples(mask, regs, n) == Samples(mask, regs, k)
  {
    if k < n {
      SamplesSkip(mask, regs, k, n - 1);
    }
  }

  lemma SamplesNext(mask: bv32, regs: seq<nat>, k: nat, idx: nat)
    requires k <= idx < |regs| && Has(mask, idx) && forall p :: k <= p < idx ==> !Has(mask, p)
    ensures Samples(mask, regs, idx + 1) == Samples(mask, regs, k) + [regs[idx] % 0x1_0000]
    ensures Selected(mask, idx + 1) == Selected(mask, k) + 1 <= Selected(mask, |regs|)
  {
    SamplesSkip(mask, regs, k, idx);
    MoreSelected(mask, idx + 1, |regs|);
  }

  /** Clearing the lowest remaining bit. */
  lemma LowestCleared(status: bv32, channels: bv32, k: nat, idx: nat)
    requires k <= idx < 32 && Has(channels, idx) && forall p :: 0 <= p < idx ==> !Has(channels, p)
    requires forall p :: 0 <= p < 32 ==> (Has(channels, p) <==> k <= p && Has(status, p))
    ensures forall p :: 0 <= p < 32 ==> (Has(Without(channels, Bit(idx)), p) <==> idx + 1 <= p && Has(status, p))
    ensures forall p :: k <= p < idx ==> !Has(status, p)
  {
    hide Has, Bit, Without;
    forall p | 0 <= p < 32
      ensures Has(Without(channels, Bit(idx)), p) <==> idx + 1 <= p && Has(status, p)
    {
      Setting(channels, idx, p);
    }
    assert forall p :: k <= p < idx ==> !Has(channels, p);
  }

  /** xec_adc_get_sample: copies the readings of the channels the hardware reports to the buffer. */
  method GetSample(status: bv32, regs: seq<nat>, buffer: array<nat>, at: nat) returns (next: nat)
    requires |regs| == CHANNELS && (forall p :: CHANNELS <= p < 32 ==> !Has(status, p))
    requires at + Selected(status, CHANNELS) <= buffer.Length
    modifies buffer
    ensures next == at + Selected(status, CHANNELS)
    ensures buffer[..] == old(buffer[..at]) + Samples(status, regs, CHANNELS) + old(buffer[next..])
  {
    hide Has, Bit, Without, Samples, Selected;
    var channels := status;
    ghost var k := 0;
    next := at;
    NonzeroHas(channels);
    NoSamples(status, regs);
    while channels != 0
      invariant 0 <= k <= CHANNELS && next == at + Selected(status, k) <= buffer.Length
      invariant forall p :: 0 <= p < 32 ==> (Has(channels, p) <==> k <= p && Has(status, p))
      invariant channels != 0 <==> exists p :: 0 <= p < 32 && Has(channels, p)
      invariant buffer[..next] == old(buffer[..at]) + Samples(status, regs, k)
      invariant forall j :: next <= j < buffer.Length ==> buffer[j] == old(buffer[j])
      decreases CHANNELS - k
    {
      var idx := CountTrailingZeros(channels);
      LowestCleared(status, channels, k, idx);
      SamplesNext(status, regs, k, idx);
      buffer[next] := regs[idx] % 0x1_0000;
      assert buffer[..next + 1] == buffer[..next] + [buffer[next]];
      next := next + 1;
      channels := Without(channels, Bit(idx));
      NonzeroHas(channels);
      k := idx + 1;
    }
    SamplesSkip(status, regs, k, CHANNELS);
    assert buffer[..] == buffer[..next] + buffer[next..];
  }

  lemma NoSamples(mask: bv32, regs: seq<nat>)
    ensures Samples(mask, regs, 0) == [] && Selected(mask, 0) == 0
  {
  }

  lemma {:induction false} MoreSelected(mask: bv32, k: nat, n: nat)
    requires k <= n
    ensures Selected(mask, k) <= Selected(mask, n)
  {
    if k < n {
      MoreSelected(mask, k, n - 1);
    }
  }

  // ---------------------------------------------------------------- the sampling protocol

  /** Where the handler of a finished sampling is. */
  datatype Handler =
    | Off
    | Deciding      // about to ask the callback
    | Proceeding    // about to see whether the next sampling starts now
    | Stopping      // about to stop the timer
    | Completing    // about to report the end

  datatype Action = Continue | Repeat | Finish

  datatype Ctx = Ctx(
    options: bool,       // the sequence has options
    interval: bool,      // ... with a nonzero interval
    extra: nat,          // ... and that many extra samplings
    width: nat,          // readings per sampling
    room: nat,           // readings the buffer holds
    timer: bool,         // the timer runs
    requested: nat,      // sampling_requested
    sampling: bool,      // the hardware is at work
    handler: Handler,
    index: nat,          // sampling_index
    pos: nat,            // where the next reading goes
    repeatPos: nat,      // where the last sampling began
    busy: bool,          // status is -EBUSY
    done: bool,
    overlapped: bool,    // history: a sampling was started while one was in progress
    overrun: bool)       // history: a reading was written beyond the buffer

  /** The driver's adc_context_start_sampling. */
  function StartSampling(c: Ctx): Ctx {
    c.(repeatPos := c.pos, sampling := true, overlapped := c.overlapped || c.sampling)
  }

  /** adc_context_start_read. */
  function StartRead(options: bool, interval: bool, extra: nat, width: nat, room: nat): Ctx {
    var c := Ctx(options, interval, extra, width, room, false, 0, false, Off, 0, 0, 0, false, false, false, false);
    if options && interval then c.(timer := true) else StartSampling(c)
  }

  /** adc_context_request_next_sampling, when the timer expires. */
  function TimerExpired(c: Ctx): Ctx {
    if !c.timer then c
    else if c.requested == 0 then StartSampling(c.(requested := 1))
    else c.(requested := c.requested + 1, busy := true)
  }

  /** The interrupt at the end of a sampling stores the readings and enters the handler. */
  function SamplingDone(c: Ctx): Ctx {
    if !c.sampling || !c.handler.Off? then c
    else c.(sampling := false, overrun := c.overrun || c.pos + c.width > c.room, pos := c.pos + c.width,
            handler := if c.options then Deciding else Completing)
  }

  function Decide(c: Ctx, action: Action): Ctx {
    match action
    case Repeat => c.(pos := c.repeatPos, handler := Proceeding)
    case Finish => c.(handler := Stopping)
    case Continue =>
      if c.index < c.extra then c.(index := c.index + 1, handler := Proceeding) else c.(handler := Stopping)
  }

  function Proceed(c: Ctx): Ctx {
    var c1 := c.(handler := Off);
    if !c.interval then StartSampling(c1)
    else
      var c2 := c1.(requested := if c.requested > 0 then c.requested - 1 else 0);
      if c.requested > 1 then StartSampling(c2) else c2
  }

  /** The next step of adc_context_on_sampling_done; the callback's answer counts where it is asked. */
  function HandlerStep(c: Ctx, action: Action): Ctx {
    match c.handler
    case Off => c
    case Deciding => Decide(c, action)
    case Proceeding => Proceed(c)
    case Stopping => c.(timer := false, handler := Completing)
    case Completing => c.(done := true, handler := Off)
  }

  datatype Event = ETimer | EDone | EHandler(action: Action)

  function Step(c: Ctx, e: Event): Ctx {
    match e
    case ETimer => TimerExpired(c)
    case EDone => SamplingDone(c)
    case EHandler(action) => HandlerStep(c, action)
  }

  function Run(c: Ctx, es: seq<Event>): Ctx
    decreases |es|
  {
    if es == [] then c else Run(Step(c, es[0]), es[1..])
  }

  /** The part of a read in which further samplings may come. */
  predicate Going(c: Ctx) { !c.done && !c.handler.Stopping? && !c.handler.Completing? }

  ghost predicate Inv(c: Ctx) {
    && !c.overlapped && !c.overrun && c.index <= (if c.options then c.extra else 0)
    && At(1 + (if c.options then c.extra else 0), c.width) <= c.room && (c.interval ==> c.options)
    && (c.timer ==> c.interval && !c.done && !c.handler.Completing?) && (c.sampling ==> c.handler.Off? && !c.done)
    && (c.handler.Deciding? || c.handler.Proceeding? || c.handler.Stopping? ==> c.options && !c.done)
    && (c.done ==> c.handler.Off?)
    && (Going(c) && !c.handler.Deciding? ==> c.pos == At(c.index, c.width))
    && (c.sampling ==> c.repeatPos == c.pos)
    && (c.handler.Deciding? ==> c.repeatPos == At(c.index, c.width) && c.pos == At(c.index + 1, c.width))
    && (c.interval && Going(c) ==> (c.requested > 0 <==> c.sampling || !c.handler.Off?))
    && (c.handler.Stopping? && c.interval ==> c.requested > 0)
  }

  lemma StartInv(options: bool, interval: bool, extra: nat, width: nat, room: nat)
    requires At(1 + (if options then extra else 0), width) <= room && (interval ==> options)
    ensures Inv(StartRead(options, interval, extra, width, room))
  {
    Product(width, 0);
    hide At;
  }

  lemma StepInv(c: Ctx, e: Event)
    requires Inv(c)
    ensures Inv(Step(c, e))
  {
    Product(c.width, c.index);
    Below(c.width, c.index + 1, 1 + (if c.options then c.extra else 0));
    hide At;
  }

  /** Through every interleaving of timer expiries, completions and callback
      decisions: one sampling at a time, and every reading within the buffer. */
  lemma {:induction false} EveryRun(c: Ctx, es: seq<Event>)
    requires Inv(c)
    ensures Inv(Run(c, es))
    decreases |es|
  {
    if es != [] {
      StepInv(c, es[0]);
      hide Inv, Step;
      EveryRun(Step(c, es[0]), es[1..]);
    }
  }

  /** A read that passed the buffer check never writes beyond the buffer, never
      samples twice at once, and in interval mode the counter is positive exactly
      while a sampling is in progress or being handled. */
  lemma ReadIsSafe(channels: bv32, options: bool, interval: bool, extra: nat, bufferSize: nat, es: seq<Event>)
    requires 2 * Selected(channels, CHANNELS) * (if options then 1 + extra else 1) <= bufferSize
    requires (interval ==> options)
    ensures var c := Run(StartRead(options, interval, extra, Selected(channels, CHANNELS), bufferSize / 2), es);
            && !c.overlapped && !c.overrun
            && (c.interval && Going(c) ==> (c.requested > 0 <==> c.sampling || !c.handler.Off?))
  {
    var n := Selected(channels, CHANNELS);
    var k := if options then 1 + extra else 1;
    assert 2 * n * k == 2 * (k * n);
    StartInv(options, interval, extra, n, bufferSize / 2);
    EveryRun(StartRead(options, interval, extra, n, bufferSize / 2), es);
    hide Run, StartRead;
  }
}
