/**
 What a read of module Adc amounts to, told by its run: how many samplings it
 takes and keeps, when it ends, and what the timer's expiries come to.
 */
module AdcRuns {
  import opened Adc
  import opened Memory

  /** The history of a run: samplings completed, callback answers that repeat one and that finish the
      read, expiries of the running timer, and whether one of them came while a sampling was in progress
      or being handled. */
  datatype Tally = Tally(taken: nat, repeats: nat, finishes: nat, expiries: nat, late: bool)

  function Count(t: Tally, c: Ctx, e: Event): Tally {
    match e
    case ETimer =>
      if c.timer then t.(expiries := t.expiries + 1, late := t.late || c.sampling || !c.handler.Off?) else t
    case EDone => if c.sampling then t.(taken := t.taken + 1) else t
    case EHandler(Repeat) => if c.handler.Deciding? then t.(repeats := t.repeats + 1) else t
    case EHandler(Finish) => if c.handler.Deciding? then t.(finishes := t.finishes + 1) else t
    case EHandler(Continue) => t
  }

  function CountAll(t: Tally, c: Ctx, es: seq<Event>): Tally
    decreases |es|
  {
    if es == [] then t else CountAll(Count(t, c, es[0]), Step(c, es[0]), es[1..])
  }

  /** How many samplings are asked for. */
  function Total(c: Ctx): nat { 1 + (if c.options then c.extra else 0) }

  predicate Ending(c: Ctx) { c.done || c.handler.Stopping? || c.handler.Completing? }

  /** The buffer holds the samplings kept, one behind the other; the read ends with the last one asked
      for, or when the callback says so. */
  ghost predicate Told(c: Ctx, t: Tally) {
    && t.repeats <= t.taken && c.pos == At(t.taken - t.repeats, c.width) && c.index < Total(c)
    && t.taken - t.repeats == c.index + (if Ending(c) || c.handler.Deciding? then 1 else 0)
    && (t.finishes > 0 ==> Ending(c))
    && (Ending(c) ==> t.finishes > 0 || c.index + 1 == Total(c))
  }

  /** In interval mode the timer runs until the end, each of its expiries is a sampling that was started
      or is still to be, and the status says whether one came too early; otherwise the next sampling
      starts at once. */
  ghost predicate Timed(c: Ctx, t: Tally) {
    && (c.busy <==> t.late)
    && (Going(c) ==> if c.interval then c.timer else c.timer || !c.handler.Off? || c.sampling)
    && (c.interval && Going(c) ==>
          t.expiries == t.taken + c.requested - (if c.handler.Off? then 0 else 1))
  }

  lemma StepTold(c: Ctx, t: Tally, e: Event)
    requires Inv(c) && Told(c, t)
    ensures Told(Step(c, e), Count(t, c, e))
  {
    Product(c.width, c.index);
    Product(c.width, t.taken - t.repeats);
    hide At;
  }

  lemma StepTimed(c: Ctx, t: Tally, e: Event)
    requires Inv(c) && Timed(c, t)
    ensures Timed(Step(c, e), Count(t, c, e))
  {
    hide At;
  }

  lemma {:induction false} RunTold(c: Ctx, t: Tally, es: seq<Event>)
    requires Inv(c) && Told(c, t) && Timed(c, t)
    ensures var c', t' := Run(c, es), CountAll(t, c, es); Inv(c') && Told(c', t') && Timed(c', t') && Same(c, c')
    decreases |es|
  {
    if es != [] {
      StepInv(c, es[0]);
      StepTold(c, t, es[0]);
      StepTimed(c, t, es[0]);
      SameStep(c, es[0]);
      hide Inv, Step, Count, Told, Timed;
      RunTold(Step(c, es[0]), Count(t, c, es[0]), es[1..]);
    }
  }

  ghost predicate Same(c: Ctx, c': Ctx) {
    c'.options == c.options && c'.interval == c.interval && c'.extra == c.extra && c'.width == c.width
  }

  lemma SameStep(c: Ctx, e: Event)
    ensures Same(c, Step(c, e))
  {
    match e
    case ETimer => TimerSame(c);
    case EDone => DoneSame(c);
    case EHandler(action) => HandlerSame(c, action);
  }

  lemma TimerSame(c: Ctx)
    ensures Same(c, TimerExpired(c))
  {
  }

  lemma DoneSame(c: Ctx)
    ensures Same(c, SamplingDone(c))
  {
  }

  lemma HandlerSame(c: Ctx, action: Action)
    ensures Same(c, HandlerStep(c, action))
  {
    hide Same, Proceed, Decide;
    match c.handler
    case Off => Itself(c);
    case Deciding => DecideSame(c, action);
    case Proceeding => ProceedSame(c);
    case Stopping => Updated(c, false, Completing, c.done);
    case Completing => Updated(c, c.timer, Off, true);
  }

  lemma Itself(c: Ctx)
    ensures Same(c, c)
  {
  }

  lemma Updated(c: Ctx, timer: bool, handler: Handler, done: bool)
    ensures Same(c, c.(timer := timer, handler := handler, done := done))
  {
  }

  lemma ProceedSame(c: Ctx)
    ensures Same(c, Proceed(c))
  {
  }

  lemma DecideSame(c: Ctx, action: Action)
    ensures Same(c, Decide(c, action))
  {
    hide Same;
    match action
    case Repeat => Placed(c, c.repeatPos, c.index, Proceeding);
    case Finish => Placed(c, c.pos, c.index, Stopping);
    case Continue =>
      Placed(c, c.pos, c.index + 1, Proceeding);
      Placed(c, c.pos, c.index, Stopping);
  }

  lemma Placed(c: Ctx, pos: nat, index: nat, handler: Handler)
    ensures Same(c, c.(pos := pos, index := index, handler := handler))
  {
  }

  /** Through every run of a read: it has kept the samplings taken but for those repeated, one behind
      the other; it ends exactly when the last one asked for is kept or the callback finishes it, and
      reports a timer that was too fast exactly if an expiry found a sampling in progress or being
      handled. */
  lemma ReadTakesItsSamplings(options: bool, interval: bool, extra: nat, width: nat, room: nat, es: seq<Event>)
    requires At(1 + (if options then extra else 0), width) <= room && (interval ==> options)
    ensures var c0 := StartRead(options, interval, extra, width, room);
            var c, t := Run(c0, es), CountAll(Tally(0, 0, 0, 0, false), c0, es);
            var total := 1 + (if options then extra else 0);
            && t.repeats <= t.taken && t.taken - t.repeats <= total && c.pos == At(t.taken - t.repeats, width)
            && (Ending(c) ==> t.finishes > 0 || t.taken - t.repeats == total)
            && (t.finishes > 0 || (t.taken - t.repeats == total && !c.handler.Deciding?) ==> Ending(c))
            && (c.busy <==> t.late)
            && (interval && Going(c) && c.handler.Off? ==> t.expiries == t.taken + c.requested)
  {
    var c0 := StartRead(options, interval, extra, width, room);
    StartInv(options, interval, extra, width, room);
    StartTold(c0);
    hide StartRead;
    RunTold(c0, Tally(0, 0, 0, 0, false), es);
    hide Run, CountAll, Inv, At;
  }

  lemma StartTold(c: Ctx)
    requires c == StartRead(c.options, c.interval, c.extra, c.width, c.room) && (c.interval ==> c.options)
    ensures Told(c, Tally(0, 0, 0, 0, false)) && Timed(c, Tally(0, 0, 0, 0, false))
  {
    Product(c.width, 0);
  }

  /** A read never gets stuck: until it is done the hardware samples, the handler is at work or the
      timer runs. */
  lemma NeverStuck(options: bool, interval: bool, extra: nat, width: nat, room: nat, es: seq<Event>)
    requires At(1 + (if options then extra else 0), width) <= room && (interval ==> options)
    ensures var c := Run(StartRead(options, interval, extra, width, room), es);
            !c.done ==> c.sampling || !c.handler.Off? || c.timer
  {
    var c0 := StartRead(options, interval, extra, width, room);
    StartInv(options, interval, extra, width, room);
    StartTold(c0);
    hide StartRead;
    RunTold(c0, Tally(0, 0, 0, 0, false), es);
    hide Run, CountAll, Inv, At, Told;
  }
}
