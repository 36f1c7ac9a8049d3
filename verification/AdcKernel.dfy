/**
 The code of drivers/adc/adc_context.h with the buffer it fills, its handler cut
 where the timer may interrupt it: every reading goes inside the buffer, and the
 buffer holds the readings of the accepted samplings, one after the other.
 */
module AdcKernel {
  import opened Adc
  import opened Bitmasks
  import opened Memory
  import opened WaitQueues

  function Flat(rows: seq<seq<nat>>): seq<nat> {
    if rows == [] then [] else Flat(rows[..|rows| - 1]) + rows[|rows| - 1]
  }

  predicate Regular(rows: seq<seq<nat>>, width: nat) { forall r :: r in rows ==> |r| == width }

  lemma FlatOne(rows: seq<seq<nat>>, row: seq<nat>, width: nat)
    ensures Flat(rows + [row]) == Flat(rows) + row
    ensures Regular(rows + [row], width) <==> Regular(rows, width) && |row| == width
  {
    assert forall r :: r in rows + [row] <==> r in rows || r == row;
    assert (rows + [row])[..|rows|] == rows;
  }

  /** Only channels there are. */
  predicate Eight(channels: bv32) { forall p :: CHANNELS <= p < 32 ==> !Has(channels, p) }

  /** The samplings that stand: one more when one ends, one less when the callback wants it again. */
  function Accepted(c: Ctx, rows: seq<seq<nat>>, e: Event, row: seq<nat>): seq<seq<nat>> {
    if e.EDone? && c.sampling && c.handler.Off? then rows + [row]
    else if e == EHandler(Repeat) && c.handler.Deciding? && rows != [] then rows[..|rows| - 1]
    else rows
  }

  lemma TakeTwo<T>(s: seq<T>, a: seq<T>, b: seq<T>, c: seq<T>)
    requires s == a + b + c
    ensures s[..|a| + |b|] == a + b
  {
  }

  lemma Within<T>(s: seq<T>, n: nat, i: nat, j: nat)
    requires i <= j <= n <= |s|
    ensures s[..n][i..j] == s[i..j]
  {
  }

  lemma PlaceOf(buf: seq<nat>, n: nat, rows: seq<seq<nat>>, width: nat, k: nat)
    requires n <= |buf| && buf[..n] == Flat(rows) && Regular(rows, width) && k < |rows|
    ensures At(k, width) <= At(k + 1, width) <= |buf| && buf[At(k, width)..At(k + 1, width)] == rows[k]
  {
    FlatWidth(rows, width, k);
    Product(width, k);
    hide At, Flat, Regular;
    Within(buf, n, At(k, width), At(k + 1, width));
  }

  class AdcContext {
    const channels: bv32
    const options: bool
    const interval: bool
    const extra: nat
    const buffer: array<nat>
    var timer: bool
    var requested: nat
    var sampling: bool
    var handler: Handler
    var index: nat
    var pos: nat
    var repeatPos: nat
    var busy: bool
    var done: bool
    ghost var overlapped: bool
    ghost var rows: seq<seq<nat>>

    ghost function Width(): nat { Selected(channels, CHANNELS) }

    ghost function View(): Ctx reads this {
      Ctx(options, interval, extra, Width(), buffer.Length, timer, requested, sampling, handler, index, pos, repeatPos,
          busy, done, overlapped, false)
    }

    /** What has been stored up to the buffer pointer is the samplings that stand: those
        before the current one and, once that is finished and not repeated, that one too. */
    ghost predicate Stored() reads this, buffer {
      && pos <= buffer.Length && buffer[..pos] == Flat(rows) && Regular(rows, Width())
      && |rows| == index + (if !done && (handler.Off? || handler.Proceeding?) then 0 else 1)
    }

    ghost predicate Valid() reads this, buffer {
      Adc.Inv(View()) && Stored() && Eight(channels)
    }

    /** adc_context_start_read. */
    constructor (channels: bv32, options: bool, interval: bool, extra: nat, buffer: array<nat>)
      requires At(1 + (if options then extra else 0), Selected(channels, CHANNELS)) <= buffer.Length
      requires (interval ==> options)
      requires Eight(channels)
      ensures this.channels == channels && this.buffer == buffer && rows == [] && Valid()
      ensures View() == StartRead(options, interval, extra, Selected(channels, CHANNELS), buffer.Length)
    {
      this.channels, this.options, this.interval, this.extra, this.buffer := channels, options, interval, extra, buffer;
      timer, requested, handler, index, pos, repeatPos := options && interval, 0, Off, 0, 0, 0;
      sampling, busy, done, overlapped, rows := !(options && interval), false, false, false, [];
      new;
      StartInv(options, interval, extra, Selected(channels, CHANNELS), buffer.Length);
    }

    method StartSampling()
      modifies this`repeatPos, this`sampling, this`overlapped
      ensures View() == Adc.StartSampling(old(View()))
    {
      overlapped := overlapped || sampling;
      repeatPos, sampling := pos, true;
    }

    /** adc_context_request_next_sampling. */
    method RequestNextSampling()
      modifies this`requested, this`busy, this`repeatPos, this`sampling, this`overlapped
      requires timer
      ensures View() == TimerExpired(old(View()))
    {
      requested := requested + 1;
      if requested == 1 {
        StartSampling();
      } else {
        busy := true;
      }
    }

    /** The readings go to the buffer pointer; behind what stands they make one more sampling. */
    method StoreReadings(regs: seq<nat>) returns (next: nat)
      requires Stored() && pos + Width() <= buffer.Length && Eight(channels) && |regs| == CHANNELS
      modifies buffer
      ensures next == pos + Width() && buffer[..next] == Flat(rows + [Samples(channels, regs, CHANNELS)])
      ensures Regular(rows + [Samples(channels, regs, CHANNELS)], Width())
      ensures buffer[..] == old(buffer[..pos]) + Samples(channels, regs, CHANNELS) + old(buffer[pos + Width()..])
    {
      ghost var row := Samples(channels, regs, CHANNELS);
      ghost var before := buffer[..];
      FlatOne(rows, row, Width());
      hide Has, Selected, Samples, Flat, Regular;
      next := GetSample(channels, regs, buffer, pos);
      TakeTwo(buffer[..], before[..pos], row, before[next..]);
      assert buffer[..next] == buffer[..][..next];
    }

    /** The interrupt at the end of a sampling: the readings are stored, all inside the buffer. */
    method SamplingInterrupt(regs: seq<nat>)
      requires Valid() && sampling && handler.Off? && |regs| == CHANNELS
      modifies this, buffer
      ensures Stored() && View() == SamplingDone(old(View())) && rows == old(rows) + [Samples(channels, regs, CHANNELS)]
    {
      hide Adc.Inv, Eight, Selected, Samples, Flat, Regular;
      Room(View());
      ghost var row := Samples(channels, regs, CHANNELS);
      var next := StoreReadings(regs);
      sampling, pos := false, next;
      handler := if options then Deciding else Completing;
      rows := rows + [row];
    }

    /** The sampling is wanted again: back to where it began. */
    method GoBack()
      requires Stored() && handler.Deciding? && repeatPos + Width() == pos
      modifies this`pos, this`rows
      ensures pos == repeatPos && pos <= buffer.Length && buffer[..pos] == Flat(rows) && Regular(rows, Width())
      ensures old(|rows|) > 0 && rows == old(rows[..|rows| - 1])
    {
      ghost var init, row := rows[..|rows| - 1], rows[|rows| - 1];
      assert rows == init + [row];
      FlatOne(init, row, Width());
      hide Selected, Flat, Regular;
      assert buffer[..repeatPos] == buffer[..pos][..repeatPos];
      pos := repeatPos;
      rows := init;
    }

    /** The callback's answer, and adc_context_update_buffer_pointer. */
    method AskCallback(action: Action)
      requires Valid() && handler.Deciding?
      modifies this
      ensures Stored() && View() == Adc.Decide(old(View()), action)
      ensures rows == Accepted(old(View()), old(rows), EHandler(action), [])
    {
      hide Adc.Inv, Eight, Selected, Flat, Regular;
      OneBack(View());
      var finish, repeat := false, false;
      match action {
        case Repeat => repeat := true;
        case Finish => finish := true;
        case Continue =>
          if index < extra {
            index := index + 1;
          } else {
            finish := true;
          }
      }
      if finish {
        handler := Stopping;
        return;
      }
      if repeat {
        GoBack();
      }
      handler := Proceeding;
    }

    /** Whether the next sampling starts at once. */
    method MoveOn()
      requires handler.Proceeding? && (interval ==> requested > 0)
      modifies this`handler, this`requested, this`repeatPos, this`sampling, this`overlapped
      ensures View() == Proceed(old(View()))
    {
      handler := Off;
      if !interval {
        StartSampling();
        return;
      }
      requested := requested - 1;
      if requested > 0 {
        StartSampling();
      }
    }

    /** Whatever comes next, a tick of the timer, the end of a sampling or the next
        part of the handler; regs is what the hardware has read. */
    method Execute(e: Event, regs: seq<nat>)
      requires Valid() && |regs| == CHANNELS
      modifies this, buffer
      ensures Valid() && View() == Step(old(View()), e)
      ensures rows == Accepted(old(View()), old(rows), e, Samples(channels, regs, CHANNELS))
      ensures e.EDone? || buffer[..] == old(buffer[..])
    {
      StepInv(View(), e);
      Counted(View());
      hide Has, Selected, Samples, Flat;
      match e {
        case ETimer => if timer { RequestNextSampling(); }
        case EDone => if sampling && handler.Off? { NoOverrun(View()); SamplingInterrupt(regs); }
        case EHandler(action) =>
          match handler {
            case Off =>
            case Deciding => AskCallback(action);
            case Proceeding => MoveOn();
            case Stopping => timer, handler := false, Completing;
            case Completing => done, handler := true, Off;
          }
      }
    }

    /** So when the read is done every sampling up to the last is in the buffer, at its place. */
    lemma ReadComplete(k: nat)
      requires Valid() && done && k <= index
      ensures At(k, Width()) <= At(k + 1, Width()) <= buffer.Length
      ensures buffer[..][At(k, Width())..At(k + 1, Width())] == rows[k]
      ensures |rows| == index + 1
    {
      hide Adc.Inv, Eight, Selected, Flat, Regular, At;
      assert buffer[..pos] == buffer[..][..pos];
      PlaceOf(buffer[..], pos, rows, Width(), k);
    }
  }

  /** While a sampling is in progress there is room for its readings. */
  lemma Room(c: Ctx)
    requires Adc.Inv(c) && c.sampling
    ensures c.pos + c.width <= c.room && !c.done
  {
    Product(c.width, c.index);
    Below(c.width, c.index + 1, 1 + (if c.options then c.extra else 0));
    hide At;
  }

  lemma NoOverrun(c: Ctx)
    requires Adc.Inv(c) && c.sampling && c.handler.Off? && !c.overrun
    ensures !SamplingDone(c).overrun
  {
    Room(c);
    hide Adc.Inv;
  }

  lemma OneBack(c: Ctx)
    requires Adc.Inv(c) && c.handler.Deciding?
    ensures c.repeatPos + c.width == c.pos && !c.done && c.options
  {
    Product(c.width, c.index);
    hide At;
  }

  lemma Counted(c: Ctx)
    requires Adc.Inv(c)
    ensures c.handler.Proceeding? && c.interval ==> c.requested > 0
  {
  }

  /** The readings of sampling k begin where slot k of that width does. */
  lemma {:induction false} FlatWidth(rows: seq<seq<nat>>, width: nat, k: nat)
    requires k < |rows| && Regular(rows, width)
    ensures |Flat(rows)| == At(|rows|, width) && At(k + 1, width) <= |Flat(rows)|
    ensures Flat(rows)[At(k, width)..At(k + 1, width)] == rows[k]
    decreases |rows|
  {
    var n := |rows| - 1;
    var init, last := rows[..n], rows[n];
    Product(width, n);
    assert last in rows && forall r :: r in init ==> r in rows;
    hide At;
    if k < n {
      FlatWidth(init, width, k);
      Below(width, k + 1, n);
      Product(width, k);
      Within(Flat(rows), |Flat(init)|, At(k, width), At(k + 1, width));
      assert Flat(rows)[..|Flat(init)|] == Flat(init);
    } else if n > 0 {
      FlatWidth(init, width, 0);
    } else {
      assert init == [];
      Product(width, 0);
    }
  }
}
