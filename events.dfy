/**
 * The program as the processor sees it: a sequence of atomic events (an edge
 * on one of the two switches, or a watchdog interval tick), each delivered to
 * its service routine only when the hardware would take that interrupt.
 */
module Events {
  import opened Registers
  import opened Handlers

  /**
   * S1Edge: an edge of the polarity WDTNMIES selects on the RST/NMI pin.
   * S2Edge: an edge of the polarity P1IES.3 selects on P1.3.
   * Tick: the watchdog interval expires.
   * An edge of the other polarity latches nothing and is not an event.
   */
  datatype Event = S1Edge | S2Edge | Tick

  /**
   * One event. An edge always latches its interrupt flag; the interrupt is
   * taken only while it is enabled. Taking the NMI clears NMIIE before the
   * handler runs. A tick happens only while the watchdog is running.
   */
  function Step(s: Regs, e: Event): Regs
  {
    match e
    case S2Edge =>
      if Has(s.p1ie, BIT3) then Port1(s.(p1ifg := s.p1ifg + BIT3))
      else s.(p1ifg := s.p1ifg + BIT3)
    case S1Edge =>
      if s.nmiIE then Nmi(s.(nmiIE := false, nmiIFG := true))
      else s.(nmiIFG := true)
    case Tick =>
      if s.wdtArmed then Wdt(s) else s
  }

  /** The state after the events, in order. */
  function Run(s: Regs, evs: seq<Event>): Regs
    decreases |evs|
  {
    if evs == [] then s else Run(Step(s, evs[0]), evs[1..])
  }

  /** n copies of one event. */
  function Repeat(e: Event, n: nat): seq<Event>
  {
    if n == 0 then [] else [e] + Repeat(e, n - 1)
  }

  // ----- Running event sequences -----

  /** Running two sequences one after the other is running their concatenation. */
  lemma {:induction false} RunAppend(s: Regs, a: seq<Event>, b: seq<Event>)
    ensures Run(s, a + b) == Run(Run(s, a), b)
    decreases |a|
  {
    if a == [] {
      assert a + b == b;
    } else {
      assert (a + b)[1..] == a[1..] + b;
      RunAppend(Step(s, a[0]), a[1..], b);
    }
  }

  /** n + 1 copies of an event are n copies followed by one more. */
  lemma {:induction false} RunRepeatLast(s: Regs, e: Event, n: nat)
    ensures Run(s, Repeat(e, n + 1)) == Step(Run(s, Repeat(e, n)), e)
    decreases n
  {
    if n == 0 {
      assert Repeat(e, 1) == [e];
    } else {
      assert Repeat(e, n + 1)[1..] == Repeat(e, n);
      assert Repeat(e, n)[1..] == Repeat(e, n - 1);
      RunRepeatLast(Step(s, e), e, n - 1);
    }
  }

  // ----- What holds in every reachable state -----

  /**
   * Pressed and PressRelease hold only S1 and S2; the S2 edge select expects
   * a falling edge exactly while S2 is not pressed, and the NMI polarity
   * likewise for S1; an edge interrupt is masked only while the watchdog
   * runs, so the tick that unmasks it will come; the P1.3 pull-up stays
   * selected; NormalMode is a phase 0..3 and at most one cycler output is on,
   * the one for the phase before the current one.
   */
  predicate Inv(s: Regs)
  {
    && s.normalMode < 4
    && s.pressed <= S1 + S2
    && s.pressRelease <= S1 + S2
    && (Has(s.p1ies, BIT3) <==> !Has(s.pressed, S2))
    && (s.nmiFalling <==> !Has(s.pressed, S1))
    && (!Has(s.p1ie, BIT3) ==> s.wdtArmed)
    && (!s.nmiIE ==> s.wdtArmed)
    && Has(s.p1out, BIT3)
    && (s.p1out * CycleLeds == {} || s.p1out * CycleLeds == PhaseLed((s.normalMode + 3) % 4))
  }

  lemma InitialInv()
    ensures Inv(Initial())
  {
    assert Initial().p1out * CycleLeds == {};
  }

  lemma Port1Inv(s: Regs)
    requires Inv(s)
    ensures Inv(Port1(s))
  {
    if Has(s.p1ifg, BIT3) {
      if Has(s.p1ies, BIT3) {
        Port1Press(s);
        assert Port1(s).p1out * CycleLeds == s.p1out * CycleLeds;
      } else {
        Port1Release(s);
        CyclesState(s.p1out - PressLeds, s.normalMode, 1);
      }
    }
  }

  lemma NmiInv(s: Regs)
    requires Inv(s.(nmiIE := true)) && s.nmiIFG
    ensures Inv(Nmi(s))
  {
    if s.nmiFalling {
      NmiPress(s);
      assert Nmi(s).p1out * CycleLeds == s.p1out * CycleLeds;
    } else {
      NmiRelease(s);
    }
  }

  lemma WdtInv(s: Regs)
    requires Inv(s)
    ensures Inv(Wdt(s))
  {
    WdtTick(s);
    assert Wdt(s).p1out * CycleLeds == s.p1out * CycleLeds;
  }

  /** Every event keeps the invariant. */
  lemma StepInv(s: Regs, e: Event)
    requires Inv(s)
    ensures Inv(Step(s, e))
  {
    match e
    case S2Edge =>
      if Has(s.p1ie, BIT3) {
        Port1Inv(s.(p1ifg := s.p1ifg + BIT3));
      }
    case S1Edge =>
      if s.nmiIE {
        NmiInv(s.(nmiIE := false, nmiIFG := true));
      }
    case Tick =>
      if s.wdtArmed {
        WdtInv(s);
      }
  }

  lemma {:induction false} RunInv(s: Regs, evs: seq<Event>)
    requires Inv(s)
    ensures Inv(Run(s, evs))
    decreases |evs|
  {
    if evs != [] {
      StepInv(s, evs[0]);
      RunInv(Step(s, evs[0]), evs[1..]);
    }
  }

  /** The invariant holds after any sequence of events from the state main sets up. */
  lemma Reachable(evs: seq<Event>)
    ensures Inv(Run(Initial(), evs))
  {
    InitialInv();
    RunInv(Initial(), evs);
  }

  // ----- Debouncing -----

  /**
   * While P1IE.3 is clear, edges on S2 (bounces) only latch P1IFG.3: no
   * handler runs and nothing else changes.
   */
  lemma {:induction false} S2BouncesLatch(s: Regs, k: nat)
    requires !Has(s.p1ie, BIT3)
    ensures Run(s, Repeat(S2Edge, k)) == if k == 0 then s else s.(p1ifg := s.p1ifg + BIT3)
    decreases k
  {
    if k > 0 {
      assert Repeat(S2Edge, k)[1..] == Repeat(S2Edge, k - 1);
      S2BouncesLatch(Step(s, S2Edge), k - 1);
      assert s.(p1ifg := s.p1ifg + BIT3 + BIT3) == s.(p1ifg := s.p1ifg + BIT3);
    }
  }

  /**
   * While NMIIE is clear, edges on S1 (bounces) only latch NMIIFG: no handler
   * runs and nothing else changes.
   */
  lemma {:induction false} S1BouncesLatch(s: Regs, k: nat)
    requires !s.nmiIE
    ensures Run(s, Repeat(S1Edge, k)) == if k == 0 then s else s.(nmiIFG := true)
    decreases k
  {
    if k > 0 {
      assert Repeat(S1Edge, k)[1..] == Repeat(S1Edge, k - 1);
      S1BouncesLatch(Step(s, S1Edge), k - 1);
    }
  }

  /**
   * The bounces that follow a taken S2 edge until the next tick have no
   * effect at all: the first tick discards the flag they latched.
   */
  lemma S2Debounce(s: Regs, k: nat)
    requires Has(s.p1ie, BIT3)
    ensures Run(s, [S2Edge] + Repeat(S2Edge, k) + [Tick]) == Run(s, [S2Edge, Tick])
  {
    var s1 := Step(s, S2Edge);
    assert !Has(s1.p1ie, BIT3) && s1.wdtArmed;
    RunAppend(s, [S2Edge] + Repeat(S2Edge, k), [Tick]);
    RunAppend(s, [S2Edge], Repeat(S2Edge, k));
    S2BouncesLatch(s1, k);
    assert Run(s, [S2Edge]) == s1;
    assert [S2Edge, Tick][1..] == [Tick];
    assert Wdt(s1.(p1ifg := s1.p1ifg + BIT3)) == Wdt(s1);
  }

  /**
   * The bounces that follow a taken S1 edge until the next tick have no
   * effect at all: the first tick discards the flag they latched.
   */
  lemma S1Debounce(s: Regs, k: nat)
    requires s.nmiIE
    ensures Run(s, [S1Edge] + Repeat(S1Edge, k) + [Tick]) == Run(s, [S1Edge, Tick])
  {
    var s1 := Step(s, S1Edge);
    assert !s1.nmiIE && s1.wdtArmed;
    RunAppend(s, [S1Edge] + Repeat(S1Edge, k), [Tick]);
    RunAppend(s, [S1Edge], Repeat(S1Edge, k));
    S1BouncesLatch(s1, k);
    assert Run(s, [S1Edge]) == s1;
    assert [S1Edge, Tick][1..] == [Tick];
    assert Wdt(s1.(nmiIFG := true)) == Wdt(s1);
  }

  // ----- Timing a press -----

  /**
   * n ticks of a running watchdog add n (modulo 256) to the counter of each
   * pressed switch, leave the other counters, Pressed, PressRelease, the mode,
   * the edge selects and every output but P1.0 and P1.6 alone, and (from the
   * first tick on) leave both edge interrupts enabled with no flag pending.
   */
  lemma {:induction false} TicksCount(s: Regs, n: nat)
    requires s.wdtArmed
    ensures var r := Run(s, Repeat(Tick, n));
      && r.pressCountS1 as int == (s.pressCountS1 as int + if Has(s.pressed, S1) then n else 0) % 256
      && r.pressCountS2 as int == (s.pressCountS2 as int + if Has(s.pressed, S2) then n else 0) % 256
      && r.pressed == s.pressed && r.pressRelease == s.pressRelease
      && r.normalMode == s.normalMode && r.p1ies == s.p1ies && r.nmiFalling == s.nmiFalling
      && r.wdtArmed && s.p1out <= r.p1out && r.p1out - PressLeds == s.p1out - PressLeds
      && (n > 0 ==> r.nmiIE && Has(r.p1ie, BIT3) && !r.nmiIFG && !Has(r.p1ifg, BIT3))
    decreases n
  {
    if n > 0 {
      var prev := Run(s, Repeat(Tick, n - 1));
      TicksCount(s, n - 1);
      RunRepeatLast(s, Tick, n - 1);
      assert Run(s, Repeat(Tick, n)) == Wdt(prev);
      WdtTick(prev);
    }
  }

  /**
   * A long press of S2: from a count below 47 with P1.6 off, P1.6 is on after
   * n ticks exactly when the count has reached 47, and stays on after that.
   */
  lemma {:induction false} LongPressS2(s: Regs, n: nat)
    requires s.wdtArmed && Has(s.pressed, S2) && s.pressCountS2 < TIMEHOLD
    requires !Has(s.p1out, BIT6)
    ensures Has(Run(s, Repeat(Tick, n)).p1out, BIT6) <==> s.pressCountS2 as int + n >= TIMEHOLD as int
    decreases n
  {
    if n > 0 {
      LongPressS2(s, n - 1);
      TicksCount(s, n - 1);
      RunRepeatLast(s, Tick, n - 1);
      WdtTick(Run(s, Repeat(Tick, n - 1)));
    }
  }

  /**
   * A long press of S1: from a count below 47 with P1.0 off, P1.0 is on after
   * n ticks exactly when the count has reached 47, and stays on after that.
   */
  lemma {:induction false} LongPressS1(s: Regs, n: nat)
    requires s.wdtArmed && Has(s.pressed, S1) && s.pressCountS1 < TIMEHOLD
    requires !Has(s.p1out, BIT0)
    ensures Has(Run(s, Repeat(Tick, n)).p1out, BIT0) <==> s.pressCountS1 as int + n >= TIMEHOLD as int
    decreases n
  {
    if n > 0 {
      LongPressS1(s, n - 1);
      TicksCount(s, n - 1);
      RunRepeatLast(s, Tick, n - 1);
      WdtTick(Run(s, Repeat(Tick, n - 1)));
    }
  }

  // ----- A press followed by a release -----

  /** Running a + b + c is running a, then b, then c. */
  lemma RunThree(s: Regs, a: seq<Event>, b: seq<Event>, c: seq<Event>)
    ensures Run(s, a + b + c) == Run(Run(Run(s, a), b), c)
  {
    RunAppend(s, a + b, c);
    RunAppend(s, a, b);
  }

  /** Running one event is taking one step. */
  lemma RunSingle(s: Regs, e: Event)
    ensures Run(s, [e]) == Step(s, e)
  {
    assert [e][1..] == [];
  }

  /**
   * A debounced press and release of S2 (at least one tick in between): S2
   * ends up released and recorded in PressRelease, P1.0 and P1.6 are off, the
   * cycler has advanced exactly once and lit the output of the old phase, no
   * other output changed, and P1.3 again expects a falling edge once the
   * watchdog unmasks it.
   */
  lemma S2PressRelease(s: Regs, n: nat)
    requires Inv(s) && Has(s.p1ie, BIT3) && !Has(s.pressed, S2) && n > 0
    ensures var r := Run(s, [S2Edge] + Repeat(Tick, n) + [S2Edge]);
      && r.pressed == s.pressed && Has(r.pressRelease, S2)
      && r.p1out * PressLeds == {}
      && r.p1out - (PressLeds + CycleLeds) == s.p1out - (PressLeds + CycleLeds)
      && r.normalMode == NextMode(s.normalMode)
      && r.p1out * CycleLeds == PhaseLed(s.normalMode)
      && Has(r.p1ies, BIT3) && !Has(r.p1ie, BIT3) && r.wdtArmed
  {
    RunThree(s, [S2Edge], Repeat(Tick, n), [S2Edge]);
    RunSingle(s, S2Edge);
    var s0 := s.(p1ifg := s.p1ifg + BIT3);
    Port1Press(s0);
    var s1 := Port1(s0);
    assert Run(s, [S2Edge]) == s1;
    TicksCount(s1, n);
    var s2 := Run(s1, Repeat(Tick, n));
    RunSingle(s2, S2Edge);
    var s3 := s2.(p1ifg := s2.p1ifg + BIT3);
    Port1Release(s3);
    CyclesState(s3.p1out - PressLeds, s3.normalMode, 1);
    assert Run(s2, [S2Edge]) == Port1(s3);
  }

  /**
   * A debounced press and release of S1: S1 ends up released and recorded in
   * PressRelease and the NMI again expects a falling edge, but P1.6, lit by
   * the press, is still on: the release branch turns no LED off.
   */
  lemma S1PressRelease(s: Regs, n: nat)
    requires Inv(s) && s.nmiIE && !Has(s.pressed, S1) && n > 0
    ensures var r := Run(s, [S1Edge] + Repeat(Tick, n) + [S1Edge]);
      && r.pressed == s.pressed && Has(r.pressRelease, S1)
      && Has(r.p1out, BIT6) && s.p1out <= r.p1out
      && r.normalMode == s.normalMode
      && r.nmiFalling && !r.nmiIE && r.wdtArmed
  {
    RunThree(s, [S1Edge], Repeat(Tick, n), [S1Edge]);
    RunSingle(s, S1Edge);
    var s0 := s.(nmiIE := false, nmiIFG := true);
    NmiPress(s0);
    var s1 := Nmi(s0);
    assert Run(s, [S1Edge]) == s1;
    TicksCount(s1, n);
    var s2 := Run(s1, Repeat(Tick, n));
    RunSingle(s2, S1Edge);
    var s3 := s2.(nmiIE := false, nmiIFG := true);
    NmiRelease(s3);
    assert Run(s2, [S1Edge]) == Nmi(s3);
  }
}
