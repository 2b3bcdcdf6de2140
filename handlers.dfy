/**
 * Reference definitions of the program's routines as functions from the state
 * before a call to the state after it, and what each routine does, as lemmas.
 * The `Launchpad` class executes the same routines statement by statement and
 * is proved to agree with these functions.
 */
module Handlers {
  import opened Registers

  /**
   * The state `main` leaves before it sleeps: P1.0 and P1.6 on, the P1.3
   * pull-up selected (P1OUT bit 3), a falling edge expected on both switches,
   * both edge interrupts enabled and the watchdog held.
   */
  function Initial(): Regs
  {
    Regs(p1out := BIT0 + BIT6 + BIT3, p1ie := BIT3, p1ies := BIT3, p1ifg := {},
         nmiIE := true, nmiIFG := false, wdtArmed := false, nmiFalling := true,
         pressed := {}, pressRelease := {}, pressCountS1 := 0, pressCountS2 := 0,
         normalMode := 0)
  }

  // ----- OperateNormalNormalMode -----

  /** P1OUT after OperateNormalNormalMode, given P1OUT and NormalMode before it. */
  function CycleOut(p1out: Byte, mode: uint8): Byte
  {
    if mode == 0 then (p1out - CycleLeds) + BIT1
    else if mode == 1 then (p1out - CycleLeds) + BIT2
    else if mode == 2 then (p1out - CycleLeds) + BIT4
    else if mode == 3 then (p1out - CycleLeds) + BIT5
    else p1out
  }

  /** NormalMode after OperateNormalNormalMode. */
  function NextMode(mode: uint8): uint8
  {
    if mode == 0 then 1
    else if mode == 1 then 2
    else if mode == 2 then 3
    else if mode == 3 then 0
    else mode
  }

  /** P1OUT and NormalMode after n consecutive runs of the cycler. */
  function Cycles(p1out: Byte, mode: uint8, n: nat): (Byte, uint8)
  {
    if n == 0 then (p1out, mode)
    else
      var prev := Cycles(p1out, mode, n - 1);
      (CycleOut(prev.0, prev.1), NextMode(prev.1))
  }

  // ----- PORT1_ISR, nmi_isr, wdt_isr -----

  /**
   * PORT1_ISR: acts only when the P1.3 flag is pending; a set edge-select bit
   * means a falling edge (a press), a clear one a rising edge (a release).
   */
  function Port1(s: Regs): Regs
  {
    if !Has(s.p1ifg, BIT3) then
      s
    else if Has(s.p1ies, BIT3) then
      s.(p1ie := s.p1ie - BIT3, p1ifg := s.p1ifg - BIT3,
         p1out := s.p1out + BIT0, pressed := s.pressed + S2, pressCountS2 := 0,
         p1ies := Xor(s.p1ies, BIT3), wdtArmed := true)
    else
      s.(p1ie := s.p1ie - BIT3, p1ifg := s.p1ifg - BIT3,
         p1out := CycleOut(s.p1out - PressLeds, s.normalMode),
         normalMode := NextMode(s.normalMode),
         pressed := s.pressed - S2, pressRelease := s.pressRelease + S2,
         p1ies := Xor(s.p1ies, BIT3), wdtArmed := true)
  }

  /**
   * nmi_isr: acts only when the NMI flag is pending; the NMI polarity in the
   * watchdog control register tells a falling edge (a press) from a rising
   * one (a release). The release branch's LED expression has no effect.
   */
  function Nmi(s: Regs): Regs
  {
    if !s.nmiIFG then
      s
    else if s.nmiFalling then
      s.(nmiIFG := false,
         p1out := s.p1out + BIT6, pressed := s.pressed + S1, pressCountS1 := 0,
         wdtArmed := true, nmiFalling := false)
    else
      s.(nmiIFG := false,
         pressed := s.pressed - S1, pressRelease := s.pressRelease + S1,
         wdtArmed := true, nmiFalling := true)
  }

  /** The counter of a switch after one tick of wdt_isr. */
  function NextCount(pressed: bool, count: uint8): (c: uint8)
    ensures c as int == if pressed then (count as int + 1) % 256 else count as int
  {
    if pressed then Inc(count) else count
  }

  /** P1OUT after one tick of wdt_isr, given P1OUT, Pressed and the counters before it. */
  function TickLeds(p1out: Byte, pressed: Byte, count1: uint8, count2: uint8): Byte
  {
    var out1 := if Has(pressed, S1) && Inc(count1) == TIMEHOLD then p1out + BIT0 else p1out;
    if Has(pressed, S2) && Inc(count2) == TIMEHOLD then out1 + BIT6 else out1
  }

  /** wdt_isr. */
  function Wdt(s: Regs): Regs
  {
    s.(pressCountS1 := NextCount(Has(s.pressed, S1), s.pressCountS1),
       pressCountS2 := NextCount(Has(s.pressed, S2), s.pressCountS2),
       p1out := TickLeds(s.p1out, s.pressed, s.pressCountS1, s.pressCountS2),
       nmiIFG := false, p1ifg := s.p1ifg - BIT3,
       nmiIE := true, p1ie := s.p1ie + BIT3)
  }

  // ----- What the cycler does -----

  /**
   * In phase 0..3 the cycler moves to the next phase, 3 wrapping to 0, and
   * leaves exactly one of BIT1, BIT2, BIT4, BIT5 on, the one PhaseLed gives for
   * the old phase; bits 0, 3, 6 and 7 of P1OUT are unchanged.
   */
  lemma CycleAdvances(p1out: Byte, mode: uint8)
    requires mode < 4
    ensures NextMode(mode) as int == (mode as int + 1) % 4
    ensures OneCycleLed(CycleOut(p1out, mode))
    ensures CycleOut(p1out, mode) * CycleLeds == PhaseLed(mode)
    ensures CycleOut(p1out, mode) - CycleLeds == p1out - CycleLeds
  {
  }

  /** Outside 0..3 the cycler changes nothing. */
  lemma CycleOutOfRange(p1out: Byte, mode: uint8)
    requires mode >= 4
    ensures CycleOut(p1out, mode) == p1out && NextMode(mode) == mode
  {
  }

  /**
   * After n runs from phase 0..3 the phase has advanced by n modulo 4, the
   * bits outside the four cycler outputs are as they were, and (once it has
   * run) exactly the output of the phase before the current one is on.
   */
  lemma {:induction false} CyclesState(p1out: Byte, mode: uint8, n: nat)
    requires mode < 4
    ensures Cycles(p1out, mode, n).1 as int == (mode as int + n) % 4
    ensures Cycles(p1out, mode, n).0 - CycleLeds == p1out - CycleLeds
    ensures n > 0 ==>
      Cycles(p1out, mode, n).0 * CycleLeds == PhaseLed(((mode as int + n - 1) % 4) as uint8)
  {
    if n > 0 {
      CyclesState(p1out, mode, n - 1);
      var prev := Cycles(p1out, mode, n - 1);
      CycleAdvances(prev.0, prev.1);
    }
  }

  /**
   * Four runs bring the phase back to where it started, and from the first
   * run on, P1OUT and the phase repeat with period four.
   */
  lemma CyclePeriod(p1out: Byte, mode: uint8, n: nat)
    requires mode < 4
    ensures Cycles(p1out, mode, 4).1 == mode
    ensures n > 0 ==> Cycles(p1out, mode, n + 4) == Cycles(p1out, mode, n)
  {
    CyclesState(p1out, mode, 4);
    if n > 0 {
      CyclesState(p1out, mode, n);
      CyclesState(p1out, mode, n + 4);
      var a, b := Cycles(p1out, mode, n).0, Cycles(p1out, mode, n + 4).0;
      assert (mode as int + n + 4 - 1) % 4 == (mode as int + n - 1) % 4;
      assert a == (a - CycleLeds) + a * CycleLeds;
      assert b == (b - CycleLeds) + b * CycleLeds;
    }
  }

  // ----- What each handler does -----

  /** With no pending P1.3 flag PORT1_ISR changes nothing. */
  lemma Port1Spurious(s: Regs)
    requires !Has(s.p1ifg, BIT3)
    ensures Port1(s) == s
  {
  }

  /**
   * On a falling edge PORT1_ISR records the press of S2, restarts its count,
   * lights P1.0, masks and acknowledges its own interrupt, toggles the edge
   * select to rising and restarts the watchdog keeping the NMI polarity. The
   * mode and everything else are unchanged.
   */
  lemma Port1Press(s: Regs)
    requires Has(s.p1ifg, BIT3) && Has(s.p1ies, BIT3)
    ensures var r := Port1(s);
      && r.pressed == s.pressed + S2 && r.pressRelease == s.pressRelease
      && r.pressCountS2 == 0 && r.pressCountS1 == s.pressCountS1
      && r.p1out == s.p1out + BIT0 && r.normalMode == s.normalMode
      && r.p1ie == s.p1ie - BIT3 && !Has(r.p1ie, BIT3) && r.p1ifg == s.p1ifg - BIT3
      && r.p1ies == s.p1ies - BIT3 && !Has(r.p1ies, BIT3) && r.wdtArmed
      && r.nmiFalling == s.nmiFalling && r.nmiIE == s.nmiIE && r.nmiIFG == s.nmiIFG
  {
  }

  /**
   * On a rising edge PORT1_ISR records the release of S2, turns P1.0 and P1.6
   * off, runs the cycler exactly once, masks and acknowledges its own
   * interrupt, toggles the edge select to falling and restarts the watchdog.
   */
  lemma Port1Release(s: Regs)
    requires Has(s.p1ifg, BIT3) && !Has(s.p1ies, BIT3)
    ensures var r := Port1(s);
      && r.pressed == s.pressed - S2 && r.pressRelease == s.pressRelease + S2
      && r.pressCountS2 == s.pressCountS2 && r.pressCountS1 == s.pressCountS1
      && r.p1out * PressLeds == {}
      && (r.p1out, r.normalMode) == Cycles(s.p1out - PressLeds, s.normalMode, 1)
      && r.p1ie == s.p1ie - BIT3 && !Has(r.p1ie, BIT3) && r.p1ifg == s.p1ifg - BIT3
      && r.p1ies == s.p1ies + BIT3 && Has(r.p1ies, BIT3) && r.wdtArmed
      && r.nmiFalling == s.nmiFalling && r.nmiIE == s.nmiIE && r.nmiIFG == s.nmiIFG
  {
  }

  /** With no pending NMI flag nmi_isr changes nothing. */
  lemma NmiSpurious(s: Regs)
    requires !s.nmiIFG
    ensures Nmi(s) == s
  {
  }

  /**
   * On a falling edge nmi_isr records the press of S1, restarts its count,
   * lights P1.6 and restarts the watchdog expecting a rising edge.
   */
  lemma NmiPress(s: Regs)
    requires s.nmiIFG && s.nmiFalling
    ensures var r := Nmi(s);
      && r.pressed == s.pressed + S1 && r.pressRelease == s.pressRelease
      && r.pressCountS1 == 0 && r.pressCountS2 == s.pressCountS2
      && r.p1out == s.p1out + BIT6 && r.normalMode == s.normalMode
      && !r.nmiIFG && r.wdtArmed && !r.nmiFalling && r.nmiIE == s.nmiIE
      && r.p1ie == s.p1ie && r.p1ies == s.p1ies && r.p1ifg == s.p1ifg
  {
  }

  /**
   * On a rising edge nmi_isr records the release of S1 and restarts the
   * watchdog expecting a falling edge; P1OUT is left as it was.
   */
  lemma NmiRelease(s: Regs)
    requires s.nmiIFG && !s.nmiFalling
    ensures var r := Nmi(s);
      && r.pressed == s.pressed - S1 && r.pressRelease == s.pressRelease + S1
      && r.pressCountS1 == s.pressCountS1 && r.pressCountS2 == s.pressCountS2
      && r.p1out == s.p1out && r.normalMode == s.normalMode
      && !r.nmiIFG && r.wdtArmed && r.nmiFalling && r.nmiIE == s.nmiIE
      && r.p1ie == s.p1ie && r.p1ies == s.p1ies && r.p1ifg == s.p1ifg
  {
  }

  /**
   * One tick: each pressed switch's counter goes up by one modulo 256 and the
   * other's is left alone; a long-press LED (P1.0 for S1, P1.6 for S2) comes
   * on exactly when its pressed switch's new count is 47, and no other output
   * changes; both pending edge flags are discarded and both edge interrupts
   * enabled again; Pressed, PressRelease, NormalMode, the edge selects and
   * the watchdog are untouched.
   */
  lemma WdtTick(s: Regs)
    ensures var r := Wdt(s);
      && r.pressCountS1 as int ==
           (if Has(s.pressed, S1) then (s.pressCountS1 as int + 1) % 256 else s.pressCountS1 as int)
      && r.pressCountS2 as int ==
           (if Has(s.pressed, S2) then (s.pressCountS2 as int + 1) % 256 else s.pressCountS2 as int)
      && (Has(r.p1out, BIT0) <==>
            Has(s.p1out, BIT0) || (Has(s.pressed, S1) && r.pressCountS1 == TIMEHOLD))
      && (Has(r.p1out, BIT6) <==>
            Has(s.p1out, BIT6) || (Has(s.pressed, S2) && r.pressCountS2 == TIMEHOLD))
      && s.p1out <= r.p1out && r.p1out - PressLeds == s.p1out - PressLeds
      && !r.nmiIFG && !Has(r.p1ifg, BIT3) && r.p1ifg == s.p1ifg - BIT3
      && r.nmiIE && Has(r.p1ie, BIT3) && r.p1ie == s.p1ie + BIT3
      && r.pressed == s.pressed && r.pressRelease == s.pressRelease
      && r.normalMode == s.normalMode && r.p1ies == s.p1ies
      && r.wdtArmed == s.wdtArmed && r.nmiFalling == s.nmiFalling
  {
    assert 3 in Wdt(s).p1ie;
  }
}
