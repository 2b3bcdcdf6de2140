/**
 * The program's globals and the register bits it touches as one object, with
 * one method per routine. Each method runs the routine's statements in order
 * (`x |= m` as `x := x + m`, `x &= ~m` as `x := x - m`, `x ^= m` as
 * `x := Xor(x, m)`, `x & m` as a condition as `Has(x, m)`, and the
 * pre-increment as `Inc`). Its `modifies` clause names exactly the fields the
 * routine writes, so every other field keeps its value; its `ensures` says
 * that the old state with those fields replaced by their new values is what
 * the reference function in `Handlers` gives. Together: the object's new
 * `Snapshot()` is the reference function applied to the old one.
 */
module Launchpad {
  import opened Registers
  import opened Handlers

  class Launchpad {
    var p1out: Byte
    var p1ie: Byte
    var p1ies: Byte
    var p1ifg: Byte
    var nmiIE: bool
    var nmiIFG: bool
    var wdtArmed: bool
    var nmiFalling: bool
    var pressed: Byte
    var pressRelease: Byte
    var pressCountS1: uint8
    var pressCountS2: uint8
    var normalMode: uint8

    /** The current values of all fields. */
    function Snapshot(): Regs
      reads this
    {
      Regs(p1out, p1ie, p1ies, p1ifg, nmiIE, nmiIFG, wdtArmed, nmiFalling,
           pressed, pressRelease, pressCountS1, pressCountS2, normalMode)
    }

    /**
     * The state `main` sets up before it sleeps (the register writes at
     * lines 37-48 of the program, including those of InitialiseSwitch2).
     */
    constructor ()
      ensures Snapshot() == Initial()
    {
      p1out := {} + (BIT0 + BIT6) + BIT3;  // P1OUT = 0; P1OUT |= BIT0|BIT6; P1OUT |= BIT3
      p1ies := BIT3;
      p1ifg := {};
      p1ie := BIT3;
      wdtArmed, nmiFalling := false, true;
      nmiIFG := false;
      nmiIE := true;
      pressed, pressRelease := {}, {};
      pressCountS1, pressCountS2 := 0, 0;
      normalMode := 0;
    }

    /** OperateNormalNormalMode: the four-phase output cycler. */
    method OperateNormalNormalMode()
      modifies this`p1out, this`normalMode
      ensures p1out == CycleOut(old(p1out), old(normalMode))
      ensures normalMode == NextMode(old(normalMode))
    {
      if normalMode == 0 {
        p1out := p1out - CycleLeds;
        p1out := p1out + BIT1;
        normalMode := 1;
      } else if normalMode == 1 {
        p1out := p1out - CycleLeds;
        p1out := p1out + BIT2;
        normalMode := 2;
      } else if normalMode == 2 {
        p1out := p1out - CycleLeds;
        p1out := p1out + BIT4;
        normalMode := 3;
      } else if normalMode == 3 {
        p1out := p1out - CycleLeds;
        p1out := p1out + BIT5;
        normalMode := 0;
      }
    }

    /** PORT1_ISR: the S2 (P1.3) edge handler. */
    method Port1Isr()
      modifies this`p1ie, this`p1ifg, this`p1out, this`pressed, this`pressCountS2,
        this`pressRelease, this`normalMode, this`p1ies, this`wdtArmed
      ensures Port1(old(Snapshot())) ==
              old(Snapshot()).(p1ie := p1ie, p1ifg := p1ifg, p1out := p1out,
                               pressed := pressed, pressCountS2 := pressCountS2,
                               pressRelease := pressRelease, normalMode := normalMode,
                               p1ies := p1ies, wdtArmed := wdtArmed)
    {
      if Has(p1ifg, BIT3) {
        p1ie := p1ie - BIT3;
        p1ifg := p1ifg - BIT3;
        if Has(p1ies, BIT3) {
          // falling edge: S2 pressed
          p1out := p1out + BIT0;
          pressed := pressed + S2;
          pressCountS2 := 0;
        } else {
          // rising edge: S2 released
          p1out := p1out - PressLeds;
          pressed := pressed - S2;
          pressRelease := pressRelease + S2;
          OperateNormalNormalMode();
        }
        p1ies := Xor(p1ies, BIT3);
        // the watchdog restarts in interval mode; the NMI polarity is kept
        wdtArmed := true;
      }
    }

    /** nmi_isr: the S1 (RST/NMI pin) edge handler. */
    method NmiIsr()
      modifies this`nmiIFG, this`p1out, this`pressed, this`pressCountS1,
        this`pressRelease, this`wdtArmed, this`nmiFalling
      ensures Nmi(old(Snapshot())) ==
              old(Snapshot()).(nmiIFG := nmiIFG, p1out := p1out, pressed := pressed,
                               pressCountS1 := pressCountS1, pressRelease := pressRelease,
                               wdtArmed := wdtArmed, nmiFalling := nmiFalling)
    {
      if nmiIFG {
        nmiIFG := false;
        if nmiFalling {
          // falling edge: S1 pressed
          p1out := p1out + BIT6;
          pressed := pressed + S1;
          pressCountS1 := 0;
          wdtArmed, nmiFalling := true, false;
        } else {
          // rising edge: S1 released; the LED expression at line 108 is
          // evaluated and discarded, so P1OUT is not assigned
          pressed := pressed - S1;
          pressRelease := pressRelease + S1;
          wdtArmed, nmiFalling := true, true;
        }
      }
    }

    /** wdt_isr: the watchdog interval tick. */
    method WdtIsr()
      modifies this`pressCountS1, this`pressCountS2, this`p1out, this`nmiIFG,
        this`p1ifg, this`nmiIE, this`p1ie
      ensures Wdt(old(Snapshot())) ==
              old(Snapshot()).(pressCountS1 := pressCountS1, pressCountS2 := pressCountS2,
                               p1out := p1out, nmiIFG := nmiIFG, p1ifg := p1ifg,
                               nmiIE := nmiIE, p1ie := p1ie)
    {
      if Has(pressed, S1) {
        pressCountS1 := Inc(pressCountS1);
        if pressCountS1 == TIMEHOLD {
          p1out := p1out + BIT0;
        }
      }
      if Has(pressed, S2) {
        pressCountS2 := Inc(pressCountS2);
        if pressCountS2 == TIMEHOLD {
          p1out := p1out + BIT6;
        }
      }
      nmiIFG := false;
      p1ifg := p1ifg - BIT3;
      nmiIE := true;
      p1ie := p1ie + BIT3;
    }
  }
}
