# MSP430 Launchpad two-switch debounce, modelled in Dafny

`test.c` drives the two switches of an MSP430 Launchpad using four routines:

- `nmi_isr` handles S1 (RST/NMI).
- `PORT1_ISR` handles S2 (P1.3).
- `wdt_isr` is the watchdog interval tick.
- `OperateNormalNormalMode` is a four-phase output cycler, run on every S2 release.

Debouncing works as follows:

1. An edge handler masks its own interrupt and starts the watchdog.
2. The next watchdog tick discards any flag latched by bounces in the meantime.
3. The same tick unmasks the interrupt again.

The tick also counts how long each switch is held. It lights a long-press LED when the count reaches 47.

The model has four modules:

- **`Registers`** (`registers.dfy`): the state.
  - An 8-bit register or `unsigned char` bit mask is a `Byte`, the set of its 1-bit positions. In the C code, `|=` is `+`, `&= ~` is `-`, `x & m` as a condition is `Has(x, m)` and `^=` is `Xor`.
  - The counters and `NormalMode` are `uint8` numbers with explicit wrap-around (`Inc`).
  - `Regs` is one snapshot of everything the routines read or write:
    - `P1OUT`, `P1IE`, `P1IES`, `P1IFG`;
    - `NMIIE` and `NMIIFG`;
    - the globals of lines 26-30;
    - the watchdog control register, reduced to two facts: the watchdog is running, and the NMI polarity (`WDTNMIES`).
- **`Handlers`** (`handlers.dfy`):
  - A reference function per routine: `CycleOut`/`NextMode` for the cycler, then `Port1`, `Nmi` and `Wdt`.
  - Lemmas stating what each branch of each routine does.
  - Lemmas on the cycler's period.
- **`Launchpad`** (`launchpad.dfy`): the class `Launchpad`, whose fields are the program's globals and register bits.
  - There is one method per routine. Each executes the C statements in order; on release, `Port1Isr` calls `OperateNormalNormalMode` as the C code does.
  - Each method's `modifies` clause names exactly the fields that routine writes.
  - Each method's `ensures` states the written fields' new values through the reference function. With the frame, this means the new `Snapshot()` is the reference function applied to the old one.
- **`Events`** (`events.dfy`): the interrupt hardware as a sequence of atomic events.
  - The events are `S1Edge`, `S2Edge` and `Tick`.
  - An edge always latches its flag, but its handler runs only while its interrupt is enabled.
  - Taking the NMI clears `NMIIE` (the note at test.c:113). The watchdog ticks only while it runs.
  - On top of this the module proves:
    - an invariant of every reachable state;
    - that bounces are ignored;
    - exact long-press timing;
    - the effect of a full press-and-release of either switch.

The model reproduces the code as written. Where the code and its comments disagree, it follows the code:

- Line 108 is the expression statement `P1OUT & ~(BIT6+BIT0);`, which has no effect. So releasing S1 turns no LED off. `Events.S1PressRelease` proves that P1.6, lit by the S1 press, is still on after the release.
- The comments at lines 98, 160 and 167 name other LEDs than the bits the code sets. The code sets:
  - P1.6 on an S1 press;
  - P1.0 on a long S1 press;
  - P1.6 on a long S2 press.
- The comments at lines 99-100 say "Switch 2" for S1's flag and counter.
- Besides P1.0 and P1.6, the initial `P1OUT` also has bit 3 set: `InitialiseSwitch2` selects the P1.3 pull-up through `P1OUT |= BIT3` (line 83). `Events.Inv` shows that bit stays set.

## Model

| member | source | states |
|---|---|---|
| `Registers.Xor` | test.c:144 | `x ^ m`: a bit is set in the result exactly when it is set in just one of `x` and `m` |
| `Registers.PhaseLed` | test.c:54-73 | the output a phase drives is one of BIT1, BIT2, BIT4, BIT5, all of them cycler outputs |
| `Handlers.CycleAdvances` | test.c:54-73 | from phase 0..3 the cycler moves to `(NormalMode + 1) % 4`, so 3 wraps to 0. Afterwards exactly one of BIT1, BIT2, BIT4, BIT5 is on in P1OUT: the one for the old phase (0→BIT1, 1→BIT2, 2→BIT4, 3→BIT5). Bits 0, 3, 6 and 7 of P1OUT are unchanged |
| `Handlers.CycleOutOfRange` | test.c:74 | with `NormalMode` outside 0..3 the cycler changes neither P1OUT nor `NormalMode` |
| `Handlers.CyclesState` | test.c:53-76 | after n runs from phase m < 4: the phase is `(m + n) % 4`; P1OUT outside the four cycler outputs is unchanged; and for n ≥ 1 the cycler output lit is the one for phase `(m + n - 1) % 4` |
| `Handlers.CyclePeriod` | test.c:53-76 | four runs return `NormalMode` to its starting value; from the first run on, P1OUT and `NormalMode` repeat with period four |
| `Handlers.Port1Spurious` | test.c:120-148 | with P1IFG.3 clear, PORT1_ISR changes nothing |
| `Handlers.Port1Press` | test.c:120-146 | on a falling edge (P1IES.3 set): S2 is added to `Pressed`; `PressCountS2` becomes 0; BIT0 is set; P1IE.3 and P1IFG.3 are cleared; P1IES.3 is toggled, here to clear; the watchdog is armed with the NMI polarity kept. `NormalMode` and everything else are unchanged |
| `Handlers.Port1Release` | test.c:120-146 | on a rising edge: S2 is removed from `Pressed` and added to `PressRelease`; BIT0 and BIT6 are cleared; P1OUT and `NormalMode` are exactly one cycler run applied to P1OUT with the press LEDs cleared; P1IE.3 and P1IFG.3 are cleared; P1IES.3 is toggled, here to set; the watchdog is armed |
| `Handlers.NmiSpurious` | test.c:93-114 | with NMIIFG clear, nmi_isr changes nothing |
| `Handlers.NmiPress` | test.c:93-105 | on a falling edge: S1 is added to `Pressed`; `PressCountS1` becomes 0; BIT6 is set; NMIIFG is cleared; the watchdog is armed expecting a rising edge. The rest is unchanged |
| `Handlers.NmiRelease` | test.c:106-112 | on a rising edge: S1 is removed from `Pressed` and added to `PressRelease`; P1OUT is unchanged; the watchdog is armed expecting a falling edge |
| `Handlers.NextCount` | test.c:156-169 | a pressed switch's counter goes up by exactly one modulo 256, and an unpressed switch's counter is unchanged |
| `Handlers.WdtTick` | test.c:156-174 | one tick does the following: (1) counts every pressed switch up by one modulo 256 and leaves the others alone; (2) sets BIT0 (S1) or BIT6 (S2) exactly when that switch is pressed and its new count equals 47; (3) changes no other output and turns nothing off; (4) clears NMIIFG and P1IFG.3; (5) sets NMIIE and P1IE.3; (6) leaves `Pressed`, `PressRelease`, `NormalMode`, the edge selects and the watchdog unchanged |
| `Launchpad.Launchpad.constructor` | test.c:35-51 | the registers and globals as `main` and `InitialiseSwitch2` leave them: P1OUT = BIT0\|BIT6\|BIT3; falling edges expected; P1IE.3 and NMIIE set; flags and counters 0; watchdog held |
| `Launchpad.Launchpad.OperateNormalNormalMode` | test.c:53-76 | writes only P1OUT and `NormalMode`, giving them the values of `CycleOut`/`NextMode` |
| `Launchpad.Launchpad.Port1Isr` | test.c:118-149 | writes only the nine fields PORT1_ISR assigns; the new state is `Port1` of the old one |
| `Launchpad.Launchpad.NmiIsr` | test.c:91-115 | writes only the seven fields nmi_isr assigns; the new state is `Nmi` of the old one |
| `Launchpad.Launchpad.WdtIsr` | test.c:154-175 | writes only the seven fields wdt_isr assigns; the new state is `Wdt` of the old one |
| `Events.InitialInv` | test.c:35-51 | the state `main` sets up satisfies the invariant `Inv` |
| `Events.Port1Inv` | test.c:118-149 | PORT1_ISR keeps `Inv` |
| `Events.NmiInv` | test.c:91-115 | nmi_isr, entered with NMIIE cleared by the hardware, keeps `Inv` |
| `Events.WdtInv` | test.c:154-175 | wdt_isr keeps `Inv` |
| `Events.StepInv` | test.c:91-175 | every event (an edge taken or only latched, a tick) keeps `Inv` |
| `Events.RunInv` | test.c:91-175 | any sequence of events keeps `Inv` |
| `Events.Reachable` | test.c:26-175 | in every state reachable from the initial one: (1) `Pressed` and `PressRelease` hold only S1 and S2; (2) P1IES.3 expects a falling edge exactly while S2 is not pressed; (3) WDTNMIES likewise for S1; (4) a masked edge interrupt implies the watchdog runs; (5) the P1.3 pull-up stays selected; (6) `NormalMode` is 0..3; (7) at most one cycler output is on, namely the previous phase's |
| `Events.S2BouncesLatch` | test.c:120-123 | while P1IE.3 is clear, S2 edges only latch P1IFG.3 |
| `Events.S1BouncesLatch` | test.c:113-115 | while NMIIE is clear, S1 edges only latch NMIIFG |
| `Events.S2Debounce` | test.c:120-174 | any number of S2 bounces between a taken S2 edge and the next tick has no effect on the state after that tick |
| `Events.S1Debounce` | test.c:93-174 | any number of S1 bounces between a taken S1 edge and the next tick has no effect on the state after that tick |
| `Events.TicksCount` | test.c:156-174 | n ticks add n modulo 256 to each pressed switch's counter. They change nothing but the counters, the press LEDs and the flags and enables. From the first tick on, both edge interrupts are enabled and no edge flag is pending |
| `Events.LongPressS2` | test.c:163-169 | from `PressCountS2` < 47 with P1.6 off, P1.6 is on after n ticks exactly when `PressCountS2 + n ≥ 47`. So a press held 46 ticks from 0 does not light it, and the 47th tick does |
| `Events.LongPressS1` | test.c:156-162 | the same for S1 and P1.0 |
| `Events.S2PressRelease` | test.c:118-149 | an S2 press, at least one tick, then the release has this effect: (1) `Pressed` is back to its old value and S2 is in `PressRelease`; (2) P1.0 and P1.6 are off; (3) the cycler has advanced once and lit the old phase's output; (4) no other output changed; (5) P1IES.3 again expects a falling edge |
| `Events.S1PressRelease` | test.c:91-115 | an S1 press, at least one tick, then the release has this effect: (1) `Pressed` is back to its old value and S1 is in `PressRelease`; (2) the NMI expects a falling edge again; (3) P1.6 is still on, and no LED was turned off; (4) `NormalMode` is unchanged |

## Left out

- `main` and `InitialiseSwitch2` (test.c:35-51, 80-88) are represented only by the state they leave, `Handlers.Initial` and the constructor. The model leaves out these register writes:
  - `P1DIR`;
  - `P1REN`;
  - the `WDTIE` enable;
  - entering low-power mode with interrupts on.
- The bit encoding of `WDTCTL` and `WDT_MDLY_32` is reduced to "running" plus the `WDTNMIES` polarity.
  - Line 146 keeps the low seven bits, so it only restarts the watchdog and keeps the polarity.
  - The interval, the password and the counter clear are not modelled.
- The `WDTIFG` clear at line 145 is not modelled. Events are atomic, so no tick can be pending while an edge handler runs.
- Real time (32 ms per tick, about 1.5 s for a long press) is left out, as are interrupt priorities, preemption, several interrupts pending at once, and any NMI that setting `WDTNMIES` might raise in hardware. Events happen one at a time, in sequence.
- Pin levels are not tracked. An edge of the polarity not currently selected latches no flag, so it is not an event.
- The unused `State`, `NORMAL`, `SPECIAL` and `FLIP_HOLD` are left out, along with the commented-out code at lines 137-138.
- `PressRelease` is written but never read, so it is only a field.
- Register and mask values are modelled as sets of bit positions, not as numbers. The program only ever combines and tests them bit by bit. Bits of `P1IE`, `P1IES` and `P1IFG` other than bit 3 are carried along but never examined.
