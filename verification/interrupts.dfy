/**
 * interrupt/interrupt.go: the interrupt kinds and the one-slot signal through
 * which the PPU raises them and the CPU collects them.
 */
module Interrupts {
  /** Go's `Interrupt uint8`. */
  type Interrupt = bv8

  const Reset: Interrupt := 0
  const NonMaskableInterrupt: Interrupt := 1
  const Irq: Interrupt := 2

  /** `Interrupt.String`: the constant's name, "" for any other value. */
  function InterruptString(i: Interrupt): (r: string)
    ensures i == Reset <==> r == "Reset"
    ensures i == NonMaskableInterrupt <==> r == "NonMaskableInterrupt"
    ensures i == Irq <==> r == "Irq"
    ensures i > Irq <==> r == ""
  {
    if i == Reset then "Reset"
    else if i == NonMaskableInterrupt then "NonMaskableInterrupt"
    else if i == Irq then "Irq"
    else ""
  }

  /**
   * The signal holds the last interrupt sent and whether it is still pending.
   * The source keeps one global instance; here it is passed explicitly.
   */
  class InterruptSignal {
    var wasTriggered: bool
    var value: Interrupt

    /** The global's initial state: nothing pending, value Reset (Go's zero). */
    constructor ()
      ensures !wasTriggered && value == Reset
    {
      wasTriggered := false;
      value := Reset;
    }

    /** Reports the stored interrupt and whether it was pending, and clears the pending mark. */
    method Read() returns (interrupt: Interrupt, triggered: bool)
      modifies this`wasTriggered
      ensures interrupt == value && triggered == old(wasTriggered)
      ensures !wasTriggered
    {
      triggered := wasTriggered;
      wasTriggered := false;
      interrupt := value;
    }

    /** Stores the interrupt, replacing a pending one, and marks it pending. */
    method Send(interrupt: Interrupt)
      modifies this
      ensures value == interrupt && wasTriggered
    {
      value := interrupt;
      wasTriggered := true;
    }
  }

  /**
   * A sent interrupt is reported once: the first read after `Send` returns it
   * as pending, a second read returns the same value as no longer pending.
   */
  method SendThenReadTwice(i: Interrupt, j: Interrupt) returns (first: (Interrupt, bool), second: (Interrupt, bool))
    ensures first == (j, true) && second == (j, false)
  {
    var signal := new InterruptSignal();
    signal.Send(i);
    signal.Send(j);
    var v1, t1 := signal.Read();
    var v2, t2 := signal.Read();
    first, second := (v1, t1), (v2, t2);
  }
}
