// Register access over the bus: the asynchronous transfer with its single retry on a stale
// generation, and the check of device-supplied register pointers.

module BusAccess {

  datatype TransferStatus = Done | InvalidGeneration | Timeout | OtherError | NoMemory | InvalidParameter

  // The initial register space and the window a camera's registers must lie in.
  const SPACE_BASE: nat := 0xFFFF_F000_0000
  const WINDOW_MIN: nat := 0xFFFF_F000_0000
  const WINDOW_MAX: nat := 0xFFFF_F100_0000

  datatype Pointer = Rejected | Offset(bytes: nat)

  // Photonic1394CsrPointerToOffset: pointer counts quadlets from the start of the initial
  // register space; the result counts bytes from the camera's CSR base.
  function CsrPointerToOffset(csrBase: nat, pointer: nat, blockBytes: nat): Pointer {
    var absolute := SPACE_BASE + 4 * pointer;
    if absolute < WINDOW_MIN || absolute + blockBytes > WINDOW_MAX || absolute < csrBase then Rejected
    // the cast to a 32-bit offset
    else Offset((absolute - csrBase) % 0x1_0000_0000)
  }

  // For a CSR base the discovery accepts, a pointer is taken exactly when every byte of its
  // block lies in the window at or above the base, and then the offset leads back to it.
  lemma PointerStaysInWindow(csrBase: nat, pointer: nat, blockBytes: nat)
    requires WINDOW_MIN <= csrBase < WINDOW_MAX
    ensures var p, absolute := CsrPointerToOffset(csrBase, pointer, blockBytes), SPACE_BASE + 4 * pointer;
      && (p.Offset? <==> csrBase <= absolute && absolute + blockBytes <= WINDOW_MAX)
      && (p.Offset? ==> csrBase + p.bytes == absolute && p.bytes + blockBytes <= WINDOW_MAX - WINDOW_MIN)
  {
  }

  // Answers of the bus driver: to a generation query, and to one submitted transaction.
  datatype Query = NoAnswer | Answered(generation: nat)

  datatype Outcome = Abandoned | Answer(status: TransferStatus)

  // The bus-reset state of PHOTONIC_DEVICE_EXTENSION and what one transfer did.
  class Node {
    var busResetPending: bool
    var busGeneration: nat
    // generations of the submitted transactions, oldest first
    var sent: seq<nat>

    // PhotonicQueryGenerationCount; now is the answer of the bus driver.
    method QueryGeneration(now: Query) returns (ok: bool)
      modifies `busGeneration
      ensures ok == now.Answered? && busGeneration == (if ok then now.generation else old(busGeneration))
    {
      ok := now.Answered?;
      if ok {
        busGeneration := now.generation;
      }
    }

    // PhotonicSubmitIrbEx carrying the MDL and the bounce buffer; the outcome is the bus
    // driver's, and an abandoned request reports a timeout.
    method Submit(generation: nat, outcome: Outcome) returns (status: TransferStatus, abandoned: bool)
      modifies `sent
      ensures sent == old(sent) + [generation] && abandoned == outcome.Abandoned?
      ensures status == if abandoned then Timeout else outcome.status
    {
      sent := sent + [generation];
      abandoned := outcome.Abandoned?;
      status := if abandoned then Timeout else outcome.status;
    }

    // A reset since the last transaction: refresh, or leave the flag for the next one.
    method RefreshAfterReset(now: Query)
      modifies `busResetPending, `busGeneration
      ensures busResetPending == (old(busResetPending) && now.NoAnswer?)
      ensures busGeneration == (if old(busResetPending) && now.Answered? then now.generation else old(busGeneration))
    {
      var pending := busResetPending;
      busResetPending := false;
      if pending {
        var ok := QueryGeneration(now);
        if !ok {
          busResetPending := true;
        }
      }
    }

    // PhotonicAsyncTransfer: freed tells whether it freed the MDL and the bounce buffer. first
    // and second answer the refresh after a reset and the one after a rejection, outcome and
    // retried are what becomes of the two submissions.
    method AsyncTransfer(length: nat, read: bool, memory: bool, first: Query, outcome: Outcome, second: Query, retried: Outcome)
      returns (status: TransferStatus, freed: nat, copied: bool, abandoned: bool)
      requires sent == []
      modifies this
      ensures |sent| == (if length == 0 || !memory then 0
                         else if outcome == Answer(InvalidGeneration) && second.Answered? then 2 else 1)
      ensures length == 0 ==> status.InvalidParameter? && busResetPending == old(busResetPending)
      ensures length > 0 && !memory ==> status.NoMemory? && busResetPending == (old(busResetPending) && first.NoAnswer?)
      ensures |sent| == 0 ==> freed == 0 && !abandoned
      // the first submission carries the generation read after a pending reset
      ensures |sent| > 0 ==> sent[0] == (if old(busResetPending) && first.Answered? then first.generation
                                         else old(busGeneration))
      // a refresh that fails is left for the next transfer
      ensures |sent| > 0 ==> busResetPending == (if outcome == Answer(InvalidGeneration) && second.NoAnswer? then true
                                                 else old(busResetPending) && first.NoAnswer?)
      // what the caller is told is the outcome of the last submission
      ensures |sent| > 0 ==> var last := if |sent| == 2 then retried else outcome;
                abandoned == last.Abandoned? && status == (if last.Abandoned? then Timeout else last.status)
      // one free of the two buffers, unless an abandoned request left them to its completion
      ensures |sent| > 0 ==> freed == if abandoned then 0 else 1
      ensures abandoned ==> status.Timeout? && !copied
      // the retry carries the generation just read, and only one is made
      ensures |sent| == 2 ==> sent[1] == second.generation == busGeneration
      ensures copied <==> read && |sent| > 0 && status.Done?
    {
      freed, copied, abandoned := 0, false, false;
      if length == 0 {
        return InvalidParameter, 0, false, false;
      }
      RefreshAfterReset(first);
      if !memory {
        return NoMemory, 0, false, false;
      }
      status, abandoned := Submit(busGeneration, outcome);
      if status.InvalidGeneration? && !abandoned {
        var ok := QueryGeneration(second);
        if ok {
          status, abandoned := Submit(busGeneration, retried);
        } else {
          busResetPending := true;
        }
      }
      if status.Done? && read {
        copied := true;
      }
      if !abandoned {
        freed := 1;
      }
    }
  }
}
