/**
 * The contract step: the agreement must be scrolled to its end before the
 * acceptance checkbox is enabled, and the step completes only with the
 * contract both read and accepted. The modern wizard's contract step has the
 * same latch, with the acceptance kept in its form data.
 */
module Contract {
  import opened Common

  /** The scroll tolerance in pixels. */
  const SLACK: int := 10

  /** The visible window reaches the end of the text, up to the tolerance. */
  predicate AtBottom(scrollHeight: int, scrollTop: int, clientHeight: int) {
    scrollHeight - scrollTop <= clientHeight + SLACK
  }

  /** A window whose bottom edge is within ten pixels of the end counts as the end. */
  lemma AtBottomMeansNearEnd(scrollHeight: int, scrollTop: int, clientHeight: int)
    ensures AtBottom(scrollHeight, scrollTop, clientHeight) <==> scrollTop + clientHeight >= scrollHeight - SLACK
  {
  }

  class Step {
    var scrolled: bool
    var contractRead: bool
    var contractAccepted: bool

    /** The two latches are set together. */
    ghost predicate Valid()
      reads this
    {
      scrolled == contractRead
    }

    /** Acceptance was only given once the contract had been read. */
    predicate AcceptedAfterReading()
      reads this
    {
      contractAccepted ==> contractRead
    }

    /** The step opens unread, with an acceptance carried over from earlier data (`|| false`). */
    constructor (acceptedBefore: bool)
      ensures Valid()
      ensures !scrolled && !contractRead && contractAccepted == acceptedBefore
      ensures !acceptedBefore ==> AcceptedAfterReading()
    {
      scrolled := false;
      contractRead := false;
      contractAccepted := acceptedBefore;
    }

    /**
     * `handleScroll`: reaching the bottom sets both latches; nothing ever
     * clears them.
     */
    method HandleScroll(scrollHeight: int, scrollTop: int, clientHeight: int)
      requires Valid()
      modifies this
      ensures Valid()
      ensures contractRead <==> old(contractRead) || AtBottom(scrollHeight, scrollTop, clientHeight)
      ensures old(contractRead) ==> contractRead
      ensures contractAccepted == old(contractAccepted)
      ensures old(AcceptedAfterReading()) ==> AcceptedAfterReading()
    {
      if AtBottom(scrollHeight, scrollTop, clientHeight) && !scrolled {
        scrolled := true;
        contractRead := true;
      }
    }

    /** The acceptance checkbox, disabled (so ignored) until the contract is read. */
    method ChangeAcceptance(checked: bool)
      requires Valid()
      modifies this
      ensures Valid()
      ensures contractAccepted == if old(contractRead) then checked else old(contractAccepted)
      ensures scrolled == old(scrolled) && contractRead == old(contractRead)
      ensures old(AcceptedAfterReading()) ==> AcceptedAfterReading()
    {
      if contractRead {
        contractAccepted := checked;
      }
    }

    /** `handleSubmit`: passes `contractAccepted: true` on only when accepted and read. */
    method Submit() returns (next: Option<bool>)
      requires Valid()
      ensures next.Some? <==> contractAccepted && contractRead
      ensures next.Some? ==> next.value
    {
      if contractAccepted && contractRead {
        next := Some(true);
      } else {
        next := None;
      }
    }
  }

  /**
   * From a fresh step, the contract cannot be completed without reaching the
   * bottom once: the checkbox stays ignored and Submit refuses.
   */
  method UnreadContractRefused(checked: bool) returns (next: Option<bool>)
    ensures next.None?
  {
    var step := new Step(false);
    step.ChangeAcceptance(checked);
    next := step.Submit();
  }

  /** Scrolling to the bottom and ticking the box completes the step. */
  method ReadAndAcceptCompletes(scrollHeight: int, clientHeight: int) returns (next: Option<bool>)
    ensures next == Some(true)
  {
    var step := new Step(false);
    step.HandleScroll(scrollHeight, scrollHeight - clientHeight, clientHeight);
    step.ChangeAcceptance(true);
    next := step.Submit();
  }
}
