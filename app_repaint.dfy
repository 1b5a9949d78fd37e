/**
 * The `RepaintListener` of the `app` module: an actor holding the repaint status
 * in an atomic, set by request messages and read by the frame loop.
 * `received` records the requests in the order they were handled; the
 * actor's mailbox, which serialises them, is not modelled.
 */
module AppRepaint {
  import opened RepaintProtocol

  class RepaintListener {
    var repaintRequested: RepaintStatus
    ghost var received: seq<Request>

    /** The status is the one the requests so far leave behind. */
    ghost predicate Valid()
      reads this
    {
      repaintRequested == StatusAfter(NoRepaint, received)
    }

    /** `Default`: nothing requested. */
    constructor Default()
      ensures Valid() && repaintRequested == NoRepaint && received == []
    {
      repaintRequested := NoRepaint;
      received := [];
    }

    /** The `RepaintAll` handler: a full repaint is pending, whatever was before. */
    method HandleRepaintAll()
      requires Valid()
      modifies this
      ensures Valid() && repaintRequested == All && received == old(received) + [RepaintAll]
    {
      repaintRequested := All;
      received := received + [RepaintAll];
      StatusAfterSnoc(NoRepaint, old(received), RepaintAll);
    }

    /** The `RepaintUI` handler: a UI-only repaint is pending, even over a full one. */
    method HandleRepaintUI()
      requires Valid()
      modifies this
      ensures Valid() && repaintRequested == UIOnly && received == old(received) + [RepaintUI]
    {
      repaintRequested := UIOnly;
      received := received + [RepaintUI];
      StatusAfterSnoc(NoRepaint, old(received), RepaintUI);
    }

    /** The `CheckRepaint` handler: what the last request asked for, or nothing. */
    method CheckRepaint() returns (status: RepaintStatus)
      requires Valid()
      ensures received == [] ==> status == NoRepaint
      ensures received != [] ==> status == Stored(received[|received| - 1])
    {
      status := repaintRequested;
      LastRequestWins(NoRepaint, received);
    }

    /** The `ResetRepaint` handler, once per frame: nothing pending. */
    method HandleResetRepaint()
      requires Valid()
      modifies this
      ensures Valid() && repaintRequested == NoRepaint && received == old(received) + [ResetRepaint]
    {
      repaintRequested := NoRepaint;
      received := received + [ResetRepaint];
      StatusAfterSnoc(NoRepaint, old(received), ResetRepaint);
    }
  }
}
