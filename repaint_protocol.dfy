/**
 * The repaint protocol both repaint listeners follow: the rest of the
 * application asks for a full repaint or a UI-only one, the frame loop
 * checks what was asked for and resets it. Each request overwrites the
 * stored status, so the last message before a check decides.
 */
module RepaintProtocol {
  /** `RepaintStatus`; `None` is named `NoRepaint` here. */
  datatype RepaintStatus = All | UIOnly | NoRepaint

  /** The messages that store a status: `RepaintAll`, `RepaintUI` and `ResetRepaint`. */
  datatype Request = RepaintAll | RepaintUI | ResetRepaint

  /** The status a request stores. */
  function Stored(m: Request): RepaintStatus {
    match m
    case RepaintAll => All
    case RepaintUI => UIOnly
    case ResetRepaint => NoRepaint
  }

  /** The status after `ms`, received in order, starting from `s`. */
  function StatusAfter(s: RepaintStatus, ms: seq<Request>): RepaintStatus
    decreases |ms|
  {
    if ms == [] then s else StatusAfter(Stored(ms[0]), ms[1..])
  }

  /** Only the last request counts; with none, the status is what it was. */
  lemma {:induction false} LastRequestWins(s: RepaintStatus, ms: seq<Request>)
    ensures ms == [] ==> StatusAfter(s, ms) == s
    ensures ms != [] ==> StatusAfter(s, ms) == Stored(ms[|ms| - 1])
    decreases |ms|
  {
    if ms != [] {
      LastRequestWins(Stored(ms[0]), ms[1..]);
    }
  }

  /** One more request sets the status it stores. */
  lemma {:induction false} StatusAfterSnoc(s: RepaintStatus, ms: seq<Request>, m: Request)
    ensures StatusAfter(s, ms + [m]) == Stored(m)
  {
    LastRequestWins(s, ms + [m]);
  }

  /** A full repaint asked for before a UI-only one is lost: the UI request downgrades it. */
  lemma {:induction false} UiRequestDowngradesFull(s: RepaintStatus, ms: seq<Request>)
    ensures StatusAfter(s, ms + [RepaintAll, RepaintUI]) == UIOnly
  {
    LastRequestWins(s, ms + [RepaintAll, RepaintUI]);
  }
}
