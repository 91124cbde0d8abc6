/** The life cycle of a phase execution: its statuses and the table of allowed changes. */
module PhaseState {

  datatype PhaseStatus =
    Pending | WaitingGate | WaitingUser | WaitingTrigger | InProgress | Completed | Skipped | Failed

  function Targets(s: PhaseStatus): set<PhaseStatus> {
    match s
    case Pending => {WaitingGate, WaitingUser, WaitingTrigger, Skipped}
    case WaitingGate => {WaitingUser, Failed, Skipped}
    case WaitingUser => {InProgress, WaitingTrigger, Skipped}
    case WaitingTrigger => {InProgress, Failed}
    case InProgress => {Completed, Failed}
    case _ => {}
  }

  predicate ValidTransition(from: PhaseStatus, to: PhaseStatus) {
    to in Targets(from)
  }

  /**
   * What the table allows: only pending phases are gated or, short of a claim, made to wait; work starts
   * from waiting for a user or a trigger; only work completes; waiting for a user cannot fail, and
   * neither work nor waiting for a trigger can be skipped.
   */
  lemma TableExactly(from: PhaseStatus, to: PhaseStatus)
    ensures to.Pending? ==> !ValidTransition(from, to)
    ensures to.WaitingGate? ==> (ValidTransition(from, to) <==> from == Pending)
    ensures to.WaitingUser? ==> (ValidTransition(from, to) <==> from == Pending || from == WaitingGate)
    ensures to.WaitingTrigger? ==> (ValidTransition(from, to) <==> from == Pending || from == WaitingUser)
    ensures to.InProgress? ==> (ValidTransition(from, to) <==> from == WaitingUser || from == WaitingTrigger)
    ensures to.Completed? ==> (ValidTransition(from, to) <==> from == InProgress)
    ensures to.Skipped? ==> (ValidTransition(from, to) <==> from in {Pending, WaitingGate, WaitingUser})
    ensures to.Failed? ==> (ValidTransition(from, to) <==> from in {WaitingGate, WaitingTrigger, InProgress})
  {
  }

  /** A terminal status is one no change may leave. */
  function Terminal(s: PhaseStatus): (r: bool)
    ensures r <==> forall to :: !ValidTransition(s, to)
  {
    var r := Targets(s) == {};
    assert !r ==>
      ValidTransition(s, if s.Pending? || s.WaitingGate? then WaitingUser
                         else if s.WaitingUser? then InProgress else Failed);
    r
  }

  /** What the runtime actually does: a change of the table, or a cancellation of anything unfinished. */
  predicate LawfulChange(from: PhaseStatus, to: PhaseStatus) {
    from == to || ValidTransition(from, to) || (!Terminal(from) && to == Skipped)
  }

  /** An upper bound on the changes still to come. */
  function Remaining(s: PhaseStatus): nat {
    match s
    case Pending => 5
    case WaitingGate => 4
    case WaitingUser => 3
    case WaitingTrigger => 2
    case InProgress => 1
    case _ => 0
  }

  /** Every lawful change uses up at least one of the remaining changes; a terminal status admits none. */
  lemma ChangeUsesUp(from: PhaseStatus, to: PhaseStatus)
    requires LawfulChange(from, to)
    ensures from != to ==> Remaining(to) < Remaining(from)
    ensures Terminal(from) <==> Remaining(from) == 0
    ensures Terminal(from) ==> to == from
  {
  }

  /** The number of status changes in a history. */
  function Changes(history: seq<PhaseStatus>): nat {
    if |history| < 2 then 0
    else Changes(history[..|history| - 1]) + if history[|history| - 2] != history[|history| - 1] then 1 else 0
  }

  ghost predicate LawfulHistory(history: seq<PhaseStatus>) {
    forall i :: 0 <= i < |history| - 1 ==> LawfulChange(history[i], history[i + 1])
  }

  /** No history changes status more than five times. */
  lemma {:induction false} AtMostFiveChanges(history: seq<PhaseStatus>)
    requires LawfulHistory(history) && history != []
    ensures Changes(history) + Remaining(history[|history| - 1]) <= Remaining(history[0]) <= 5
  {
    var n := |history| - 1;
    if n > 0 {
      AtMostFiveChanges(history[..n]);
      assert LawfulChange(history[n - 1], history[n - 1 + 1]);
      ChangeUsesUp(history[n - 1], history[n]);
    }
  }

  /**
   * The changes the runtime makes by itself: it never gates a phase, nor sends a user's phase to
   * wait for a trigger.
   */
  predicate OwnChange(from: PhaseStatus, to: PhaseStatus) {
    LawfulChange(from, to) && !from.WaitingGate? && !to.WaitingGate? && !(from.WaitingUser? && to.WaitingTrigger?)
  }

  /** An upper bound on the runtime's own changes still to come. */
  function OwnRemaining(s: PhaseStatus): nat {
    match s
    case Pending => 3
    case WaitingGate => 3
    case WaitingUser => 2
    case WaitingTrigger => 2
    case InProgress => 1
    case _ => 0
  }

  /** No history of the runtime's own changes has more than three of them. */
  lemma {:induction false} AtMostThreeChanges(history: seq<PhaseStatus>)
    requires history != [] && forall i :: 0 <= i < |history| - 1 ==> OwnChange(history[i], history[i + 1])
    ensures Changes(history) + OwnRemaining(history[|history| - 1]) <= OwnRemaining(history[0]) <= 3
  {
    var n := |history| - 1;
    if n > 0 {
      AtMostThreeChanges(history[..n]);
      assert OwnChange(history[n - 1], history[n - 1 + 1]);
    }
  }
}
