/**
 * The write-ahead order journal (src/execution/order_journal.py): the events of one intent in file order, and the state
 * that every reader derives from them. An order number is a number, so its normal form is itself.
 */
module OrderJournal {
  import opened Common

  type IntentId = nat
  type OrderNo = nat
  type Symbol = int

  /** An entry buys, an exit sells. */
  datatype Phase = Entry | Exit

  datatype Spec = Spec(phase: Phase, symbol: Symbol, qty: nat, limit: Option<int>)

  /** What one order POST came to. */
  datatype Verdict = Accepted(no: OrderNo) | Refused | Throttled | AuthRefused | Unsent | Ambiguous

  /** `Missing` is the gateway's own finding that the broker does not list the order. */
  datatype Event =
    | Intended(spec: Spec)
    | Passed
    | Sent(baseline: Option<set<OrderNo>>)
    | Answered(verdict: Verdict)
    | Adopted(no: OrderNo)
    | Missing
    | Conflicted
    | OperatorAdopted(no: OrderNo)
    | OperatorMissing
    | Reported(orderQty: nat, filled: nat, remaining: nat, cancelled: bool, final: bool)

  type Journal = seq<Event>

  datatype IntentStatus =
    Recorded | Skipped | NotSent | Unknown | NotFound | Rejected | Acked | Filled | Partial | Unfilled | Cancelled

  // ---- Reading the events ------------------------------------------------------------------------------------------

  /**
   * What the events say. `missing`, `conflicted` and `verdict` look only past the last send; `order` is the broker
   * order that the intent is bound to, `baseline` what the first send found there; `denials` counts the sends that the
   * broker is known to have turned away, and `resent` says that a send followed a finding that the order is missing.
   */
  datatype Reading = Reading(spec: Option<Spec>, sends: nat, denials: nat, order: Option<OrderNo>,
    baseline: Option<set<OrderNo>>, refused: bool, operatorMissing: bool, passed: bool, everMissing: bool, resent: bool,
    missing: bool, conflicted: bool, verdict: Option<Verdict>, filled: nat, final: Option<IntentStatus>)

  const BLANK := Reading(None, 0, 0, None, None, false, false, false, false, false, false, false, None, 0, None)

  /** The request can still become an order when it was turned away before the book, or was never out. */
  predicate IsNegative(v: Verdict) {
    v.Throttled? || v.AuthRefused? || v.Unsent?
  }

  predicate Denies(v: Verdict) {
    v.Refused? || IsNegative(v)
  }

  function FinalStatus(qty: nat, filled: nat, cancelled: bool): IntentStatus {
    if filled == qty && qty > 0 then Filled
    else if 0 < filled < qty then IntentStatus.Partial
    else if filled == 0 && cancelled then Cancelled
    else Unfilled
  }

  function After(r: Reading, e: Event): Reading {
    match e
    case Intended(spec) => r.(spec := Some(spec))
    case Passed => r.(passed := true)
    case Sent(baseline) =>
      r.(sends := r.sends + 1, baseline := if r.baseline.None? then baseline else r.baseline,
         resent := r.resent || r.everMissing, missing := false, conflicted := false, verdict := None)
    case Answered(v) =>
      r.(verdict := Some(v), refused := r.refused || v.Refused?, denials := r.denials + if Denies(v) then 1 else 0,
         order := if v.Accepted? then Some(v.no) else r.order)
    case Adopted(no) => r.(order := Some(no))
    case Missing => r.(missing := true, everMissing := true)
    case Conflicted => r.(conflicted := true)
    case OperatorAdopted(no) => r.(order := Some(no))
    case OperatorMissing => r.(operatorMissing := true)
    case Reported(orderQty, filled, _, cancelled, final) =>
      var qty := if r.spec.Some? then r.spec.value.qty else orderQty;
      r.(filled := filled, final := if final then Some(FinalStatus(qty, filled, cancelled)) else r.final)
  }

  function Read(ev: Journal): Reading {
    if ev == [] then BLANK else After(Read(ev[..|ev| - 1]), ev[|ev| - 1])
  }

  lemma ReadNext(ev: Journal, e: Event)
    ensures Read(ev + [e]) == After(Read(ev), e)
  {
    assert (ev + [e])[..|ev|] == ev;
  }

  /** `derive_intent_state`: the first of these that applies. */
  function StatusOf(r: Reading): IntentStatus {
    if r.final.Some? then r.final.value
    else if r.order.Some? then Acked
    else if r.refused then Rejected
    else if r.sends > 0 && r.missing then NotFound
    else if r.operatorMissing then NotFound
    else if r.sends > 0 && (r.verdict.None? || r.conflicted) then IntentStatus.Unknown
    else if r.verdict == Some(Ambiguous) then IntentStatus.Unknown
    else if r.verdict.Some? && IsNegative(r.verdict.value) then NotSent
    else if r.passed then Skipped
    else Recorded
  }

  /** A submit sends only from these. */
  predicate Sendable(r: Reading) {
    StatusOf(r).Recorded? || StatusOf(r).NotSent?
  }

  /** Readers can load this event after the others: no repeated intent, no impossible fill, no verdict out of place. */
  predicate Admissible(r: Reading, e: Event) {
    match e
    case Intended(_) => r.spec.None?
    case OperatorAdopted(_) => StatusOf(r).Unknown? || StatusOf(r).NotFound?
    case OperatorMissing => StatusOf(r).Unknown? || StatusOf(r).NotFound?
    case Reported(_, filled, remaining, _, _) =>
      filled >= r.filled && (r.spec.Some? ==> filled + remaining <= r.spec.value.qty)
    case _ => true
  }

  predicate Readable(ev: Journal) {
    ev == [] || (Readable(ev[..|ev| - 1]) && Admissible(Read(ev[..|ev| - 1]), ev[|ev| - 1]))
  }

  // ---- The same by scanning the list -------------------------------------------------------------------------------

  /** The events after the last send, or all of them without one. */
  function SinceSend(ev: Journal): Journal {
    if ev == [] || ev[|ev| - 1].Sent? then [] else SinceSend(ev[..|ev| - 1]) + [ev[|ev| - 1]]
  }

  function LastVerdict(ev: Journal): Option<Verdict> {
    if ev == [] then None
    else if ev[|ev| - 1].Answered? then Some(ev[|ev| - 1].verdict) else LastVerdict(ev[..|ev| - 1])
  }

  /** These fields are what a scan of the whole list finds. */
  lemma {:induction false} ReadFindsAny(ev: Journal)
    ensures var r := Read(ev);
            && (r.refused <==> Answered(Refused) in ev) && (r.passed <==> Passed in ev)
            && (r.operatorMissing <==> OperatorMissing in ev) && (r.everMissing <==> Missing in ev)
  {
    if ev != [] {
      var before, last := ev[..|ev| - 1], ev[|ev| - 1];
      ReadFindsAny(before);
      assert ev == before + [last];
      match last {
        case Intended(_) =>
        case Passed =>
        case Sent(_) =>
        case Answered(_) =>
        case Adopted(_) =>
        case Missing =>
        case Conflicted =>
        case OperatorAdopted(_) =>
        case OperatorMissing =>
        case Reported(_, _, _, _, _) =>
      }
    }
  }

  predicate LooksPast(r: Reading, since: Journal) {
    && (r.missing <==> Missing in since) && (r.conflicted <==> Conflicted in since)
    && r.verdict == LastVerdict(since)
  }

  /** The last three fields are what a scan past the last send finds. */
  lemma {:induction false} ReadLooksPastTheSend(ev: Journal)
    ensures LooksPast(Read(ev), SinceSend(ev))
  {
    if ev != [] {
      var before, last := ev[..|ev| - 1], ev[|ev| - 1];
      ReadLooksPastTheSend(before);
      LooksPastNext(Read(before), SinceSend(before), last);
    }
  }

  lemma LooksPastNext(r: Reading, since: Journal, e: Event)
    requires LooksPast(r, since)
    ensures LooksPast(After(r, e), if e.Sent? then [] else since + [e])
  {
    LastVerdictNext(since, e);
    match e {
      case Intended(_) =>
      case Passed =>
      case Sent(_) =>
      case Answered(_) =>
      case Adopted(_) =>
      case Missing =>
      case Conflicted =>
      case OperatorAdopted(_) =>
      case OperatorMissing =>
      case Reported(_, _, _, _, _) =>
    }
  }

  lemma LastVerdictNext(ev: Journal, e: Event)
    ensures LastVerdict(ev + [e]) == if e.Answered? then Some(e.verdict) else LastVerdict(ev)
  {
    assert (ev + [e])[..|ev|] == ev;
  }

  // ---- How many orders there may be --------------------------------------------------------------------------------

  /** Nothing is known to be at the broker. */
  predicate Quiet(r: Reading) {
    var status := StatusOf(r);
    status.Recorded? || status.NotSent? || status.Skipped? || status.Rejected?
  }

  /** A send is on record and nothing after it. */
  predicate JustSent(r: Reading) {
    && r.spec.Some? && r.sends > 0 && r.order.None? && r.final.None? && !r.refused && !r.operatorMissing
    && !r.missing && !r.conflicted && r.verdict.None?
  }

  /** `held` orders of this intent are at the broker, on their way, or about to be sent. */
  predicate Counted(r: Reading, resends: bool, held: nat) {
    && held <= r.sends - r.denials <= (if r.resent then 1 else 0) + (if Quiet(r) then 0 else 1)
    && (r.resent ==> resends && r.spec.Some? && r.spec.value.phase.Exit?)
    && (r.everMissing ==> r.missing || r.resent)
    && (r.missing || r.resent ==> r.everMissing)
    && (r.sends == 0 ==> r.verdict.None? && !r.everMissing)
    && (if r.spec.Some? then r.filled <= r.spec.value.qty else r.sends == 0 && r.order.None? && r.filled == 0)
    && (r.final.Some? ==> r.order.Some? && !r.final.value.Recorded? && !r.final.value.NotSent?
                          && !r.final.value.Skipped? && !r.final.value.Rejected? && !r.final.value.Unknown?
                          && !r.final.value.NotFound?)
  }

  lemma AddFirst(e: Event, resends: bool)
    requires e.Intended? || e.Passed?
    ensures Counted(BLANK, resends, 0) && Counted(After(BLANK, e), resends, 0)
  {
  }

  lemma AddSent(r: Reading, resends: bool, held: nat, baseline: Option<set<OrderNo>>)
    requires Counted(r, resends, held) && Sendable(r) && r.spec.Some?
    ensures Counted(After(r, Sent(baseline)), resends, held + 1) && JustSent(After(r, Sent(baseline)))
  {
  }

  /** Only an exit that the gateway found missing, once, is sent again without having been turned away. */
  lemma AddResent(r: Reading, resends: bool, held: nat)
    requires Counted(r, resends, held) && resends && r.spec.Some? && r.spec.value.phase.Exit?
    requires !r.resent && r.missing && StatusOf(r).NotFound? && !r.operatorMissing
    ensures Counted(After(r, Sent(None)), resends, held + 1) && JustSent(After(r, Sent(None)))
  {
  }

  lemma AddAnswer(r: Reading, resends: bool, held: nat, v: Verdict)
    requires Counted(r, resends, held + if Denies(v) then 1 else 0) && JustSent(r)
    ensures Counted(After(r, Answered(v)), resends, held)
    ensures StatusOf(After(r, Answered(v)))
            == if v.Accepted? then Acked else if v.Refused? then Rejected
               else if v.Ambiguous? then IntentStatus.Unknown else NotSent
  {
  }

  /** Polling found no order: the intent counts as not found, and only a resend can follow. */
  lemma AddMissing(r: Reading, resends: bool, held: nat)
    requires Counted(r, resends, held) && StatusOf(r).Unknown? && !r.everMissing
    ensures Counted(After(r, Missing), resends, held) && StatusOf(After(r, Missing)).NotFound?
    ensures After(r, Missing).missing && !After(r, Missing).resent && !After(r, Missing).operatorMissing
  {
  }

  /** Other events while the fate of a send is open, and reports on a bound order. */
  lemma AddOther(r: Reading, resends: bool, held: nat, e: Event)
    requires Counted(r, resends, held)
    requires match e
             case Conflicted => StatusOf(r).Unknown?
             case Adopted(_) => StatusOf(r).Unknown?
             case OperatorMissing => StatusOf(r).Unknown?
             case OperatorAdopted(_) => r.spec.Some? && (StatusOf(r).Unknown? || StatusOf(r).NotFound?)
             case Reported(_, _, _, _, _) => r.order.Some? && Admissible(r, e)
             case Passed => Sendable(r)
             case _ => false
    ensures Counted(After(r, e), resends, held)
    ensures After(r, e).sends == r.sends && (!Sendable(r) ==> !Sendable(After(r, e)))
  {
  }
}
