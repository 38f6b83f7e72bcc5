/**
 * The order gateway over its journal (src/execution/order_gateway.py, src/daily/order_resolve.py): runs that submit,
 * resolve, reconcile and crash, one at a time under the journal lock, against a broker that may create an order long
 * after it failed to answer. Every action is one durable append, one request, or one step of the outside world.
 */
module OrderGateway {
  import opened Common
  import opened OrderJournal

  /** `owner` is the intent whose request created the order, None for an order placed elsewhere. */
  datatype Order = Order(owner: Option<IntentId>, phase: Phase, symbol: Symbol, qty: nat, price: int)

  /** `flying` are requests that may still become an order. */
  datatype Broker = Broker(orders: map<OrderNo, Order>, flying: multiset<IntentId>)

  /** Where the process that holds the lock stands; `again` marks the resend of an exit. */
  datatype Pc =
    | Idle
    | Trying(i: IntentId, left: nat)
    | Posting(i: IntentId, left: nat, again: bool)
    | Posted(i: IntentId, left: nat, again: bool)
    | Told(i: IntentId, left: nat, again: bool, verdict: Verdict)
    | Resolving(i: IntentId)
    | Absent(i: IntentId)

  datatype State = State(journals: map<IntentId, Journal>, broker: Broker, pc: Pc)

  /** `resend` is the setting that lets an exit be sent again once the broker does not list it. */
  datatype Config = Config(attempts: nat, resend: bool)

  datatype Action =
    | Plan(i: IntentId, spec: Spec)
    | PlanSkip(i: IntentId)
    | Start(i: IntentId)
    | Pass
    | GiveUp
    | Send(baseline: Option<set<OrderNo>>)
    | Post
    | Answer(verdict: Verdict, price: int)
    | Note
    | Adopt(no: OrderNo)
    | FindMany
    | LeaveUnknown
    | Miss
    | Resend
    | Rest
    | Crash
    | ReconcileAdopt(i: IntentId, no: OrderNo)
    | ReconcileConflict(i: IntentId)
    | Report(i: IntentId, report: Event)
    | OperatorAdopt(i: IntentId, no: OrderNo)
    | OperatorMiss(i: IntentId)
    | Land(i: IntentId, no: OrderNo, price: int)
    | Foreign(no: OrderNo, order: Order)

  function Ev(s: State, i: IntentId): Journal {
    if i in s.journals then s.journals[i] else []
  }

  /** What a reader derives from the journal of intent `i`. */
  function R(s: State, i: IntentId): Reading {
    Read(Ev(s, i))
  }

  function Append(s: State, i: IntentId, e: Event): State {
    s.(journals := s.journals[i := Ev(s, i) + [e]])
  }

  predicate Fits(o: Order, spec: Spec) {
    && o.symbol == spec.symbol && o.phase == spec.phase && o.qty == spec.qty
    && (spec.limit.Some? ==> o.price == spec.limit.value)
  }

  predicate IsBound(s: State, no: OrderNo) {
    exists j | j in s.journals :: R(s, j).order == Some(no)
  }

  /** An order of the intent's shape that no intent is bound to. */
  predicate Matches(s: State, i: IntentId, no: OrderNo) {
    && no in s.broker.orders && !IsBound(s, no)
    && R(s, i).spec.Some? && Fits(s.broker.orders[no], R(s, i).spec.value)
  }

  /** `match_candidates`: it was not there before the intent's first send either. */
  predicate IsCandidate(s: State, i: IntentId, no: OrderNo) {
    && Matches(s, i, no)
    && (R(s, i).baseline.Some? ==> no !in R(s, i).baseline.value)
  }

  predicate MayResend(c: Config, r: Reading) {
    c.resend && r.spec.Some? && r.spec.value.phase.Exit?
  }

  predicate Enabled(c: Config, s: State, a: Action) {
    match a
    case Plan(i, _) => s.pc.Idle? && i !in s.journals
    case PlanSkip(i) => s.pc.Idle? && i !in s.journals
    case Start(i) => s.pc.Idle? && i in s.journals && R(s, i).spec.Some? && Sendable(R(s, i))
    case Pass => s.pc.Trying?
    case GiveUp => s.pc.Trying?
    case Send(baseline) =>
      s.pc.Trying? && s.pc.left > 0 && (baseline.Some? ==> baseline.value <= s.broker.orders.Keys)
    case Post => s.pc.Posting?
    case Answer(verdict, price) =>
      && s.pc.Posted?
      && (verdict.Ambiguous? || s.pc.i in s.broker.flying)
      && (verdict.Accepted? ==> verdict.no !in s.broker.orders && MayCost(R(s, s.pc.i).spec, price))
    case Note => s.pc.Told?
    case Adopt(no) => s.pc.Resolving? && IsCandidate(s, s.pc.i, no)
    case FindMany => s.pc.Resolving?
    case LeaveUnknown => s.pc.Resolving?
    case Miss => s.pc.Resolving?
    case Resend => s.pc.Absent? && MayResend(c, R(s, s.pc.i))
    case Rest => s.pc.Absent?
    case Crash => !s.pc.Idle?
    case ReconcileAdopt(i, no) => s.pc.Idle? && StatusOf(R(s, i)).Unknown? && IsCandidate(s, i, no)
    case ReconcileConflict(i) => s.pc.Idle? && StatusOf(R(s, i)).Unknown?
    case Report(i, report) =>
      && s.pc.Idle? && report.Reported? && R(s, i).order.Some? && R(s, i).final.None?
      && Admissible(R(s, i), report)
    case OperatorAdopt(i, no) =>
      s.pc.Idle? && Matches(s, i, no) && (StatusOf(R(s, i)).Unknown? || StatusOf(R(s, i)).NotFound?)
    case OperatorMiss(i) => s.pc.Idle? && StatusOf(R(s, i)).Unknown?
    case Land(i, no, price) => i in s.broker.flying && no !in s.broker.orders && MayCost(R(s, i).spec, price)
    case Foreign(no, order) => no !in s.broker.orders && order.owner.None?
  }

  /** The broker lists a limit order at its limit. */
  predicate MayCost(spec: Option<Spec>, price: int) {
    spec.Some? && (spec.value.limit.Some? ==> price == spec.value.limit.value)
  }

  function OrderFor(i: IntentId, spec: Spec, price: int): Order {
    Order(Some(i), spec.phase, spec.symbol, spec.qty, price)
  }

  /** A request becomes an order. */
  function Landed(b: Broker, i: IntentId, no: OrderNo, spec: Spec, price: int): Broker {
    Broker(b.orders[no := OrderFor(i, spec, price)], b.flying - multiset{i})
  }

  function Tries(c: Config): nat {
    if c.attempts > 1 then c.attempts else 1
  }

  function Apply(c: Config, s: State, a: Action): State
    requires Enabled(c, s, a)
  {
    match a
    case Plan(i, spec) => Append(s, i, Intended(spec))
    case PlanSkip(i) => Append(s, i, Passed)
    case Start(i) => s.(pc := Trying(i, Tries(c)))
    case Pass => Append(s, s.pc.i, Passed).(pc := Idle)
    case GiveUp => s.(pc := Idle)
    case Send(baseline) => Append(s, s.pc.i, Sent(baseline)).(pc := Posting(s.pc.i, s.pc.left - 1, false))
    case Post =>
      s.(broker := s.broker.(flying := s.broker.flying + multiset{s.pc.i}), pc := Posted(s.pc.i, s.pc.left, s.pc.again))
    case Answer(verdict, price) =>
      s.(broker := AfterAnswer(s.broker, s.pc.i, R(s, s.pc.i).spec, verdict, price),
         pc := Told(s.pc.i, s.pc.left, s.pc.again, verdict))
    case Note => Append(s, s.pc.i, Answered(s.pc.verdict)).(pc := AfterNote(s.pc, R(s, s.pc.i)))
    case Adopt(no) => Append(s, s.pc.i, Adopted(no)).(pc := Idle)
    case FindMany => Append(s, s.pc.i, Conflicted).(pc := Idle)
    case LeaveUnknown => s.(pc := Idle)
    case Miss => Append(s, s.pc.i, Missing).(pc := Absent(s.pc.i))
    case Resend => Append(s, s.pc.i, Sent(None)).(pc := Posting(s.pc.i, 0, true))
    case Rest => s.(pc := Idle)
    case Crash => s.(pc := Idle)
    case ReconcileAdopt(i, no) => Append(s, i, Adopted(no))
    case ReconcileConflict(i) => Append(s, i, Conflicted)
    case Report(i, report) => Append(s, i, report)
    case OperatorAdopt(i, no) => Append(s, i, OperatorAdopted(no))
    case OperatorMiss(i) => Append(s, i, OperatorMissing)
    case Land(i, no, price) => s.(broker := Landed(s.broker, i, no, R(s, i).spec.value, price))
    case Foreign(no, order) => s.(broker := s.broker.(orders := s.broker.orders[no := order]))
  }

  /** A definite answer is true: accepted is an order, refused or turned away will never be one. */
  function AfterAnswer(b: Broker, i: IntentId, spec: Option<Spec>, v: Verdict, price: int): Broker {
    if v.Ambiguous? then b
    else if v.Accepted? && spec.Some? then Landed(b, i, v.no, spec.value, price)
    else b.(flying := b.flying - multiset{i})
  }

  /** What a submit does once the answer is on record. */
  function AfterNote(pc: Pc, r: Reading): Pc
    requires pc.Told?
  {
    if pc.again || pc.verdict.Accepted? || pc.verdict.Refused? then Idle
    else if IsNegative(pc.verdict) then Trying(pc.i, pc.left)
    else if r.everMissing then Idle
    else Resolving(pc.i)
  }

  // ---- The inductive invariant ---------------------------------------------------------------------------------

  function Owned(b: Broker, i: IntentId): set<OrderNo> {
    set no | no in b.orders && b.orders[no].owner == Some(i)
  }

  /** 1 while a send is on record whose request is not out, or whose denial is not on record. */
  function Pending(pc: Pc, i: IntentId): nat {
    match pc
    case Posting(j, _, _) => if i == j then 1 else 0
    case Told(j, _, _, v) => if i == j && (v.Refused? || IsNegative(v)) then 1 else 0
    case _ => 0
  }

  function Held(s: State, i: IntentId): nat {
    s.broker.flying[i] + |Owned(s.broker, i)| + Pending(s.pc, i)
  }

  predicate PcInv(s: State) {
    match s.pc
    case Idle => true
    case Trying(i, _) => i in s.journals && R(s, i).spec.Some? && Sendable(R(s, i))
    case Posting(i, _, _) => i in s.journals && JustSent(R(s, i))
    case Posted(i, _, _) => i in s.journals && JustSent(R(s, i))
    case Told(i, _, _, v) =>
      && i in s.journals && JustSent(R(s, i))
      && (v.Accepted? ==> Matches(s, i, v.no))
    case Resolving(i) => i in s.journals && StatusOf(R(s, i)).Unknown? && !R(s, i).everMissing
    case Absent(i) =>
      && i in s.journals && StatusOf(R(s, i)).NotFound? && R(s, i).missing && !R(s, i).resent
      && !R(s, i).operatorMissing
  }

  /** A bound order exists and has the shape of its intent. */
  predicate BoundWell(b: Broker, r: Reading) {
    r.order.Some? ==>
      r.order.value in b.orders && r.spec.Some? && Fits(b.orders[r.order.value], r.spec.value)
  }

  /** No broker order is bound to two intents. */
  predicate BindingInv(s: State) {
    && (forall i | i in s.journals :: BoundWell(s.broker, R(s, i)))
    && (forall i, j | i in s.journals && j in s.journals && i != j && R(s, i).order.Some? ::
          R(s, i).order != R(s, j).order)
  }

  ghost predicate CountInv(c: Config, s: State) {
    forall i: IntentId :: Counted(R(s, i), c.resend, Held(s, i))
  }

  ghost predicate Inv(c: Config, s: State) {
    CountInv(c, s) && PcInv(s) && BindingInv(s) && forall i | i in s.journals :: Readable(s.journals[i])
  }

  lemma OwnedLands(b: Broker, i: IntentId, no: OrderNo, spec: Spec, price: int, j: IntentId)
    requires no !in b.orders
    ensures |Owned(Landed(b, i, no, spec, price), j)| == |Owned(b, j)| + if i == j then 1 else 0
  {
    if i == j {
      assert Owned(Landed(b, i, no, spec, price), j) == Owned(b, j) + {no};
    } else {
      assert Owned(Landed(b, i, no, spec, price), j) == Owned(b, j);
    }
  }

  // ---- Every action keeps the invariant ------------------------------------------------------------------------

  /** The intent whose journal the action appends to, with the event. */
  function Written(c: Config, s: State, a: Action): Option<(IntentId, Event)>
    requires Enabled(c, s, a)
  {
    match a
    case Plan(i, spec) => Some((i, Intended(spec)))
    case PlanSkip(i) => Some((i, Passed))
    case Pass => Some((s.pc.i, Passed))
    case Send(baseline) => Some((s.pc.i, Sent(baseline)))
    case Note => Some((s.pc.i, Answered(s.pc.verdict)))
    case Adopt(no) => Some((s.pc.i, Adopted(no)))
    case FindMany => Some((s.pc.i, Conflicted))
    case Miss => Some((s.pc.i, Missing))
    case Resend => Some((s.pc.i, Sent(None)))
    case ReconcileAdopt(i, no) => Some((i, Adopted(no)))
    case ReconcileConflict(i) => Some((i, Conflicted))
    case Report(i, report) => Some((i, report))
    case OperatorAdopt(i, no) => Some((i, OperatorAdopted(no)))
    case OperatorMiss(i) => Some((i, OperatorMissing))
    case _ => None
  }

  lemma JournalsAfter(c: Config, s: State, a: Action)
    requires Enabled(c, s, a)
    ensures var w := Written(c, s, a);
            Apply(c, s, a).journals == if w.Some? then Append(s, w.value.0, w.value.1).journals else s.journals
  {
  }

  lemma Appended(s: State, i: IntentId, e: Event, j: IntentId)
    ensures R(Append(s, i, e), j) == if i == j then After(R(s, i), e) else R(s, j)
  {
    ReadNext(Ev(s, i), e);
  }

  lemma SameReading(s: State, t: State, i: IntentId)
    requires s.journals == t.journals
    ensures R(s, i) == R(t, i)
  {
  }

  lemma ReadingsAfter(c: Config, s: State, a: Action, i: IntentId)
    requires Enabled(c, s, a)
    ensures var w := Written(c, s, a);
            R(Apply(c, s, a), i) == if w.Some? && w.value.0 == i then After(R(s, i), w.value.1) else R(s, i)
  {
    JournalsAfter(c, s, a);
    var w := Written(c, s, a);
    if w.Some? {
      Appended(s, w.value.0, w.value.1, i);
      SameReading(Apply(c, s, a), Append(s, w.value.0, w.value.1), i);
    } else {
      SameReading(Apply(c, s, a), s, i);
    }
  }

  /** A send may hold one order more; a denial on record holds one less. */
  function HeldBound(c: Config, s: State, a: Action, i: IntentId): int
    requires Enabled(c, s, a)
  {
    var w := Written(c, s, a);
    if w.None? || w.value.0 != i then Held(s, i)
    else if w.value.1.Sent? then Held(s, i) + 1
    else if w.value.1.Answered? && Denies(w.value.1.verdict) then Held(s, i) - 1
    else Held(s, i)
  }

  predicate AtBroker(a: Action) {
    a.Post? || a.Answer? || a.Land? || a.Foreign?
  }

  lemma HeldAfterAnswer(c: Config, s: State, verdict: Verdict, price: int, i: IntentId)
    requires Enabled(c, s, Answer(verdict, price))
    ensures Held(Apply(c, s, Answer(verdict, price)), i) <= Held(s, i)
  {
    if verdict.Accepted? {
      OwnedLands(s.broker, s.pc.i, verdict.no, R(s, s.pc.i).spec.value, price, i);
    }
  }

  lemma HeldAtBroker(c: Config, s: State, a: Action, i: IntentId)
    requires Enabled(c, s, a) && AtBroker(a)
    ensures Written(c, s, a).None? && Held(Apply(c, s, a), i) <= Held(s, i)
  {
    match a {
      case Answer(verdict, price) =>
        HeldAfterAnswer(c, s, verdict, price, i);
      case Land(j, no, price) => OwnedLands(s.broker, j, no, R(s, j).spec.value, price, i);
      case Foreign(no, order) => assert Owned(Apply(c, s, a).broker, i) == Owned(s.broker, i);
      case Post =>
    }
  }

  lemma HeldElsewhere(c: Config, s: State, a: Action, i: IntentId)
    requires Enabled(c, s, a) && !AtBroker(a)
    ensures Apply(c, s, a).broker == s.broker
    ensures s.broker.flying[i] + |Owned(s.broker, i)| + Pending(Apply(c, s, a).pc, i) <= HeldBound(c, s, a, i)
  {
  }

  lemma HeldAfter(c: Config, s: State, a: Action, i: IntentId)
    requires Enabled(c, s, a)
    ensures Held(Apply(c, s, a), i) <= HeldBound(c, s, a, i)
  {
    if AtBroker(a) { HeldAtBroker(c, s, a, i); } else { HeldElsewhere(c, s, a, i); }
  }

  /** The event was written by the submitting run, not from outside it. */
  predicate InRun(a: Action) {
    a.Pass? || a.Send? || a.Note? || a.Adopt? || a.FindMany? || a.Miss? || a.Resend?
  }

  lemma CountInRun(c: Config, s: State, a: Action)
    requires Enabled(c, s, a) && InRun(a) && PcInv(s) && Counted(R(s, s.pc.i), c.resend, Held(s, s.pc.i))
    ensures var w := Written(c, s, a).value;
            && w.0 == s.pc.i && HeldBound(c, s, a, w.0) >= 0
            && Counted(After(R(s, w.0), w.1), c.resend, HeldBound(c, s, a, w.0))
  {
    var r, held := R(s, s.pc.i), Held(s, s.pc.i);
    match a {
      case Send(baseline) => AddSent(r, c.resend, held, baseline);
      case Resend => AddResent(r, c.resend, held);
      case Note => AddAnswer(r, c.resend, if Denies(s.pc.verdict) then held - 1 else held, s.pc.verdict);
      case Miss => AddMissing(r, c.resend, held);
      case Pass => AddOther(r, c.resend, held, Passed);
      case Adopt(no) => AddOther(r, c.resend, held, Adopted(no));
      case FindMany => AddOther(r, c.resend, held, Conflicted);
    }
  }

  lemma CountOutside(c: Config, s: State, a: Action)
    requires CountInv(c, s) && Enabled(c, s, a) && !InRun(a) && Written(c, s, a).Some?
    ensures var w := Written(c, s, a).value;
            HeldBound(c, s, a, w.0) == Held(s, w.0) && Counted(After(R(s, w.0), w.1), c.resend, Held(s, w.0))
  {
    var (i, e) := Written(c, s, a).value;
    assert Counted(R(s, i), c.resend, Held(s, i));
    match a {
      case Plan(_, spec) => AddFirst(Intended(spec), c.resend);
      case PlanSkip(_) => AddFirst(Passed, c.resend);
      case _ => AddOther(R(s, i), c.resend, Held(s, i), e);
    }
  }

  /** The event that an action writes keeps its journal within the count. */
  lemma CountWritten(c: Config, s: State, a: Action)
    requires Inv(c, s) && Enabled(c, s, a) && Written(c, s, a).Some?
    ensures var w := Written(c, s, a).value;
            HeldBound(c, s, a, w.0) >= 0 && Counted(After(R(s, w.0), w.1), c.resend, HeldBound(c, s, a, w.0))
  {
    if InRun(a) {
      assert Counted(R(s, s.pc.i), c.resend, Held(s, s.pc.i));
      CountInRun(c, s, a);
    } else {
      CountOutside(c, s, a);
    }
  }

  lemma StepCountAt(c: Config, s: State, a: Action, i: IntentId)
    requires Inv(c, s) && Enabled(c, s, a)
    ensures Counted(R(Apply(c, s, a), i), c.resend, Held(Apply(c, s, a), i))
  {
    ReadingsAfter(c, s, a, i);
    HeldAfter(c, s, a, i);
    var w := Written(c, s, a);
    if w.Some? && w.value.0 == i {
      CountWritten(c, s, a);
      FewerHeld(After(R(s, i), w.value.1), c.resend, HeldBound(c, s, a, i), Held(Apply(c, s, a), i));
    } else {
      FewerHeld(R(s, i), c.resend, Held(s, i), Held(Apply(c, s, a), i));
    }
  }

  lemma FewerHeld(r: Reading, resends: bool, held: nat, fewer: nat)
    requires Counted(r, resends, held) && fewer <= held
    ensures Counted(r, resends, fewer)
  {
  }

  /** Where the run stands after it has written. */
  lemma StepPcInRun(c: Config, s: State, a: Action)
    requires Enabled(c, s, a) && InRun(a) && PcInv(s) && Counted(R(s, s.pc.i), c.resend, Held(s, s.pc.i))
    ensures PcInv(Apply(c, s, a))
  {
    var r, held := R(s, s.pc.i), Held(s, s.pc.i);
    ReadingsAfter(c, s, a, s.pc.i);
    match a {
      case Send(baseline) => AddSent(r, c.resend, held, baseline);
      case Note => StepPcNotes(c, s);
      case Miss => AddMissing(r, c.resend, held);
      case Resend => AddResent(r, c.resend, held);
      case Pass =>
      case Adopt(_) =>
      case FindMany =>
    }
  }

  lemma StepPcNotes(c: Config, s: State)
    requires Enabled(c, s, Note) && PcInv(s) && Counted(R(s, s.pc.i), c.resend, Held(s, s.pc.i))
    ensures PcInv(Apply(c, s, Note))
  {
    ReadingsAfter(c, s, Note, s.pc.i);
    var held := if Denies(s.pc.verdict) then Held(s, s.pc.i) - 1 else Held(s, s.pc.i);
    AddAnswer(R(s, s.pc.i), c.resend, held, s.pc.verdict);
  }

  lemma StepPcElsewhere(c: Config, s: State, a: Action)
    requires Enabled(c, s, a) && !InRun(a) && PcInv(s) && BindingInv(s)
    ensures PcInv(Apply(c, s, a))
  {
    if !Apply(c, s, a).pc.Idle? {
      ReadingsAfter(c, s, a, Apply(c, s, a).pc.i);
      match a {
        case Answer(verdict, price) =>
          if verdict.Accepted? { AnsweredWell(c, s, verdict, price); }
        case Land(_, _, _) => StillMatches(c, s, a);
        case Foreign(_, _) => StillMatches(c, s, a);
        case _ =>
      }
    }
  }

  lemma StepPc(c: Config, s: State, a: Action)
    requires Inv(c, s) && Enabled(c, s, a)
    ensures PcInv(Apply(c, s, a))
  {
    if InRun(a) {
      assert Counted(R(s, s.pc.i), c.resend, Held(s, s.pc.i));
      StepPcInRun(c, s, a);
    } else {
      StepPcElsewhere(c, s, a);
    }
  }

  lemma NotBoundAnew(c: Config, s: State, a: Action, no: OrderNo)
    requires Enabled(c, s, a) && Written(c, s, a).None?
    ensures IsBound(Apply(c, s, a), no) <==> IsBound(s, no)
  {
    forall j: IntentId
      ensures R(Apply(c, s, a), j) == R(s, j)
    {
      ReadingsAfter(c, s, a, j);
    }
  }

  /** An accepted order is new at the broker, so no intent is bound to it yet. */
  lemma AnsweredWell(c: Config, s: State, verdict: Verdict, price: int)
    requires BindingInv(s) && Enabled(c, s, Answer(verdict, price)) && verdict.Accepted?
    ensures Matches(Apply(c, s, Answer(verdict, price)), s.pc.i, verdict.no)
  {
    NotBoundAnew(c, s, Answer(verdict, price), verdict.no);
    ReadingsAfter(c, s, Answer(verdict, price), s.pc.i);
  }

  lemma StillMatches(c: Config, s: State, a: Action)
    requires Enabled(c, s, a) && (a.Land? || a.Foreign?) && PcInv(s)
    ensures s.pc.Told? && s.pc.verdict.Accepted? ==> Matches(Apply(c, s, a), s.pc.i, s.pc.verdict.no)
  {
    if s.pc.Told? && s.pc.verdict.Accepted? {
      NotBoundAnew(c, s, a, s.pc.verdict.no);
      ReadingsAfter(c, s, a, s.pc.i);
    }
  }

  /** An action that binds an intent binds it to an order of its shape that nobody was bound to. */
  lemma BindsAnew(c: Config, s: State, a: Action)
    requires Enabled(c, s, a) && PcInv(s) && Written(c, s, a).Some?
    ensures var (i, e) := Written(c, s, a).value;
            || After(R(s, i), e).order == R(s, i).order
            || (After(R(s, i), e).order.Some? && Matches(s, i, After(R(s, i), e).order.value))
    ensures var (i, e) := Written(c, s, a).value;
            After(R(s, i), e).spec == R(s, i).spec || (i !in s.journals && After(R(s, i), e).order.None?)
  {
    var w := Written(c, s, a).value;
    match w.1 {
      case Intended(_) =>
      case Passed =>
      case Sent(_) =>
      case Answered(_) =>
      case Adopted(_) =>
      case Missing =>
      case Conflicted =>
      case OperatorAdopted(_) =>
      case OperatorMissing =>
      case Reported(_, _, _, _, _) =>
    }
  }

  lemma BrokerGrows(c: Config, s: State, a: Action)
    requires Enabled(c, s, a)
    ensures forall no | no in s.broker.orders :: no in Apply(c, s, a).broker.orders
              && Apply(c, s, a).broker.orders[no] == s.broker.orders[no]
    ensures s.journals.Keys <= Apply(c, s, a).journals.Keys
  {
  }

  lemma StepBoundWell(c: Config, s: State, a: Action, i: IntentId)
    requires Enabled(c, s, a) && PcInv(s) && BindingInv(s)
    ensures BoundWell(Apply(c, s, a).broker, R(Apply(c, s, a), i))
  {
    ReadingsAfter(c, s, a, i);
    BrokerGrows(c, s, a);
    assert i !in s.journals ==> R(s, i) == BLANK;
    assert BoundWell(s.broker, R(s, i));
    if Written(c, s, a).Some? && Written(c, s, a).value.0 == i {
      BindsAnew(c, s, a);
    }
  }

  lemma StepDistinct(c: Config, s: State, a: Action, i: IntentId, j: IntentId)
    requires Enabled(c, s, a) && PcInv(s) && BindingInv(s) && i != j
    ensures R(Apply(c, s, a), i).order.Some? ==> R(Apply(c, s, a), i).order != R(Apply(c, s, a), j).order
  {
    ReadingsAfter(c, s, a, i);
    ReadingsAfter(c, s, a, j);
    assert i !in s.journals ==> R(s, i) == BLANK;
    assert j !in s.journals ==> R(s, j) == BLANK;
    if Written(c, s, a).Some? {
      BindsAnew(c, s, a);
    }
  }

  lemma StepReadable(c: Config, s: State, a: Action)
    requires Inv(c, s) && Enabled(c, s, a)
    ensures forall i | i in Apply(c, s, a).journals :: Readable(Apply(c, s, a).journals[i])
  {
    JournalsAfter(c, s, a);
    var w := Written(c, s, a);
    if w.Some? {
      WritesAdmissibly(c, s, a);
      ReadableNext(Ev(s, w.value.0), w.value.1);
    }
  }

  lemma WritesAdmissibly(c: Config, s: State, a: Action)
    requires Enabled(c, s, a) && Written(c, s, a).Some?
    ensures Admissible(R(s, Written(c, s, a).value.0), Written(c, s, a).value.1)
  {
  }

  lemma ReadableNext(ev: Journal, e: Event)
    requires Readable(ev) && Admissible(Read(ev), e)
    ensures Readable(ev + [e])
  {
    assert (ev + [e])[..|ev|] == ev;
  }

  lemma StepInv(c: Config, s: State, a: Action)
    requires Inv(c, s) && Enabled(c, s, a)
    ensures Inv(c, Apply(c, s, a))
  {
    var s' := Apply(c, s, a);
    forall i: IntentId
      ensures Counted(R(s', i), c.resend, Held(s', i))
      ensures BoundWell(s'.broker, R(s', i))
    {
      StepCountAt(c, s, a, i);
      StepBoundWell(c, s, a, i);
    }
    forall i, j | i in s'.journals && j in s'.journals && i != j && R(s', i).order.Some?
      ensures R(s', i).order != R(s', j).order
    {
      StepDistinct(c, s, a, i, j);
    }
    StepPc(c, s, a);
    StepReadable(c, s, a);
  }
}
