/**
 * What the gateway's journal guarantees over every run: how many orders an intent can have, that a status tells the
 * truth about the broker, that no order serves two intents, and that an intent left behind is not sent again.
 */
module OrderRuns {
  import opened Common
  import opened OrderJournal
  import opened OrderGateway

  // ---- What holds over every run -------------------------------------------------------------------------------

  /** An empty journal; the broker may hold orders placed elsewhere. */
  predicate Initial(s: State) {
    && s.journals == map[] && s.pc.Idle? && s.broker.flying == multiset{}
    && forall no | no in s.broker.orders :: s.broker.orders[no].owner.None?
  }

  ghost predicate Follows(c: Config, trace: seq<State>, actions: seq<Action>) {
    && |trace| == |actions| + 1
    && (forall k | 0 <= k < |actions| :: Enabled(c, trace[k], actions[k]))
    && (forall k | 0 <= k < |actions| :: trace[k + 1] == Apply(c, trace[k], actions[k]))
  }

  ghost predicate IsRun(c: Config, trace: seq<State>, actions: seq<Action>) {
    Follows(c, trace, actions) && Initial(trace[0])
  }

  lemma InitialInv(c: Config, s: State)
    requires Initial(s)
    ensures Inv(c, s)
  {
    forall i: IntentId
      ensures Counted(R(s, i), c.resend, Held(s, i))
    {
      AddFirst(Passed, c.resend);
      assert Owned(s.broker, i) == {};
    }
  }

  lemma {:induction false} RunInv(c: Config, trace: seq<State>, actions: seq<Action>, k: nat)
    requires IsRun(c, trace, actions) && k < |trace|
    ensures Inv(c, trace[k])
  {
    if k == 0 {
      InitialInv(c, trace[0]);
    } else {
      RunInv(c, trace, actions, k - 1);
      StepInv(c, trace[k - 1], actions[k - 1]);
    }
  }

  /**
   * Whatever crashes, reruns and late answers there were, an intent has at most one order at the broker; only an exit
   * that was sent again after the gateway had found its order missing can have two.
   */
  lemma AtMostOneOrder(c: Config, trace: seq<State>, actions: seq<Action>, k: nat, i: IntentId)
    requires IsRun(c, trace, actions) && k < |trace|
    ensures |Owned(trace[k].broker, i)| + trace[k].broker.flying[i] <= if R(trace[k], i).resent then 2 else 1
    ensures R(trace[k], i).resent ==> MayResend(c, R(trace[k], i)) && R(trace[k], i).everMissing
  {
    RunInv(c, trace, actions, k);
    assert Counted(R(trace[k], i), c.resend, Held(trace[k], i));
  }

  /** An intent that reads as never sent, turned away, skipped or rejected has no order, and none on its way. */
  lemma QuietMeansNoOrder(c: Config, trace: seq<State>, actions: seq<Action>, k: nat, i: IntentId)
    requires IsRun(c, trace, actions) && k < |trace|
    requires Quiet(R(trace[k], i)) && !R(trace[k], i).resent
    ensures Owned(trace[k].broker, i) == {} && trace[k].broker.flying[i] == 0
  {
    RunInv(c, trace, actions, k);
    assert Counted(R(trace[k], i), c.resend, Held(trace[k], i));
  }

  /** An intent that reads as acknowledged, or as ended at the broker, has an order of its shape and whole quantity. */
  lemma AckedMeansOrder(c: Config, trace: seq<State>, actions: seq<Action>, k: nat, i: IntentId)
    requires IsRun(c, trace, actions) && k < |trace|
    requires StatusOf(R(trace[k], i)).Acked? || R(trace[k], i).final.Some?
    ensures var r := R(trace[k], i);
            && r.order.Some? && r.spec.Some? && r.order.value in trace[k].broker.orders
            && Fits(trace[k].broker.orders[r.order.value], r.spec.value)
  {
    RunInv(c, trace, actions, k);
    assert Counted(R(trace[k], i), c.resend, Held(trace[k], i));
    assert i in trace[k].journals && BoundWell(trace[k].broker, R(trace[k], i));
  }

  /** A broker order is bound to one intent at most, and to one of its shape. */
  lemma OneOrderOneIntent(c: Config, trace: seq<State>, actions: seq<Action>, k: nat, i: IntentId, j: IntentId,
      no: OrderNo)
    requires IsRun(c, trace, actions) && k < |trace|
    requires R(trace[k], i).order == Some(no) == R(trace[k], j).order
    ensures i == j && no in trace[k].broker.orders
    ensures R(trace[k], i).spec.Some? && Fits(trace[k].broker.orders[no], R(trace[k], i).spec.value)
  {
    RunInv(c, trace, actions, k);
    assert i in trace[k].journals && j in trace[k].journals;
    assert BoundWell(trace[k].broker, R(trace[k], i));
  }

  /** Every journal can always be loaded, and shows no more filled than was ordered. */
  lemma JournalsLoad(c: Config, trace: seq<State>, actions: seq<Action>, k: nat, i: IntentId)
    requires IsRun(c, trace, actions) && k < |trace| && i in trace[k].journals
    ensures Readable(trace[k].journals[i])
    ensures R(trace[k], i).spec.Some? ==> R(trace[k], i).filled <= R(trace[k], i).spec.value.qty
  {
    RunInv(c, trace, actions, k);
    assert Counted(R(trace[k], i), c.resend, Held(trace[k], i));
  }

  /** No submit is at work on the intent. */
  predicate Away(pc: Pc, i: IntentId) {
    pc.Idle? || pc.i != i
  }

  /** In any other state than sendable, and no submit at work on it. */
  predicate LeftBehind(s: State, i: IntentId, sends: nat) {
    i in s.journals && !Sendable(R(s, i)) && Away(s.pc, i) && R(s, i).sends == sends
  }

  lemma StaysBehind(c: Config, s: State, a: Action, i: IntentId, sends: nat)
    requires Inv(c, s) && Enabled(c, s, a) && LeftBehind(s, i, sends)
    ensures LeftBehind(Apply(c, s, a), i, sends)
  {
    JournalsAfter(c, s, a);
    ReadingsAfter(c, s, a, i);
    var w := Written(c, s, a);
    if w.Some? && w.value.0 == i {
      assert Counted(R(s, i), c.resend, Held(s, i));
      AddOther(R(s, i), c.resend, Held(s, i), w.value.1);
    }
  }

  lemma RunStaysBehind(c: Config, trace: seq<State>, actions: seq<Action>, k: nat, i: IntentId, sends: nat)
    requires IsRun(c, trace, actions) && k < |actions| && LeftBehind(trace[k], i, sends)
    ensures LeftBehind(trace[k + 1], i, sends)
  {
    RunInv(c, trace, actions, k);
    StaysBehind(c, trace[k], actions[k], i, sends);
  }

  /** An intent left behind is never sent again: not by reruns, nor after crashes. */
  lemma {:induction false} NeverSentAgain(c: Config, trace: seq<State>, actions: seq<Action>, j: nat, k: nat,
      i: IntentId, sends: nat)
    requires IsRun(c, trace, actions) && j <= k < |trace| && LeftBehind(trace[j], i, sends)
    ensures LeftBehind(trace[k], i, sends)
  {
    if j < k {
      NeverSentAgain(c, trace, actions, j, k - 1, i, sends);
      RunStaysBehind(c, trace, actions, k - 1, i, sends);
    }
  }

  // ---- An exit with two orders ---------------------------------------------------------------------------------

  function TapeEvent(spec: Spec, m: nat): Event {
    match m
    case 0 => Intended(spec)
    case 1 => Sent(None)
    case 2 => Answered(Ambiguous)
    case 3 => Missing
    case 4 => Sent(None)
    case _ => Answered(Accepted(1))
  }

  function Tape(spec: Spec, m: nat): Journal {
    if m == 0 then [] else Tape(spec, m - 1) + [TapeEvent(spec, m - 1)]
  }

  function ListPrice(spec: Spec): int {
    if spec.limit.Some? then spec.limit.value else 0
  }

  /** A lost answer, an order not listed yet, a resend that is accepted, and then the first order after all. */
  function Story(c: Config, spec: Spec, n: nat): State {
    var none, lost := Broker(map[], multiset{}), Broker(map[], multiset{0});
    var second := map[1 := OrderFor(0, spec, ListPrice(spec))];
    match n
    case 0 => State(map[], none, Idle)
    case 1 => State(map[0 := Tape(spec, 1)], none, Idle)
    case 2 => State(map[0 := Tape(spec, 1)], none, Trying(0, Tries(c)))
    case 3 => State(map[0 := Tape(spec, 2)], none, Posting(0, Tries(c) - 1, false))
    case 4 => State(map[0 := Tape(spec, 2)], lost, Posted(0, Tries(c) - 1, false))
    case 5 => State(map[0 := Tape(spec, 2)], lost, Told(0, Tries(c) - 1, false, Ambiguous))
    case 6 => State(map[0 := Tape(spec, 3)], lost, Resolving(0))
    case 7 => State(map[0 := Tape(spec, 4)], lost, Absent(0))
    case 8 => State(map[0 := Tape(spec, 5)], lost, Posting(0, 0, true))
    case 9 => State(map[0 := Tape(spec, 5)], Broker(map[], multiset{0, 0}), Posted(0, 0, true))
    case 10 => State(map[0 := Tape(spec, 5)], Broker(second, multiset{0}), Told(0, 0, true, Accepted(1)))
    case 11 => State(map[0 := Tape(spec, 6)], Broker(second, multiset{0}), Idle)
    case _ => State(map[0 := Tape(spec, 6)], Broker(second[2 := OrderFor(0, spec, ListPrice(spec))], multiset{}), Idle)
  }

  function StoryAction(spec: Spec, n: nat): Action {
    match n
    case 0 => Plan(0, spec)
    case 1 => Start(0)
    case 2 => Send(None)
    case 3 => Post
    case 4 => Answer(Ambiguous, 0)
    case 5 => Note
    case 6 => Miss
    case 7 => Resend
    case 8 => Post
    case 9 => Answer(Accepted(1), ListPrice(spec))
    case 10 => Note
    case _ => Land(0, 2, ListPrice(spec))
  }

  predicate StorySteps(c: Config, spec: Spec, n: nat) {
    && Enabled(c, Story(c, spec, n), StoryAction(spec, n))
    && Apply(c, Story(c, spec, n), StoryAction(spec, n)) == Story(c, spec, n + 1)
  }

  /** What the tape reads as, as far as the story asks. */
  lemma {:induction false} ReadTape(spec: Spec, m: nat)
    requires 0 < m <= 6
    ensures Read(Tape(spec, m)).spec == Some(spec)
    ensures m == 1 ==> Sendable(Read(Tape(spec, m)))
    ensures m <= 3 ==> !Read(Tape(spec, m)).everMissing
  {
    ReadNext(Tape(spec, m - 1), TapeEvent(spec, m - 1));
    if m > 1 { ReadTape(spec, m - 1); }
    match TapeEvent(spec, m - 1) {
      case Intended(_) =>
      case Sent(_) =>
      case Answered(_) =>
      case Missing =>
    }
  }

  lemma StoryPlans(c: Config, spec: Spec)
    ensures StorySteps(c, spec, 0) && StorySteps(c, spec, 1)
  {
    ReadTape(spec, 1);
  }

  lemma StorySends(c: Config, spec: Spec)
    ensures StorySteps(c, spec, 2) && StorySteps(c, spec, 3)
  {
  }

  lemma StoryLosesAnswer(c: Config, spec: Spec)
    ensures StorySteps(c, spec, 4) && StorySteps(c, spec, 5)
  {
    ReadTape(spec, 2);
  }

  lemma StoryFindsNothing(c: Config, spec: Spec)
    ensures StorySteps(c, spec, 6)
  {
  }

  lemma StoryResends(c: Config, spec: Spec)
    requires c.resend && spec.phase.Exit?
    ensures StorySteps(c, spec, 7) && StorySteps(c, spec, 8)
  {
    ReadTape(spec, 4);
  }

  lemma StoryIsAccepted(c: Config, spec: Spec)
    ensures StorySteps(c, spec, 9)
  {
    ReadTape(spec, 5);
    assert multiset{0, 0} - multiset{0} == multiset{0};
  }

  lemma StoryNotes(c: Config, spec: Spec)
    ensures StorySteps(c, spec, 10)
  {
    ReadTape(spec, 5);
  }

  lemma StoryEnds(c: Config, spec: Spec)
    ensures StorySteps(c, spec, 11)
  {
    ReadTape(spec, 6);
    assert multiset{0} - multiset{0} == multiset{};
  }

  lemma StoryStep(c: Config, spec: Spec, n: nat)
    requires c.resend && spec.phase.Exit? && n < 12
    ensures StorySteps(c, spec, n)
  {
    StoryPlans(c, spec);
    StorySends(c, spec);
    StoryLosesAnswer(c, spec);
    StoryFindsNothing(c, spec);
    StoryResends(c, spec);
    StoryIsAccepted(c, spec);
    StoryNotes(c, spec);
    StoryEnds(c, spec);
  }

  /** With the resend switched on, every exit can end with two orders. */
  lemma TwoOrders(c: Config, spec: Spec) returns (trace: seq<State>, actions: seq<Action>)
    requires c.resend && spec.phase.Exit?
    ensures IsRun(c, trace, actions) && |trace| == 13
    ensures R(trace[12], 0).spec == Some(spec) && |Owned(trace[12].broker, 0)| == 2
  {
    trace := seq(13, n requires 0 <= n => Story(c, spec, n));
    actions := seq(12, n requires 0 <= n => StoryAction(spec, n));
    forall n: nat | n < 12
      ensures Enabled(c, trace[n], actions[n]) && trace[n + 1] == Apply(c, trace[n], actions[n])
    {
      StoryStep(c, spec, n);
    }
    ReadTape(spec, 6);
    assert Owned(trace[12].broker, 0) == {1, 2};
  }

  /** At most one order, in every run: exactly when the intent is no exit or exits are never sent again. */
  lemma OneOrderIff(c: Config, spec: Spec)
    ensures (forall trace: seq<State>, actions: seq<Action>, k: nat, i: IntentId |
               IsRun(c, trace, actions) && k < |trace| && R(trace[k], i).spec == Some(spec) ::
               |Owned(trace[k].broker, i)| <= 1)
            <==> !(c.resend && spec.phase.Exit?)
  {
    if c.resend && spec.phase.Exit? {
      var trace, actions := TwoOrders(c, spec);
      assert IsRun(c, trace, actions) && R(trace[12], 0).spec == Some(spec);
    } else {
      forall trace: seq<State>, actions: seq<Action>, k: nat, i: IntentId |
        IsRun(c, trace, actions) && k < |trace| && R(trace[k], i).spec == Some(spec)
        ensures |Owned(trace[k].broker, i)| <= 1
      {
        AtMostOneOrder(c, trace, actions, k, i);
      }
    }
  }
}
