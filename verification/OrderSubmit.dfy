/**
 * `OrderGateway.submit` and `_resolve_unknown` (src/execution/order_gateway.py) as the source writes them: reads and
 * appends of the journal between requests to the broker. A submit is proved to perform actions of `OrderGateway`.
 */
module OrderSubmit {
  import opened Common
  import opened OrderJournal
  import opened OrderGateway

  /** A row of the broker's order list. */
  type Listing = seq<(OrderNo, Order)>

  /**
   * What the outside answers one submit: the HALT file when it starts and after the baseline read, the risk refusal,
   * the baseline, and by the attempts left the deadline and the answers; `polls(k)` is None when the k-th list is
   * unreadable. `maySell` says that HALT, position and deadline allow a resend, `again` is its answer.
   */
  datatype World = World(halted: bool, refused: bool, baseline: Option<set<OrderNo>>, haltedLater: bool,
    late: nat -> bool, answers: nat -> (Verdict, int), polls: nat -> Option<Listing>, maySell: bool,
    again: (Verdict, int))

  datatype Finding = One(no: OrderNo) | Several | Nothing | Unreadable

  predicate Lists(listing: Listing, no: OrderNo) {
    exists k | 0 <= k < |listing| :: listing[k].0 == no
  }

  /** The first `k` lists were readable and showed no candidate. */
  ghost predicate QuietUntil(s: State, i: IntentId, w: World, k: nat) {
    forall j: nat | j < k :: w.polls(j).Some? && forall no | Lists(w.polls(j).value, no) :: !IsCandidate(s, i, no)
  }

  /** The k-th list ends the search: it shows one candidate, or several, or cannot be read. */
  ghost predicate Ends(s: State, i: IntentId, w: World, k: nat, finding: Finding) {
    && QuietUntil(s, i, w, k) && (finding.Unreadable? <==> w.polls(k).None?)
    && match finding
       case One(no) => forall m :: Lists(w.polls(k).value, m) && IsCandidate(s, i, m) <==> m == no
       case Several =>
         exists a, b | a != b :: Lists(w.polls(k).value, a) && Lists(w.polls(k).value, b)
                                 && IsCandidate(s, i, a) && IsCandidate(s, i, b)
       case Nothing => false
       case Unreadable => true
  }

  /** One submit of an intent; `missed` says that its order was once found missing. */
  datatype Case = Case(c: Config, spec: Spec, missed: bool, w: World)

  /** Where the send loop stands: whether anything was sent before, the attempts left, and the baseline to record. */
  datatype Turn = Turn(sent: bool, left: nat, baseline: Option<set<OrderNo>>)

  /** What resolving an ambiguous send writes. */
  function Resolution(c: Config, spec: Spec, w: World, finding: Finding): Journal {
    match finding
    case One(no) => [Adopted(no)]
    case Several => [Conflicted]
    case Unreadable => []
    case Nothing =>
      [Missing] + if c.resend && spec.phase.Exit? && w.maySell then [Sent(None)] + [Answered(w.again.0)] else []
  }

  /** What one attempt writes: a skip when it is too late, or the send, its answer and what follows from that. */
  function AttemptEvents(x: Case, turn: Turn, finding: Finding): Journal
    requires turn.left > 0
  {
    var answer := x.w.answers(turn.left - 1).0;
    if x.w.late(turn.left - 1) then if turn.sent then [] else [Passed]
    else
      [Sent(turn.baseline)] + [Answered(answer)]
      + if Searches(x, turn) then Resolution(x.c, x.spec, x.w, finding) else []
  }

  /** The broker turned the request away and may be asked again. */
  predicate GoesOn(x: Case, turn: Turn)
    requires turn.left > 0
  {
    !x.w.late(turn.left - 1) && IsNegative(x.w.answers(turn.left - 1).0)
  }

  /** The answer was ambiguous, so the broker's lists are searched. */
  predicate Searches(x: Case, turn: Turn)
    requires turn.left > 0
  {
    !x.w.late(turn.left - 1) && x.w.answers(turn.left - 1).0.Ambiguous? && !x.missed
  }

  /** The next attempt records no baseline. */
  function Next(turn: Turn): Turn
    requires turn.left > 0
  {
    Turn(true, turn.left - 1, None)
  }

  /** What the send loop writes from this turn on. */
  function LoopEvents(x: Case, turn: Turn, finding: Finding): Journal
    decreases turn.left
  {
    if turn.left == 0 then []
    else if GoesOn(x, turn) then AttemptEvents(x, turn, finding) + LoopEvents(x, Next(turn), finding)
    else AttemptEvents(x, turn, finding)
  }

  predicate LoopSearches(x: Case, turn: Turn)
    decreases turn.left
  {
    turn.left > 0 && if GoesOn(x, turn) then LoopSearches(x, Next(turn)) else Searches(x, turn)
  }

  /** What a whole submit writes. */
  function SubmitEvents(c: Config, r: Reading, w: World, finding: Finding): Journal {
    if !Sendable(r) || r.spec.None? then []
    else if w.halted || (r.sends == 0 && (w.refused || w.haltedLater)) then [Passed]
    else LoopEvents(CaseOf(c, r, w), FirstTurn(c, r, w), finding)
  }

  predicate SubmitSearches(c: Config, r: Reading, w: World) {
    && Sendable(r) && r.spec.Some? && !w.halted && !(r.sends == 0 && (w.refused || w.haltedLater))
    && LoopSearches(CaseOf(c, r, w), FirstTurn(c, r, w))
  }

  function CaseOf(c: Config, r: Reading, w: World): Case
    requires r.spec.Some?
  {
    Case(c, r.spec.value, r.everMissing, w)
  }

  /** Only the first send of an intent records what the broker already listed. */
  function FirstTurn(c: Config, r: Reading, w: World): Turn {
    Turn(r.sends > 0, Tries(c), if r.sends == 0 then w.baseline else None)
  }

  // ---- How often a submit sends --------------------------------------------------------------------------------

  function SendsIn(ev: Journal): nat {
    if ev == [] then 0 else SendsIn(ev[..|ev| - 1]) + if ev[|ev| - 1].Sent? then 1 else 0
  }

  lemma {:induction false} SendsInBoth(a: Journal, b: Journal)
    ensures SendsIn(a + b) == SendsIn(a) + SendsIn(b)
  {
    if b == [] {
      assert a + b == a;
    } else {
      assert (a + b)[..|a + b| - 1] == a + b[..|b| - 1];
      SendsInBoth(a, b[..|b| - 1]);
    }
  }

  lemma ShortSends(a: Event, b: Event)
    ensures SendsIn([a]) == (if a.Sent? then 1 else 0)
    ensures SendsIn([a] + [b]) == (if a.Sent? then 1 else 0) + if b.Sent? then 1 else 0
  {
    assert [a][..0] == [] && ([a] + [b])[..1] == [a];
  }

  lemma ResolutionSends(c: Config, spec: Spec, w: World, finding: Finding)
    ensures SendsIn(Resolution(c, spec, w, finding)) <= if c.resend && spec.phase.Exit? then 1 else 0
  {
    match finding {
      case One(no) => ShortSends(Adopted(no), Passed);
      case Several => ShortSends(Conflicted, Passed);
      case Unreadable =>
      case Nothing =>
        ShortSends(Missing, Passed);
        ShortSends(Sent(None), Answered(w.again.0));
        SendsInBoth([Missing], [Sent(None)] + [Answered(w.again.0)]);
        assert [Missing] + [] == [Missing];
    }
  }

  lemma AttemptSends(x: Case, turn: Turn, finding: Finding)
    requires turn.left > 0
    ensures SendsIn(AttemptEvents(x, turn, finding))
            <= if GoesOn(x, turn) || !(x.c.resend && x.spec.phase.Exit?) then 1 else 2
  {
    var answer := Answered(x.w.answers(turn.left - 1).0);
    ResolutionSends(x.c, x.spec, x.w, finding);
    ShortSends(Passed, Passed);
    ShortSends(Sent(turn.baseline), answer);
    SendsInBoth([Sent(turn.baseline)] + [answer], Resolution(x.c, x.spec, x.w, finding));
    assert [Sent(turn.baseline)] + [answer] + [] == [Sent(turn.baseline)] + [answer];
  }

  /** A submit sends at most once for every attempt it has, and once more only when it may resend. */
  lemma {:induction false} LoopSends(x: Case, turn: Turn, finding: Finding)
    ensures SendsIn(LoopEvents(x, turn, finding)) <= turn.left + if x.c.resend && x.spec.phase.Exit? then 1 else 0
    decreases turn.left
  {
    if turn.left > 0 {
      AttemptSends(x, turn, finding);
      if GoesOn(x, turn) {
        LoopSends(x, Next(turn), finding);
        SendsInBoth(AttemptEvents(x, turn, finding), LoopEvents(x, Next(turn), finding));
      }
    }
  }

  /** A whole submit sends no more than that, and nothing for an intent that is settled or whose fate is open. */
  lemma SubmitSends(c: Config, r: Reading, w: World, finding: Finding)
    ensures var exit := r.spec.Some? && r.spec.value.phase.Exit?;
            SendsIn(SubmitEvents(c, r, w, finding))
            <= if Sendable(r) then Tries(c) + if c.resend && exit then 1 else 0 else 0
  {
    ShortSends(Passed, Passed);
    if r.spec.Some? {
      LoopSends(CaseOf(c, r, w), FirstTurn(c, r, w), finding);
    }
  }

  // ---- How far the loop has come -------------------------------------------------------------------------------

  type Journals = map<IntentId, Journal>

  /** The journal of `i` has `ev` more, and nothing else is different. */
  predicate Wrote(before: Journals, i: IntentId, ev: Journal, now: Journals) {
    i in before && now == before[i := before[i] + ev]
  }

  lemma WroteNothing(journals: Journals, i: IntentId)
    requires i in journals
    ensures Wrote(journals, i, [], journals)
  {
    assert journals[i] + [] == journals[i];
  }

  lemma WroteBoth(a: Journals, b: Journals, c: Journals, i: IntentId, first: Journal, second: Journal)
    requires Wrote(a, i, first, b) && Wrote(b, i, second, c)
    ensures Wrote(a, i, first + second, c)
  {
    assert a[i] + (first + second) == a[i] + first + second;
  }

  /** From `first` to `turn` the loop led from `before` to `now`: what it writes from there on completes the loop. */
  ghost predicate Toward(before: Journals, now: Journals, i: IntentId, x: Case, first: Turn, turn: Turn) {
    && (LoopSearches(x, first) <==> LoopSearches(x, turn))
    && forall f, end | Wrote(now, i, LoopEvents(x, turn, f), end) :: Wrote(before, i, LoopEvents(x, first, f), end)
  }

  lemma Onward(before: Journals, now: Journals, later: Journals, i: IntentId, x: Case, first: Turn, turn: Turn,
      finding: Finding)
    requires Toward(before, now, i, x, first, turn) && turn.left > 0 && GoesOn(x, turn)
    requires Wrote(now, i, AttemptEvents(x, turn, finding), later)
    ensures Toward(before, later, i, x, first, Next(turn))
  {
    forall f, end | Wrote(later, i, LoopEvents(x, Next(turn), f), end)
      ensures Wrote(before, i, LoopEvents(x, first, f), end)
    {
      assert AttemptEvents(x, turn, f) == AttemptEvents(x, turn, finding);
      WroteBoth(now, later, end, i, AttemptEvents(x, turn, f), LoopEvents(x, Next(turn), f));
      assert Wrote(now, i, LoopEvents(x, turn, f), end);
    }
  }

  lemma Arrives(before: Journals, now: Journals, end: Journals, i: IntentId, x: Case, first: Turn, turn: Turn,
      finding: Finding)
    requires Toward(before, now, i, x, first, turn) && turn.left > 0 && !GoesOn(x, turn)
    requires Wrote(now, i, AttemptEvents(x, turn, finding), end)
    ensures Wrote(before, i, LoopEvents(x, first, finding), end)
    ensures LoopSearches(x, first) <==> Searches(x, turn)
  {
    assert Wrote(now, i, LoopEvents(x, turn, finding), end);
  }

  lemma RunsOut(before: Journals, now: Journals, i: IntentId, x: Case, first: Turn, turn: Turn, finding: Finding)
    requires Toward(before, now, i, x, first, turn) && turn.left == 0 && i in now
    ensures Wrote(before, i, LoopEvents(x, first, finding), now) && !LoopSearches(x, first)
  {
    WroteNothing(now, i);
    assert Wrote(now, i, LoopEvents(x, turn, finding), now);
  }

  // ---- Performing the actions of a run -------------------------------------------------------------------------

  /** The state after `actions`, or None when one of them is not enabled. */
  ghost function Execute(c: Config, s: State, actions: seq<Action>): Option<State> {
    if actions == [] then Some(s)
    else
      var before := Execute(c, s, actions[..|actions| - 1]);
      if before.Some? && Enabled(c, before.value, actions[|actions| - 1])
      then Some(Apply(c, before.value, actions[|actions| - 1]))
      else None
  }

  /** Whatever a method performs from a state of a run, the intents still have one order each, or two after a resend. */
  lemma {:induction false} ExecuteKeepsOneOrder(c: Config, s: State, actions: seq<Action>, i: IntentId)
    requires Inv(c, s) && Execute(c, s, actions).Some?
    ensures var t := Execute(c, s, actions).value;
            Inv(c, t)
            && |Owned(t.broker, i)| + t.broker.flying[i] <= if MayResend(c, R(t, i)) && R(t, i).resent then 2 else 1
  {
    if actions != [] {
      var earlier := actions[..|actions| - 1];
      ExecuteKeepsOneOrder(c, s, earlier, i);
      StepInv(c, Execute(c, s, earlier).value, actions[|actions| - 1]);
    }
    var t := Execute(c, s, actions).value;
    assert Counted(R(t, i), c.resend, Held(t, i));
  }

  /** One more action of the run. */
  lemma Take(c: Config, s: State, actions: seq<Action>, t: State, a: Action) returns (more: seq<Action>, next: State)
    requires Execute(c, s, actions) == Some(t) && Enabled(c, t, a)
    ensures more == actions + [a] && next == Apply(c, t, a) && Execute(c, s, more) == Some(next)
    ensures next.journals == var w := Written(c, t, a);
              if w.Some? then Append(t, w.value.0, w.value.1).journals else t.journals
  {
    more, next := actions + [a], Apply(c, t, a);
    assert more[..|actions|] == actions;
    JournalsAfter(c, t, a);
  }

  type Book = map<OrderNo, Order>

  /** An answer that the broker may give to a request of this intent. */
  predicate MayAnswer(book: Book, spec: Option<Spec>, answer: (Verdict, int)) {
    answer.0.Accepted? ==> answer.0.no !in book && MayCost(spec, answer.1)
  }

  ghost predicate Answers(book: Book, spec: Option<Spec>, w: World) {
    && (w.baseline.Some? ==> w.baseline.value <= book.Keys)
    && (forall k: nat :: MayAnswer(book, spec, w.answers(k)))
    && MayAnswer(book, spec, w.again)
    && (forall k: nat | w.polls(k).Some? :: Shows(book, w.polls(k).value))
  }

  /** The list shows orders of the broker, each once; it may be behind. */
  predicate Shows(book: Book, listing: Listing) {
    && (forall k | 0 <= k < |listing| :: listing[k].0 in book && book[listing[k].0] == listing[k].1)
    && forall j, k | 0 <= j < k < |listing| :: listing[j].0 != listing[k].0
  }

  /** What is left once a SEND is on record: the request itself. */
  lemma RequestGoesOut(c: Config, s: State, actions: seq<Action>, t: State, i: IntentId, left: nat, again: bool,
      baseline: Option<set<OrderNo>>)
    returns (more: seq<Action>, posted: State)
    requires Execute(c, s, actions) == Some(t)
    requires if again then t.pc == Absent(i) && left == 0 && MayResend(c, R(t, i)) && baseline.None?
             else t.pc == Trying(i, left + 1) && (baseline.Some? ==> baseline.value <= t.broker.orders.Keys)
    ensures Execute(c, s, more) == Some(posted) && posted.pc == Posted(i, left, again)
    ensures posted.journals == Append(t, i, Sent(baseline)).journals
    ensures posted.broker.orders == t.broker.orders && i in posted.broker.flying
  {
    var sent;
    if again {
      more, sent := Take(c, s, actions, t, Resend);
    } else {
      more, sent := Take(c, s, actions, t, Send(baseline));
    }
    more, posted := Take(c, s, more, sent, Post);
  }

  lemma ReadSent(s: State, t: State, i: IntentId, baseline: Option<set<OrderNo>>)
    requires t.journals == Append(s, i, Sent(baseline)).journals
    ensures R(t, i).spec == R(s, i).spec && R(t, i).everMissing == R(s, i).everMissing
  {
    Appended(s, i, Sent(baseline), i);
    SameReading(t, Append(s, i, Sent(baseline)), i);
  }

  lemma ReadAttempt(ev: Journal, baseline: Option<set<OrderNo>>, v: Verdict)
    ensures var r := Read(ev + ([Sent(baseline)] + [Answered(v)]));
            r.sends > 0 && r.spec == Read(ev).spec && r.everMissing == Read(ev).everMissing
  {
    ReadNext(ev, Sent(baseline));
    ReadNext(ev + [Sent(baseline)], Answered(v));
    assert ev + ([Sent(baseline)] + [Answered(v)]) == ev + [Sent(baseline)] + [Answered(v)];
  }

  lemma AnswerComesIn(c: Config, s: State, actions: seq<Action>, t: State, i: IntentId, left: nat, again: bool,
      answer: (Verdict, int))
    returns (more: seq<Action>, next: State)
    requires Execute(c, s, actions) == Some(t) && t.pc == Posted(i, left, again) && i in t.broker.flying
    requires MayAnswer(t.broker.orders, R(t, i).spec, answer)
    ensures Execute(c, s, more) == Some(next)
    ensures next.journals == Append(t, i, Answered(answer.0)).journals
    ensures next.pc == AfterNote(Told(i, left, again, answer.0), R(t, i))
    ensures answer.0.Accepted? || next.broker.orders == t.broker.orders
  {
    var told;
    more, told := Take(c, s, actions, t, Answer(answer.0, answer.1));
    SameReading(told, t, i);
    more, next := Take(c, s, more, told, Note);
  }

  class Gateway {
    const config: Config
    const polls: nat
    var journals: Journals

    constructor (config: Config, polls: nat)
      ensures this.config == config && this.polls == polls && journals == map[]
    {
      this.config, this.polls, journals := config, polls, map[];
    }

    function Reads(i: IntentId): Reading
      reads this
    {
      if i in journals then Read(journals[i]) else BLANK
    }

    /** One durable append. */
    method Write(i: IntentId, e: Event)
      requires i in journals
      modifies this
      ensures Wrote(old(journals), i, [e], journals)
    {
      journals := journals[i := journals[i] + [e]];
    }

    function Bound(): set<OrderNo>
      reads this
    {
      set i | i in journals && Read(journals[i]).order.Some? :: Read(journals[i]).order.value
    }

    /** `match_candidates` over one list. */
    method MatchCandidates(i: IntentId, listing: Listing, bound: set<OrderNo>, ghost s: State)
      returns (found: seq<OrderNo>)
      requires i in journals && s.journals == journals && Reads(i).spec.Some? && bound == Bound()
      requires Shows(s.broker.orders, listing)
      ensures forall no :: no in found <==> IsCandidate(s, i, no) && Lists(listing, no)
      ensures forall j, k | 0 <= j < k < |found| :: found[j] != found[k]
    {
      found := [];
      var r := Reads(i);
      for k := 0 to |listing|
        invariant forall no :: no in found <==> IsCandidate(s, i, no) && exists j | 0 <= j < k :: listing[j].0 == no
        invariant forall j, m | 0 <= j < m < |found| :: found[j] != found[m]
      {
        var (no, order) := listing[k];
        BoundIsBound(s, no);
        assert forall j | 0 <= j < k :: listing[j].0 != no;
        assert no !in found;
        if (r.baseline.Some? && no in r.baseline.value) || no in bound || !Fits(order, r.spec.value) {
          assert !IsCandidate(s, i, no);
        } else {
          found := found + [no];
        }
      }
    }

    lemma BoundIsBound(s: State, no: OrderNo)
      requires s.journals == journals
      ensures no in Bound() <==> IsBound(s, no)
    {
      forall j | j in journals
        ensures R(s, j) == Read(journals[j])
      {
      }
    }

    /** The run stands at `t`, which shows the journals. */
    ghost predicate Stands(s: State, actions: seq<Action>, t: State)
      reads this
    {
      Execute(config, s, actions) == Some(t) && t.journals == journals
    }

    /** SEND on record, the request, its answer, RESULT on record. */
    method SendOnce(i: IntentId, left: nat, again: bool, baseline: Option<set<OrderNo>>, answer: (Verdict, int),
        ghost s: State, ghost actions: seq<Action>, ghost t: State)
      returns (ghost more: seq<Action>, ghost next: State)
      requires Stands(s, actions, t) && i in journals && MayAnswer(t.broker.orders, Reads(i).spec, answer)
      requires if again then t.pc == Absent(i) && left == 0 && MayResend(config, Reads(i)) && baseline.None?
               else t.pc == Trying(i, left + 1)
                    && (baseline.Some? ==> baseline.value <= t.broker.orders.Keys)
      modifies this
      ensures Stands(s, more, next)
      ensures Wrote(old(journals), i, [Sent(baseline)] + [Answered(answer.0)], journals)
      ensures next.pc == if again || answer.0.Accepted? || answer.0.Refused? then Idle
                         else if IsNegative(answer.0) then Trying(i, left)
                         else if old(Reads(i)).everMissing then Idle else Resolving(i)
      ensures Reads(i).sends > 0 && Reads(i).spec == old(Reads(i).spec)
      ensures Reads(i).everMissing == old(Reads(i).everMissing)
      ensures answer.0.Accepted? || next.broker.orders == t.broker.orders
    {
      ReadAttempt(journals[i], baseline, answer.0);
      ghost var posted;
      more, posted := RequestGoesOut(config, s, actions, t, i, left, again, baseline);
      ReadSent(t, posted, i, baseline);
      Write(i, Sent(baseline));
      ghost var sent := journals;
      more, next := AnswerComesIn(config, s, more, posted, i, left, again, answer);
      Write(i, Answered(answer.0));
      WroteBoth(old(journals), sent, journals, i, [Sent(baseline)], [Answered(answer.0)]);
    }

    /** The append that an action of the run stands for. */
    method Perform(i: IntentId, e: Event, ghost a: Action, ghost s: State, ghost actions: seq<Action>, ghost t: State)
      returns (ghost more: seq<Action>, ghost next: State)
      requires Stands(s, actions, t) && i in journals && Enabled(config, t, a) && Written(config, t, a) == Some((i, e))
      modifies this
      ensures Stands(s, more, next) && next.pc == Apply(config, t, a).pc
      ensures next.broker == Apply(config, t, a).broker
      ensures Wrote(old(journals), i, [e], journals) && Reads(i) == After(old(Reads(i)), e)
    {
      more, next := Take(config, s, actions, t, a);
      ReadNext(journals[i], e);
      Write(i, e);
    }

    /** What a finding says about the broker's lists. */
    ghost predicate Found(t: State, i: IntentId, w: World, finding: Finding) {
      if finding.Nothing? then polls > 0 && QuietUntil(t, i, w, polls)
      else (finding.Unreadable? && polls == 0) || exists k: nat | k < polls :: Ends(t, i, w, k, finding)
    }

    /** The polls of the broker's list: one candidate, several, none in any poll, or a list that could not be read. */
    method Search(i: IntentId, w: World, ghost t: State) returns (finding: Finding)
      requires i in journals && t.journals == journals && Reads(i).spec.Some?
      requires forall k: nat | w.polls(k).Some? :: Shows(t.broker.orders, w.polls(k).value)
      ensures Found(t, i, w, finding)
    {
      if polls == 0 {
        return Unreadable;
      }
      var bound := Bound();
      for k := 0 to polls
        invariant QuietUntil(t, i, w, k)
      {
        var listing := w.polls(k);
        if listing.None? {
          assert Ends(t, i, w, k, Unreadable);
          return Unreadable;
        }
        var found := MatchCandidates(i, listing.value, bound, t);
        if |found| == 1 {
          assert found == [found[0]];
          assert Ends(t, i, w, k, One(found[0]));
          return One(found[0]);
        }
        if |found| > 1 {
          assert found[0] in found && found[1] in found;
          assert Ends(t, i, w, k, Several);
          return Several;
        }
      }
      return Nothing;
    }

    /** `_resolve_unknown`: adopt the one candidate, note a conflict, or note the order missing and perhaps resend. */
    method ResolveUnknown(i: IntentId, w: World, ghost s: State, ghost actions: seq<Action>, ghost t: State)
      returns (finding: Finding, ghost more: seq<Action>, ghost next: State)
      requires Stands(s, actions, t) && t.pc == Resolving(i) && i in journals && Reads(i).spec.Some?
      requires MayAnswer(t.broker.orders, Reads(i).spec, w.again)
      requires forall k: nat | w.polls(k).Some? :: Shows(t.broker.orders, w.polls(k).value)
      modifies this
      ensures Stands(s, more, next) && next.pc.Idle? && Found(t, i, w, finding)
      ensures Wrote(old(journals), i, Resolution(config, old(Reads(i)).spec.value, w, finding), journals)
    {
      finding := Search(i, w, t);
      match finding {
        case One(no) => more, next := Decide(i, Adopted(no), s, actions, t);
        case Several => more, next := Decide(i, Conflicted, s, actions, t);
        case Nothing => more, next := NoteMissing(i, w, s, actions, t);
        case Unreadable =>
          more, next := StopResolving(s, actions, t);
          WroteNothing(journals, i);
      }
    }

    method Decide(i: IntentId, e: Event, ghost s: State, ghost actions: seq<Action>, ghost t: State)
      returns (ghost more: seq<Action>, ghost next: State)
      requires Stands(s, actions, t) && t.pc == Resolving(i) && i in journals
      requires e == Conflicted || (e.Adopted? && IsCandidate(t, i, e.no))
      modifies this
      ensures Stands(s, more, next) && next.pc.Idle?
      ensures Wrote(old(journals), i, [e], journals)
    {
      more, next := Perform(i, e, if e.Adopted? then Adopt(e.no) else FindMany, s, actions, t);
    }

    ghost method StopResolving(s: State, actions: seq<Action>, t: State) returns (more: seq<Action>, next: State)
      requires Stands(s, actions, t) && t.pc.Resolving?
      ensures Stands(s, more, next) && next.pc.Idle?
    {
      more, next := Take(config, s, actions, t, LeaveUnknown);
    }

    /** The order is listed nowhere: NOT_FOUND, and for an exit that may be sold again one more send. */
    method NoteMissing(i: IntentId, w: World, ghost s: State, ghost actions: seq<Action>, ghost t: State)
      returns (ghost more: seq<Action>, ghost next: State)
      requires Stands(s, actions, t) && t.pc == Resolving(i) && i in journals && Reads(i).spec.Some?
      requires MayAnswer(t.broker.orders, Reads(i).spec, w.again)
      modifies this
      ensures Stands(s, more, next) && next.pc.Idle?
      ensures Wrote(old(journals), i, Resolution(config, old(Reads(i)).spec.value, w, Nothing), journals)
    {
      more, next := Perform(i, Missing, Miss, s, actions, t);
      ghost var noted := journals;
      if Reads(i).spec.value.phase.Exit? && config.resend && w.maySell {
        more, next := SendOnce(i, 0, true, None, w.again, s, more, next);
        WroteBoth(old(journals), noted, journals, i, [Missing], [Sent(None)] + [Answered(w.again.0)]);
      } else {
        more, next := Take(config, s, more, next, Rest);
        WroteNothing(journals, i);
        WroteBoth(old(journals), noted, journals, i, [Missing], []);
      }
    }

    /** SKIP on record: halted, refused by the risk limits, or too late. */
    method Refuse(i: IntentId, ghost s: State, ghost actions: seq<Action>, ghost t: State)
      returns (ghost more: seq<Action>, ghost next: State)
      requires Stands(s, actions, t) && t.pc.Trying? && t.pc.i == i && i in journals
      modifies this
      ensures Stands(s, more, next) && next.pc.Idle?
      ensures Wrote(old(journals), i, [Passed], journals)
    {
      more, next := Perform(i, Passed, Pass, s, actions, t);
    }

    ghost method Leave(s: State, actions: seq<Action>, t: State) returns (more: seq<Action>, next: State)
      requires Stands(s, actions, t) && t.pc.Trying?
      ensures Stands(s, more, next) && next.pc.Idle?
    {
      more, next := Take(config, s, actions, t, GiveUp);
    }

    /** The run stands before this turn of the send loop, and the journal shows it. */
    ghost predicate Ready(x: Case, i: IntentId, turn: Turn, s: State, actions: seq<Action>, t: State)
      reads this
    {
      && Stands(s, actions, t) && t.pc == Trying(i, turn.left) && i in journals && x.c == config
      && Reads(i).spec == Some(x.spec) && Reads(i).everMissing == x.missed && (Reads(i).sends > 0 <==> turn.sent)
      && (turn.baseline.Some? ==> turn.baseline.value <= t.broker.orders.Keys)
      && Answers(t.broker.orders, Some(x.spec), x.w)
    }

    /** `finding` is what the search found at `at`, where the journal of `i` had `ev` more than before. */
    ghost predicate Sought(at: State, i: IntentId, w: World, finding: Finding, book: Book, before: Journals,
        ev: Journal)
    {
      Found(at, i, w, finding) && at.broker.orders == book && Wrote(before, i, ev, at.journals)
    }

    /** The send of an attempt in time. */
    method SendTurn(i: IntentId, x: Case, turn: Turn, ghost s: State, ghost actions: seq<Action>, ghost t: State)
      returns (ghost more: seq<Action>, ghost next: State)
      requires turn.left > 0 && !x.w.late(turn.left - 1) && Ready(x, i, turn, s, actions, t)
      modifies this
      ensures Wrote(old(journals), i, [Sent(turn.baseline)] + [Answered(x.w.answers(turn.left - 1).0)], journals)
      ensures Stands(s, more, next) && Reads(i).spec == Some(x.spec)
      ensures if GoesOn(x, turn)
              then Ready(x, i, Next(turn), s, more, next) && next.broker.orders == t.broker.orders
              else if Searches(x, turn)
              then next.pc == Resolving(i) && next.broker.orders == t.broker.orders
              else next.pc.Idle?
    {
      var answer := x.w.answers(turn.left - 1);
      more, next := SendOnce(i, turn.left - 1, false, turn.baseline, answer, s, actions, t);
    }

    /** An attempt in time: the send, and what an ambiguous answer leads to. */
    method SendAndResolve(i: IntentId, x: Case, turn: Turn, ghost s: State, ghost actions: seq<Action>, ghost t: State)
      returns (finding: Finding, ghost at: State, ghost more: seq<Action>, ghost next: State)
      requires turn.left > 0 && !x.w.late(turn.left - 1) && Ready(x, i, turn, s, actions, t)
      modifies this
      ensures Wrote(old(journals), i, AttemptEvents(x, turn, finding), journals)
      ensures if GoesOn(x, turn)
              then Ready(x, i, Next(turn), s, more, next) && next.broker.orders == t.broker.orders
              else Stands(s, more, next) && next.pc.Idle?
      ensures Searches(x, turn) ==>
                Sought(at, i, x.w, finding, t.broker.orders, old(journals), AttemptEvents(x, turn, Unreadable))
    {
      var answer := x.w.answers(turn.left - 1);
      more, next := SendTurn(i, x, turn, s, actions, t);
      finding, at := Unreadable, next;
      ghost var told := journals;
      ghost var head := [Sent(turn.baseline)] + [Answered(answer.0)];
      assert head + [] == head;
      if Searches(x, turn) {
        finding, more, next := ResolveUnknown(i, x.w, s, more, next);
        WroteBoth(old(journals), told, journals, i, head, Resolution(config, x.spec, x.w, finding));
      }
    }

    /** One attempt: too late, or sent and answered. */
    method Attempt(i: IntentId, x: Case, turn: Turn, ghost s: State, ghost actions: seq<Action>, ghost t: State)
      returns (finding: Finding, ghost at: State, ghost more: seq<Action>, ghost next: State)
      requires turn.left > 0 && Ready(x, i, turn, s, actions, t)
      modifies this
      ensures Wrote(old(journals), i, AttemptEvents(x, turn, finding), journals)
      ensures if GoesOn(x, turn)
              then Ready(x, i, Next(turn), s, more, next) && next.broker.orders == t.broker.orders
              else Stands(s, more, next) && next.pc.Idle?
      ensures Searches(x, turn) ==>
                Sought(at, i, x.w, finding, t.broker.orders, old(journals), AttemptEvents(x, turn, Unreadable))
    {
      if !x.w.late(turn.left - 1) {
        finding, at, more, next := SendAndResolve(i, x, turn, s, actions, t);
      } else {
        finding, at := Unreadable, t;
        if Reads(i).sends == 0 {
          more, next := Refuse(i, s, actions, t);
        } else {
          more, next := Leave(s, actions, t);
          WroteNothing(journals, i);
        }
      }
    }

    /** One turn of the send loop that began over the journals `before`. */
    method Advance(i: IntentId, x: Case, turn: Turn, ghost first: Turn, ghost before: Journals, ghost s: State,
        ghost actions: seq<Action>, ghost t: State)
      returns (finding: Finding, ghost at: State, ghost more: seq<Action>, ghost next: State)
      requires turn.left > 0 && Ready(x, i, turn, s, actions, t)
      requires Toward(before, journals, i, x, first, turn)
      modifies this
      ensures if GoesOn(x, turn)
              then Ready(x, i, Next(turn), s, more, next) && next.broker.orders == t.broker.orders
                   && Toward(before, journals, i, x, first, Next(turn))
              else Stands(s, more, next) && next.pc.Idle?
                   && Wrote(before, i, LoopEvents(x, first, finding), journals)
      ensures !GoesOn(x, turn) && LoopSearches(x, first) ==>
                Sought(at, i, x.w, finding, t.broker.orders, before, LoopEvents(x, first, Unreadable))
    {
      ghost var now := journals;
      finding, at, more, next := Attempt(i, x, turn, s, actions, t);
      if GoesOn(x, turn) {
        Onward(before, now, journals, i, x, first, turn, finding);
      } else {
        Arrives(before, now, journals, i, x, first, turn, finding);
        if Searches(x, turn) {
          Arrives(before, now, at.journals, i, x, first, turn, Unreadable);
        }
      }
    }

    /** The send loop. */
    method TryToSend(i: IntentId, x: Case, first: Turn, ghost s: State, ghost actions: seq<Action>, ghost t: State)
      returns (finding: Finding, ghost at: State, ghost more: seq<Action>, ghost next: State)
      requires Ready(x, i, first, s, actions, t)
      modifies this
      ensures Stands(s, more, next) && next.pc.Idle?
      ensures Wrote(old(journals), i, LoopEvents(x, first, finding), journals)
      ensures LoopSearches(x, first) ==>
                Sought(at, i, x.w, finding, t.broker.orders, old(journals), LoopEvents(x, first, Unreadable))
    {
      var turn := first;
      finding, at, more, next := Unreadable, t, actions, t;
      while turn.left > 0
        invariant Ready(x, i, turn, s, more, next) && next.broker.orders == t.broker.orders
        invariant Toward(old(journals), journals, i, x, first, turn)
        decreases turn.left
      {
        finding, at, more, next := Advance(i, x, turn, first, old(journals), s, more, next);
        if !GoesOn(x, turn) {
          return;
        }
        turn := Next(turn);
      }
      RunsOut(old(journals), journals, i, x, first, turn, finding);
      more, next := Leave(s, more, next);
    }

    /**
     * `submit` up to the state it returns, None for an intent that is not on record. All it does are actions of a run,
     * and all it writes is determined by the reading of the journal, the answers and what a search found.
     */
    method Submit(i: IntentId, w: World, ghost s: State)
      returns (status: Option<IntentStatus>, finding: Finding, ghost at: State, ghost actions: seq<Action>,
        ghost end: State)
      requires s.journals == journals && s.pc.Idle? && Answers(s.broker.orders, Reads(i).spec, w)
      requires i in journals && Sendable(Reads(i)) ==> Reads(i).spec.Some?
      modifies this
      ensures Stands(s, actions, end) && end.pc.Idle?
      ensures i !in old(journals) ==> status.None? && journals == old(journals)
      ensures i in old(journals) ==>
                status == Some(StatusOf(Reads(i)))
                && Wrote(old(journals), i, SubmitEvents(config, old(Reads(i)), w, finding), journals)
      ensures !Sendable(old(Reads(i))) ==> actions == []
      ensures i in old(journals) && SubmitSearches(config, old(Reads(i)), w) ==>
                Sought(at, i, w, finding, s.broker.orders, old(journals),
                  SubmitEvents(config, old(Reads(i)), w, Unreadable))
    {
      finding, at, actions, end := Unreadable, s, [], s;
      if i !in journals {
        return None, finding, at, actions, end;
      }
      if !Sendable(Reads(i)) {
        WroteNothing(journals, i);
        return Some(StatusOf(Reads(i))), finding, at, actions, end;
      }
      actions, end := Take(config, s, [], s, Start(i));
      if w.halted || (Reads(i).sends == 0 && (w.refused || w.haltedLater)) {
        actions, end := Refuse(i, s, actions, end);
      } else {
        var x, first := CaseOf(config, Reads(i), w), FirstTurn(config, Reads(i), w);
        finding, at, actions, end := TryToSend(i, x, first, s, actions, end);
      }
      status := Some(StatusOf(Reads(i)));
    }
  }
}
