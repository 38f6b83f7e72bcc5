/**
 * Damaged files: exactly when a malformed record or guard survives every continuation of a run.
 * Nobody repairs a damaged file on purpose; the only danger is a process that read the file before it
 * was damaged and still holds the lock.
 */
module TokenDamage {
  import opened Common
  import opened TokenRecords
  import opened TokenProtocol

  function Holder(s: State): (pc: Pc)
    ensures s.lock.Some? && s.lock.value in s.procs ==> pc == s.procs[s.lock.value]
  {
    if s.lock.Some? && s.lock.value in s.procs then s.procs[s.lock.value] else Idle(None)
  }

  /** The lock holder has left its check behind and nothing stops it from publishing. */
  predicate MayOverwriteRecord(c: Config, s: State) {
    match Holder(s)
    case Cleared(_, _, _) => c.interval <= 0.0 || !s.guard.BadGuard?
    case pc => pc.Sleeping? || pc.Issuing? || pc.Issued?
  }

  predicate MayOverwriteGuard(s: State) {
    Holder(s).Sleeping?
  }

  lemma RecordStepInside(c: Config, s: State, a: Action)
    requires Inv(c, s) && Enabled(c, s, a)
    requires s.file.Malformed? && !MayOverwriteRecord(c, s)
    requires InsideLock(a)
    ensures Apply(c, s, a).file.Malformed? && !MayOverwriteRecord(c, Apply(c, s, a))
  {
  }

  lemma RecordStepOutside(c: Config, s: State, a: Action)
    requires Inv(c, s) && Enabled(c, s, a)
    requires s.file.Malformed? && !MayOverwriteRecord(c, s)
    requires !InsideLock(a)
    ensures Apply(c, s, a).file.Malformed? && !MayOverwriteRecord(c, Apply(c, s, a))
  {
  }

  lemma RecordStep(c: Config, s: State, a: Action)
    requires Inv(c, s) && Enabled(c, s, a)
    requires s.file.Malformed? && !MayOverwriteRecord(c, s)
    ensures Apply(c, s, a).file.Malformed? && !MayOverwriteRecord(c, Apply(c, s, a))
  {
    if InsideLock(a) { RecordStepInside(c, s, a); } else { RecordStepOutside(c, s, a); }
  }

  lemma GuardStep(c: Config, s: State, a: Action)
    requires Inv(c, s) && Enabled(c, s, a)
    requires s.guard.BadGuard? && !MayOverwriteGuard(s)
    ensures Apply(c, s, a).guard.BadGuard? && !MayOverwriteGuard(Apply(c, s, a))
  {
  }

  lemma {:induction false} RecordStaysMalformed(c: Config, trace: seq<State>, actions: seq<Action>, k: nat)
    requires Follows(c, trace, actions) && Inv(c, trace[0]) && k < |trace|
    requires trace[0].file.Malformed? && !MayOverwriteRecord(c, trace[0])
    ensures trace[k].file.Malformed? && !MayOverwriteRecord(c, trace[k])
  {
    if k > 0 {
      RecordStaysMalformed(c, trace, actions, k - 1);
      FollowsInv(c, trace, actions, k - 1);
      RecordStep(c, trace[k - 1], actions[k - 1]);
    }
  }

  lemma {:induction false} GuardStaysMalformed(c: Config, trace: seq<State>, actions: seq<Action>, k: nat)
    requires Follows(c, trace, actions) && Inv(c, trace[0]) && k < |trace|
    requires trace[0].guard.BadGuard? && !MayOverwriteGuard(trace[0])
    ensures trace[k].guard.BadGuard? && !MayOverwriteGuard(trace[k])
  {
    if k > 0 {
      GuardStaysMalformed(c, trace, actions, k - 1);
      FollowsInv(c, trace, actions, k - 1);
      GuardStep(c, trace[k - 1], actions[k - 1]);
    }
  }

  lemma FreshToken(used: set<Token>) returns (t: Token)
    ensures t !in used
  {
    t := "";
    var rest := used;
    while rest != {}
      invariant rest <= used
      invariant forall u | u in used && u !in rest :: |u| < |t|
      decreases rest
    {
      var u :| u in rest;
      ghost var before := |t|;
      while |t| <= |u|
        invariant |t| >= before
        decreases |u| - |t|
      {
        t := t + "x";
      }
      rest := rest - {u};
    }
  }

  lemma Prepend(c: Config, s: State, a: Action, trace: seq<State>, actions: seq<Action>)
    requires Inv(c, s) && Enabled(c, s, a)
    requires Follows(c, trace, actions) && trace[0] == Apply(c, s, a)
    ensures Follows(c, [s] + trace, [a] + actions)
    ensures ([s] + trace)[|trace|] == trace[|trace| - 1]
  {
    StepInv(c, s, a);
  }

  function StepsLeft(pc: Pc): nat {
    match pc
    case Cleared(_, _, _) => 3
    case Sleeping(_, _, _, _) => 2
    case Issuing(_, _, _) => 1
    case _ => 0
  }

  /** The holder's next move, after letting the clock reach `now` if it has to wait. */
  lemma HolderMoves(c: Config, s: State) returns (now: real, a: Action)
    requires Inv(c, s) && MayOverwriteRecord(c, s) && !Holder(s).Issued?
    ensures Enabled(c, s, Tick(now))
    ensures var s1 := s.(clock := now);
            Enabled(c, s1, a) && MayOverwriteRecord(c, Apply(c, s1, a))
            && StepsLeft(Holder(Apply(c, s1, a))) < StepsLeft(Holder(s))
  {
    var p := s.lock.value;
    match Holder(s) {
      case Issuing(_, _, _) =>
        var t := FreshToken(s.vendor.issued);
        now, a := s.clock, Issue(p, t, None);
      case Sleeping(_, _, _, until) =>
        now, a := Max(s.clock, until), WriteStamp(p);
      case Cleared(_, _, _) =>
        now, a := if s.guard.Stamped? then Max(s.clock, s.guard.at + c.interval) else s.clock, ConsultGuard(p);
    }
  }

  /** From a vulnerable state the holder can go on to publish over the damaged record. */
  lemma {:induction false} OverwriteRecord(c: Config, s: State) returns (trace: seq<State>, actions: seq<Action>)
    requires Inv(c, s) && MayOverwriteRecord(c, s)
    ensures Follows(c, trace, actions) && trace[0] == s && trace[|trace| - 1].file.Stored?
    decreases StepsLeft(Holder(s))
  {
    var p := s.lock.value;
    if Holder(s).Issued? {
      trace, actions := [s, Apply(c, s, Publish(p))], [Publish(p)];
    } else {
      var now, a := HolderMoves(c, s);
      var s1 := Apply(c, s, Tick(now));
      StepInv(c, s, Tick(now));
      StepInv(c, s1, a);
      trace, actions := OverwriteRecord(c, Apply(c, s1, a));
      Prepend(c, s1, a, trace, actions);
      Prepend(c, s, Tick(now), [s1] + trace, [a] + actions);
      trace, actions := [s] + ([s1] + trace), [Tick(now)] + ([a] + actions);
    }
  }

  /** A malformed record is never overwritten, whatever happens next, if and only if no holder is past its check. */
  lemma MalformedRecordIsKeptIff(c: Config, s: State)
    requires Inv(c, s) && s.file.Malformed?
    ensures (forall trace: seq<State>, actions: seq<Action> | Follows(c, trace, actions) && trace[0] == s ::
            trace[|trace| - 1].file.Malformed?)
            <==> !MayOverwriteRecord(c, s)
  {
    if MayOverwriteRecord(c, s) {
      var trace, actions := OverwriteRecord(c, s);
      assert Follows(c, trace, actions) && trace[0] == s;
    } else {
      forall trace: seq<State>, actions: seq<Action> | Follows(c, trace, actions) && trace[0] == s
        ensures trace[|trace| - 1].file.Malformed?
      {
        RecordStaysMalformed(c, trace, actions, |trace| - 1);
      }
    }
  }

  /** A malformed guard is never overwritten if and only if no holder is between its guard check and its stamp. */
  lemma MalformedGuardIsKeptIff(c: Config, s: State)
    requires Inv(c, s) && s.guard.BadGuard?
    ensures (forall trace: seq<State>, actions: seq<Action> | Follows(c, trace, actions) && trace[0] == s ::
            trace[|trace| - 1].guard.BadGuard?)
            <==> !MayOverwriteGuard(s)
  {
    if MayOverwriteGuard(s) {
      var tick := Tick(Max(s.clock, Holder(s).until));
      var s1 := Apply(c, s, tick);
      StepInv(c, s, tick);
      var s2 := Apply(c, s1, WriteStamp(s.lock.value));
      StepInv(c, s1, WriteStamp(s.lock.value));
      assert Follows(c, [s, s1, s2], [tick, WriteStamp(s.lock.value)]);
      assert ([s, s1, s2])[0] == s;
    } else {
      forall trace: seq<State>, actions: seq<Action> | Follows(c, trace, actions) && trace[0] == s
        ensures trace[|trace| - 1].guard.BadGuard?
      {
        GuardStaysMalformed(c, trace, actions, |trace| - 1);
      }
    }
  }

  // ---- A run in which both files are damaged and replaced --------------------------------------

  const EXAMPLE_CONFIG := Config(1.0, map[0 := StoreConfig(0.0, 0.0, Raise, 1.0)])

  const START := Tally(0, 0, 0, 0, [], [])

  const STAMPED := Tally(0, 0, 0, 1, [], [0.0])

  const ISSUED := Tally(1, 1, 0, 1, [], [0.0])

  const NEW_RECORD := TokenRecord("t", 0.0, None, 1)

  /** A process alone in an empty directory; damage hits the guard and the record while it holds the lock. */
  function ExampleState(i: nat): State {
    var none := Vendor(None, {}, {});
    var issued := Vendor(Some("t"), {"t"}, {});
    match i
    case 0 => Alone(Idle(None), Missing, NoGuard, none, START)
    case 1 => Alone(FastRead(0.0), Missing, NoGuard, none, START)
    case 2 => Alone(Waiting(Get), Missing, NoGuard, none, START)
    case 3 => Alone(Holding(Get), Missing, NoGuard, none, START)
    case 4 => Alone(Cleared(Get, None, false), Missing, NoGuard, none, START.(emptyChecks := 1))
    case 5 => Alone(Sleeping(Get, None, false, 0.0), Missing, NoGuard, none, START.(emptyChecks := 1))
    case 6 => Alone(Sleeping(Get, None, false, 0.0), Missing, BadGuard, none, START.(emptyChecks := 1))
    case 7 => Alone(Issuing(Get, None, false), Missing, Stamped(0.0), none, STAMPED)
    case 8 => Alone(Issuing(Get, None, false), Malformed, Stamped(0.0), none, STAMPED)
    case 9 => Alone(Issued(Get, None, "t", None), Malformed, Stamped(0.0), issued, ISSUED)
    case _ => Alone(Releasing(Ok(NEW_RECORD)), Stored(NEW_RECORD), Stamped(0.0), issued, ISSUED)
  }

  function Alone(pc: Pc, file: RecordFile, guard: GuardFile, v: Vendor, t: Tally): State {
    State(map[0 := pc], if InLockedSection(pc) then Some(0) else None, file, guard, 0.0, v, t)
  }

  function ExampleAction(i: nat): Action {
    match i
    case 0 => Begin(0)
    case 1 => ReadFast(0)
    case 2 => Acquire(0)
    case 3 => Check(0)
    case 4 => ConsultGuard(0)
    case 5 => CorruptGuard
    case 6 => WriteStamp(0)
    case 7 => CorruptRecord
    case 8 => Issue(0, "t", None)
    case _ => Publish(0)
  }

  predicate ExampleSteps(i: nat) {
    && Enabled(EXAMPLE_CONFIG, ExampleState(i), ExampleAction(i))
    && Apply(EXAMPLE_CONFIG, ExampleState(i), ExampleAction(i)) == ExampleState(i + 1)
  }

  lemma ExampleReads()
    ensures ExampleSteps(0) && ExampleSteps(1)
  {
  }

  lemma ExampleAcquires()
    ensures ExampleSteps(2) && ExampleSteps(3)
  {
  }

  lemma ExampleConsults()
    ensures ExampleSteps(4) && ExampleSteps(5)
  {
  }

  lemma ExampleStamps()
    ensures ExampleSteps(6) && ExampleSteps(7)
  {
  }

  lemma ExampleIssues()
    ensures ExampleSteps(8)
  {
    assert IssueToken(Vendor(None, {}, {}), "t") == Vendor(Some("t"), {"t"}, {});
  }

  lemma ExamplePublishes()
    ensures ExampleSteps(9)
  {
  }

  lemma ExampleStep(i: nat)
    requires i < 10
    ensures ExampleSteps(i)
  {
    ExampleReads();
    ExampleAcquires();
    ExampleConsults();
    ExampleStamps();
    ExampleIssues();
    ExamplePublishes();
  }

  lemma ExampleStarts()
    ensures Initial(EXAMPLE_CONFIG, ExampleState(0))
    ensures forall i: nat :: ExampleState(i).procs.Keys == EXAMPLE_CONFIG.stores.Keys
  {
  }

  /** One process and an empty directory: a guard damaged before the stamp and a record damaged before the issue. */
  lemma DamageDuringIssueIsOverwritten() returns (trace: seq<State>, actions: seq<Action>)
    ensures IsRun(EXAMPLE_CONFIG, trace, actions)
    ensures |trace| == 11
    ensures trace[6].guard.BadGuard? && trace[7].guard.Stamped?
    ensures trace[8].file.Malformed? && trace[10].file.Stored?
  {
    trace, actions := seq(11, i requires 0 <= i => ExampleState(i)), seq(10, i requires 0 <= i => ExampleAction(i));
    ExampleStarts();
    forall i: nat | i < 10
      ensures Enabled(EXAMPLE_CONFIG, trace[i], actions[i])
      ensures trace[i + 1] == Apply(EXAMPLE_CONFIG, trace[i], actions[i])
    {
      ExampleStep(i);
    }
  }
}
