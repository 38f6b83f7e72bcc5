/**
 * Any number of processes sharing one token record, one issuance guard and one lock file.
 * Every action below is one atomic step of one process or of the outside world, so a run is an
 * arbitrary interleaving of `get_or_issue` and `replace_rejected` calls.
 *
 * The vendor keeps one live token: issuing supersedes the previous token, and the outside world may
 * revoke the live one. A process asks for a replacement only for a token the vendor rejects.
 */
module TokenProtocol {
  import opened Common
  import opened TokenRecords

  type Pid = nat

  datatype Pc =
    | Idle(last: Option<Outcome>)
    | FastRead(now: real)
    | Waiting(purpose: Purpose)
    | Holding(purpose: Purpose)
    | Cleared(purpose: Purpose, previous: Option<TokenRecord>, swap: bool)
    | Sleeping(purpose: Purpose, previous: Option<TokenRecord>, swap: bool, until: real)
    | Issuing(purpose: Purpose, previous: Option<TokenRecord>, swap: bool)
    | Issued(purpose: Purpose, previous: Option<TokenRecord>, token: Token, expiresIn: Option<real>)
    | Releasing(outcome: Outcome)

  /** `latest` is the newest token issued; `dead` holds every token superseded or revoked. */
  datatype Vendor = Vendor(latest: Option<Token>, issued: set<Token>, dead: set<Token>)

  /** What an observer of the run has counted so far. */
  datatype Tally = Tally(
    attempts: nat,            // calls of the vendor's issue endpoint, successful or not
    issues: nat,              // tokens issued
    revocations: nat,         // live tokens killed from outside
    emptyChecks: nat,         // locked checks that found the record absent or not usable
    swaps: seq<Token>,        // rejected tokens that were swapped for an issued one, in order
    stamps: seq<real>)        // guard stamps written, in order

  datatype State = State(
    procs: map<Pid, Pc>,
    lock: Option<Pid>,
    file: RecordFile,
    guard: GuardFile,
    clock: real,
    vendor: Vendor,
    tally: Tally)

  /** `interval` is the vendor's minimum issue interval; 0 switches the guard off. */
  datatype Config = Config(interval: real, stores: map<Pid, StoreConfig>)

  datatype Action =
    | Begin(p: Pid)
    | ReadFast(p: Pid)
    | Reject(p: Pid, rejected: Token)
    | TimeOut(p: Pid)
    | Acquire(p: Pid)
    | Check(p: Pid)
    | ConsultGuard(p: Pid)
    | WriteStamp(p: Pid)
    | Issue(p: Pid, token: Token, expiresIn: Option<real>)
    | IssueFails(p: Pid)
    | Publish(p: Pid)
    | Release(p: Pid)
    | Tick(now: real)
    | Revoke
    | CorruptRecord
    | CorruptGuard

  predicate At(s: State, p: Pid) {
    p in s.procs
  }

  predicate LatestIsLive(v: Vendor) {
    v.latest.Some? && v.latest.value !in v.dead
  }

  predicate Enabled(c: Config, s: State, a: Action)
    requires c.stores.Keys == s.procs.Keys
  {
    match a
    case Begin(p) => At(s, p) && s.procs[p].Idle?
    case ReadFast(p) => At(s, p) && s.procs[p].FastRead?
    case Reject(p, rejected) => At(s, p) && s.procs[p].Idle? && rejected in s.vendor.dead
    case TimeOut(p) => At(s, p) && s.procs[p].Waiting? && s.lock.Some?
    case Acquire(p) => At(s, p) && s.procs[p].Waiting? && s.lock.None?
    case Check(p) => At(s, p) && s.procs[p].Holding?
    case ConsultGuard(p) => At(s, p) && s.procs[p].Cleared?
    case WriteStamp(p) => At(s, p) && s.procs[p].Sleeping? && s.clock >= s.procs[p].until
    case Issue(p, token, _) => At(s, p) && s.procs[p].Issuing? && token !in s.vendor.issued
    case IssueFails(p) => At(s, p) && s.procs[p].Issuing?
    case Publish(p) => At(s, p) && s.procs[p].Issued?
    case Release(p) => At(s, p) && s.procs[p].Releasing?
    case Tick(now) => now >= s.clock
    case Revoke => LatestIsLive(s.vendor)
    case CorruptRecord => true
    case CorruptGuard => true
  }

  function Move(s: State, p: Pid, pc: Pc): State {
    s.(procs := s.procs[p := pc])
  }

  function IssueToken(v: Vendor, token: Token): Vendor {
    Vendor(Some(token), v.issued + {token}, v.dead + (if v.latest.Some? then {v.latest.value} else {}))
  }

  function Apply(c: Config, s: State, a: Action): State
    requires c.stores.Keys == s.procs.Keys && Enabled(c, s, a)
  {
    match a
    case Begin(p) => Move(s, p, FastRead(s.clock))
    case ReadFast(p) =>
      Move(s, p,
        match s.file
        case Malformed => Idle(Some(Err(ReadError)))
        case Missing => Waiting(Get)
        case Stored(r) => if IsUsable(r, s.procs[p].now, c.stores[p]) then Idle(Some(Ok(r))) else Waiting(Get))
    case Reject(p, rejected) => Move(s, p, Waiting(Replace(rejected)))
    case TimeOut(p) => Move(s, p, Idle(Some(Err(LockTimeout))))
    case Acquire(p) => Move(s, p, Holding(s.procs[p].purpose)).(lock := Some(p))
    case Check(p) => ApplyCheck(s, p, LockedCheck(s.file, s.procs[p].purpose, s.clock, c.stores[p]))
    case ConsultGuard(p) => ApplyGuard(c, s, p)
    case WriteStamp(p) =>
      var pc := s.procs[p];
      Move(s, p, Issuing(pc.purpose, pc.previous, pc.swap))
        .(guard := Stamped(s.clock), tally := s.tally.(stamps := s.tally.stamps + [s.clock]))
    case Issue(p, token, expiresIn) =>
      var pc := s.procs[p];
      Move(s, p, Issued(pc.purpose, pc.previous, token, expiresIn))
        .(vendor := IssueToken(s.vendor, token),
          tally := s.tally.(
            attempts := s.tally.attempts + 1,
            issues := s.tally.issues + 1,
            swaps := if pc.swap && pc.purpose.Replace? then s.tally.swaps + [pc.purpose.rejected] else s.tally.swaps))
    case IssueFails(p) =>
      Move(s, p, Releasing(Err(IssueFailed))).(tally := s.tally.(attempts := s.tally.attempts + 1))
    case Publish(p) =>
      var pc := s.procs[p];
      var record := BuildRecord(pc.token, pc.expiresIn, pc.previous, s.clock);
      Move(s, p, Releasing(Ok(record))).(file := Stored(record))
    case Release(p) => Move(s, p, Idle(Some(s.procs[p].outcome))).(lock := None)
    case Tick(now) => s.(clock := now)
    case Revoke =>
      s.(vendor := s.vendor.(dead := s.vendor.dead + {s.vendor.latest.value}),
         tally := s.tally.(revocations := s.tally.revocations + 1))
    case CorruptRecord => s.(file := Malformed)
    case CorruptGuard => s.(guard := BadGuard)
  }

  function ApplyCheck(s: State, p: Pid, v: CheckVerdict): State
    requires At(s, p) && s.procs[p].Holding?
  {
    match v
    case Fail(error) => Move(s, p, Releasing(Err(error)))
    case Adopt(record) => Move(s, p, Releasing(Ok(record)))
    case Clear(previous, swap) =>
      Move(s, p, Cleared(s.procs[p].purpose, previous, swap))
        .(tally := if swap then s.tally else s.tally.(emptyChecks := s.tally.emptyChecks + 1))
  }

  function ApplyGuard(c: Config, s: State, p: Pid): State
    requires p in c.stores && At(s, p) && s.procs[p].Cleared?
  {
    var pc := s.procs[p];
    if c.interval <= 0.0 then Move(s, p, Issuing(pc.purpose, pc.previous, pc.swap))
    else
      match GuardCheck(s.guard, c.interval, s.clock, c.stores[p])
      case Refuse(error) => Move(s, p, Releasing(Err(error)))
      case Proceed(notBefore) => Move(s, p, Sleeping(pc.purpose, pc.previous, pc.swap, notBefore))
  }

  // ---- Runs ----------------------------------------------------------------------------------

  predicate Initial(c: Config, s: State) {
    && c.stores.Keys == s.procs.Keys
    && (forall p | p in s.procs :: s.procs[p] == Idle(None))
    && s.lock.None?
    && s.vendor.dead <= s.vendor.issued
    && (s.vendor.latest.Some? ==> s.vendor.latest.value in s.vendor.issued)
    && (s.file.Stored? ==> s.vendor.latest == Some(s.file.record.token))
    && s.tally == Tally(0, 0, if s.vendor.latest.Some? && !LatestIsLive(s.vendor) then 1 else 0, 0, [],
                        if s.guard.Stamped? then [s.guard.at] else [])
  }

  /** `trace` follows `actions` from its first state, which need not be initial. */
  ghost predicate Follows(c: Config, trace: seq<State>, actions: seq<Action>) {
    && |trace| == |actions| + 1
    && (forall i | 0 <= i < |trace| :: trace[i].procs.Keys == c.stores.Keys)
    && (forall i | 0 <= i < |actions| :: Enabled(c, trace[i], actions[i]))
    && (forall i | 0 <= i < |actions| :: trace[i + 1] == Apply(c, trace[i], actions[i]))
  }

  ghost predicate IsRun(c: Config, trace: seq<State>, actions: seq<Action>) {
    Follows(c, trace, actions) && Initial(c, trace[0])
  }

  // ---- The inductive invariant ----------------------------------------------------------------

  predicate InLockedSection(pc: Pc) {
    pc.Holding? || pc.Cleared? || pc.Sleeping? || pc.Issuing? || pc.Issued? || pc.Releasing?
  }

  predicate PastCheck(pc: Pc) {
    pc.Cleared? || pc.Sleeping? || pc.Issuing? || pc.Issued?
  }

  predicate LockInv(s: State) {
    && (s.lock.Some? ==> s.lock.value in s.procs)
    && forall p | p in s.procs :: InLockedSection(s.procs[p]) <==> s.lock == Some(p)
  }

  predicate PurposeInv(s: State, purpose: Purpose) {
    purpose.Replace? ==> purpose.rejected in s.vendor.dead
  }

  /** The record on disk is still the one the holder re-read, unless the outside world damaged it. */
  predicate UnchangedSinceCheck(s: State, previous: Option<TokenRecord>) {
    s.file.Malformed? || s.file == (if previous.Some? then Stored(previous.value) else Missing)
  }

  predicate ClearedInv(s: State, purpose: Purpose, previous: Option<TokenRecord>, swap: bool) {
    && PurposeInv(s, purpose)
    && UnchangedSinceCheck(s, previous)
    && (previous.Some? ==> s.vendor.latest == Some(previous.value.token))
    && (swap ==> previous.Some? && purpose == Replace(previous.value.token))
  }

  predicate SpacedFromLast(stamps: seq<real>, interval: real, t: real) {
    |stamps| > 0 ==> t >= stamps[|stamps| - 1] + interval
  }

  predicate PcInv(c: Config, s: State, pc: Pc) {
    match pc
    case Waiting(purpose) => PurposeInv(s, purpose)
    case Holding(purpose) => PurposeInv(s, purpose)
    case Cleared(purpose, previous, swap) => ClearedInv(s, purpose, previous, swap)
    case Sleeping(purpose, previous, swap, until) =>
      ClearedInv(s, purpose, previous, swap) && SpacedFromLast(s.tally.stamps, c.interval, until)
    case Issuing(purpose, previous, swap) => ClearedInv(s, purpose, previous, swap)
    case Issued(purpose, previous, token, _) =>
      PurposeInv(s, purpose) && UnchangedSinceCheck(s, previous) && s.vendor.latest == Some(token)
    case _ => true
  }

  predicate SomeoneIssued(s: State) {
    s.lock.Some? && s.lock.value in s.procs && s.procs[s.lock.value].Issued?
  }

  predicate VendorInv(s: State) {
    && s.vendor.dead <= s.vendor.issued
    && (s.vendor.latest.Some? ==> s.vendor.latest.value in s.vendor.issued)
    && (s.file.Stored? && !SomeoneIssued(s) ==> s.vendor.latest == Some(s.file.record.token))
  }

  /** 1 while the lock holder may still issue on the strength of an already counted empty check. */
  function Owed(s: State): nat {
    if s.lock.Some? && s.lock.value in s.procs then
      match s.procs[s.lock.value]
      case Cleared(_, _, swap) => if swap then 0 else 1
      case Sleeping(_, _, swap, _) => if swap then 0 else 1
      case Issuing(_, _, swap) => if swap then 0 else 1
      case _ => 0
    else 0
  }

  /** 1 while a revocation has been counted but not yet answered by a new token. */
  function Unanswered(v: Vendor): nat {
    if v.latest.Some? && v.latest.value in v.dead then 1 else 0
  }

  predicate CountInv(s: State) {
    s.tally.issues + Owed(s) + Unanswered(s.vendor) <= s.tally.revocations + s.tally.emptyChecks
  }

  predicate SwapInv(s: State) {
    && (forall i | 0 <= i < |s.tally.swaps| ::
         s.tally.swaps[i] in s.vendor.issued && s.vendor.latest != Some(s.tally.swaps[i]))
    && (forall i, j | 0 <= i < j < |s.tally.swaps| :: s.tally.swaps[i] != s.tally.swaps[j])
  }

  predicate GuardInv(c: Config, s: State) {
    && Spaced(s.tally.stamps, c.interval)
    && (s.guard.Stamped? ==> |s.tally.stamps| > 0 && s.tally.stamps[|s.tally.stamps| - 1] == s.guard.at)
    && (s.guard.NoGuard? ==> s.tally.stamps == [])
  }

  ghost predicate Inv(c: Config, s: State) {
    && c.stores.Keys == s.procs.Keys
    && LockInv(s)
    && (forall p | p in s.procs :: PcInv(c, s, s.procs[p]))
    && VendorInv(s)
    && CountInv(s)
    && SwapInv(s)
    && (c.interval > 0.0 ==> GuardInv(c, s))
  }

  predicate InsideLock(a: Action) {
    a.Check? || a.ConsultGuard? || a.WriteStamp? || a.Issue? || a.IssueFails? || a.Publish?
  }

  lemma InitialInv(c: Config, s: State)
    requires Initial(c, s)
    ensures Inv(c, s)
  {
  }

  lemma StepLockInside(c: Config, s: State, a: Action)
    requires c.stores.Keys == s.procs.Keys && LockInv(s) && Enabled(c, s, a)
    requires InsideLock(a)
    ensures Apply(c, s, a).procs.Keys == s.procs.Keys && LockInv(Apply(c, s, a))
  {
  }

  lemma StepLockOutside(c: Config, s: State, a: Action)
    requires c.stores.Keys == s.procs.Keys && LockInv(s) && Enabled(c, s, a)
    requires !InsideLock(a)
    ensures Apply(c, s, a).procs.Keys == s.procs.Keys && LockInv(Apply(c, s, a))
  {
  }

  lemma StepLock(c: Config, s: State, a: Action)
    requires c.stores.Keys == s.procs.Keys && LockInv(s) && Enabled(c, s, a)
    ensures Apply(c, s, a).procs.Keys == s.procs.Keys && LockInv(Apply(c, s, a))
  {
    if InsideLock(a) { StepLockInside(c, s, a); } else { StepLockOutside(c, s, a); }
  }

  function Actor(a: Action): Option<Pid> {
    match a
    case Tick(_) => None
    case Revoke => None
    case CorruptRecord => None
    case CorruptGuard => None
    case _ => Some(a.p)
  }

  lemma StepOwnPcInside(c: Config, s: State, a: Action)
    requires Inv(c, s) && Enabled(c, s, a) && Actor(a).Some?
    requires InsideLock(a)
    ensures PcInv(c, Apply(c, s, a), Apply(c, s, a).procs[a.p])
  {
  }

  lemma StepOwnPcOutside(c: Config, s: State, a: Action)
    requires Inv(c, s) && Enabled(c, s, a) && Actor(a).Some?
    requires !InsideLock(a)
    ensures PcInv(c, Apply(c, s, a), Apply(c, s, a).procs[a.p])
  {
  }

  lemma StepOwnPc(c: Config, s: State, a: Action)
    requires Inv(c, s) && Enabled(c, s, a) && Actor(a).Some?
    ensures PcInv(c, Apply(c, s, a), Apply(c, s, a).procs[a.p])
  {
    if InsideLock(a) { StepOwnPcInside(c, s, a); } else { StepOwnPcOutside(c, s, a); }
  }

  lemma StepOtherPcInside(c: Config, s: State, a: Action, p: Pid)
    requires Inv(c, s) && Enabled(c, s, a) && p in s.procs && Actor(a) != Some(p)
    requires InsideLock(a)
    ensures Apply(c, s, a).procs[p] == s.procs[p] && PcInv(c, Apply(c, s, a), s.procs[p])
  {
  }

  lemma StepOtherPcOutside(c: Config, s: State, a: Action, p: Pid)
    requires Inv(c, s) && Enabled(c, s, a) && p in s.procs && Actor(a) != Some(p)
    requires !InsideLock(a)
    ensures Apply(c, s, a).procs[p] == s.procs[p] && PcInv(c, Apply(c, s, a), s.procs[p])
  {
  }

  lemma StepOtherPc(c: Config, s: State, a: Action, p: Pid)
    requires Inv(c, s) && Enabled(c, s, a) && p in s.procs && Actor(a) != Some(p)
    ensures Apply(c, s, a).procs[p] == s.procs[p] && PcInv(c, Apply(c, s, a), s.procs[p])
  {
    if InsideLock(a) { StepOtherPcInside(c, s, a, p); } else { StepOtherPcOutside(c, s, a, p); }
  }

  lemma StepVendor(c: Config, s: State, a: Action)
    requires Inv(c, s) && Enabled(c, s, a)
    ensures VendorInv(Apply(c, s, a))
  {
  }

  lemma StepCount(c: Config, s: State, a: Action)
    requires Inv(c, s) && Enabled(c, s, a)
    ensures CountInv(Apply(c, s, a))
  {
  }

  lemma StepSwap(c: Config, s: State, a: Action)
    requires Inv(c, s) && Enabled(c, s, a)
    ensures SwapInv(Apply(c, s, a))
  {
  }

  lemma StepGuardInside(c: Config, s: State, a: Action)
    requires Inv(c, s) && Enabled(c, s, a) && c.interval > 0.0
    requires InsideLock(a)
    ensures GuardInv(c, Apply(c, s, a))
  {
  }

  lemma StepGuardOutside(c: Config, s: State, a: Action)
    requires Inv(c, s) && Enabled(c, s, a) && c.interval > 0.0
    requires !InsideLock(a)
    ensures GuardInv(c, Apply(c, s, a))
  {
  }

  lemma StepGuard(c: Config, s: State, a: Action)
    requires Inv(c, s) && Enabled(c, s, a) && c.interval > 0.0
    ensures GuardInv(c, Apply(c, s, a))
  {
    if InsideLock(a) { StepGuardInside(c, s, a); } else { StepGuardOutside(c, s, a); }
  }

  lemma StepInv(c: Config, s: State, a: Action)
    requires Inv(c, s) && Enabled(c, s, a)
    ensures Inv(c, Apply(c, s, a))
  {
    StepLock(c, s, a);
    var s' := Apply(c, s, a);
    forall p | p in s'.procs
      ensures PcInv(c, s', s'.procs[p])
    {
      if Actor(a) == Some(p) { StepOwnPc(c, s, a); } else { StepOtherPc(c, s, a, p); }
    }
    StepVendor(c, s, a);
    StepCount(c, s, a);
    StepSwap(c, s, a);
    if c.interval > 0.0 { StepGuard(c, s, a); }
  }

  lemma {:induction false} FollowsInv(c: Config, trace: seq<State>, actions: seq<Action>, k: nat)
    requires Follows(c, trace, actions) && Inv(c, trace[0]) && k < |trace|
    ensures Inv(c, trace[k])
  {
    if k > 0 {
      FollowsInv(c, trace, actions, k - 1);
      StepInv(c, trace[k - 1], actions[k - 1]);
    }
  }

  lemma RunInv(c: Config, trace: seq<State>, actions: seq<Action>, k: nat)
    requires IsRun(c, trace, actions) && k < |trace|
    ensures Inv(c, trace[k])
  {
    InitialInv(c, trace[0]);
    FollowsInv(c, trace, actions, k);
  }

  // ---- What holds over every run -------------------------------------------------------------

  /** At most one process is between taking and giving back the lock. */
  lemma MutualExclusion(c: Config, trace: seq<State>, actions: seq<Action>, k: nat, p: Pid, q: Pid)
    requires IsRun(c, trace, actions) && k < |trace|
    requires p in trace[k].procs && InLockedSection(trace[k].procs[p])
    requires q in trace[k].procs && InLockedSection(trace[k].procs[q])
    ensures p == q && trace[k].lock == Some(p)
  {
    RunInv(c, trace, actions, k);
  }

  /** Every token issued is paid for by an outside revocation or by a locked check that found nothing usable. */
  lemma IssuancesAreBounded(c: Config, trace: seq<State>, actions: seq<Action>, k: nat)
    requires IsRun(c, trace, actions) && k < |trace|
    ensures var t := trace[k].tally; t.issues <= t.revocations + t.emptyChecks
  {
    RunInv(c, trace, actions, k);
  }

  /** The process at `k` may issue although its own locked check, at some earlier `j`, swapped nothing out. */
  ghost predicate ClearedByEmptyCheck(c: Config, trace: seq<State>, actions: seq<Action>, j: nat, k: nat, p: Pid)
    requires Follows(c, trace, actions) && k < |trace|
  {
    && j < k
    && actions[j] == Check(p)
    && (trace[j].file.Stored? ==> !IsUsable(trace[j].file.record, trace[j].clock, c.stores[p]))
    && !trace[j].file.Malformed?
    && forall i | j <= i <= k :: trace[i].lock == Some(p)
  }

  predicate ClearedEmpty(pc: Pc) {
    (pc.Cleared? || pc.Sleeping? || pc.Issuing?) && !pc.swap
  }

  lemma EmptyClearanceStep(c: Config, s: State, a: Action, p: Pid)
    requires Inv(c, s) && Enabled(c, s, a)
    requires p in s.procs && ClearedEmpty(Apply(c, s, a).procs[p])
    ensures s.lock == Some(p)
    ensures
      || ClearedEmpty(s.procs[p])
      || (a == Check(p) && !s.file.Malformed? && (s.file.Stored? ==> !IsUsable(s.file.record, s.clock, c.stores[p])))
  {
  }

  lemma {:induction false} EmptyCheckCameFirst(c: Config, trace: seq<State>, actions: seq<Action>, k: nat, p: Pid)
    returns (j: nat)
    requires IsRun(c, trace, actions) && k < |trace|
    requires p in trace[k].procs && ClearedEmpty(trace[k].procs[p])
    ensures ClearedByEmptyCheck(c, trace, actions, j, k, p)
  {
    RunInv(c, trace, actions, k);
    assert trace[k].lock == Some(p);
    RunInv(c, trace, actions, k - 1);
    EmptyClearanceStep(c, trace[k - 1], actions[k - 1], p);
    if ClearedEmpty(trace[k - 1].procs[p]) {
      j := EmptyCheckCameFirst(c, trace, actions, k - 1, p);
    } else {
      j := k - 1;
    }
  }

  /**
   * An issue never kills a token that is still accepted, unless the issuing process itself found, under the
   * lock it still holds, that the shared record was absent or no longer usable.
   */
  lemma RedundantIssueKillsNothing(c: Config, trace: seq<State>, actions: seq<Action>, k: nat)
    returns (j: nat)
    requires IsRun(c, trace, actions) && k < |actions|
    requires actions[k].Issue? && LatestIsLive(trace[k].vendor)
    ensures ClearedByEmptyCheck(c, trace, actions, j, k, actions[k].p)
  {
    RunInv(c, trace, actions, k);
    j := EmptyCheckCameFirst(c, trace, actions, k, actions[k].p);
  }

  /**
   * Every publication carries a generation one above the record that the publisher re-read under the lock, or
   * one; unless the record was damaged in between, that is one above the generation on disk.
   */
  lemma PublishRaisesGenerationByOne(c: Config, trace: seq<State>, actions: seq<Action>, k: nat)
    requires IsRun(c, trace, actions) && k < |actions|
    requires actions[k].Publish?
    ensures trace[k + 1].file.Stored? && trace[k].procs[actions[k].p].Issued?
    ensures var previous := trace[k].procs[actions[k].p].previous;
            trace[k + 1].file.record.generation == if previous.Some? then previous.value.generation + 1 else 1
    ensures !trace[k].file.Malformed? ==>
              trace[k + 1].file.record.generation
              == if trace[k].file.Stored? then trace[k].file.record.generation + 1 else 1
  {
    RunInv(c, trace, actions, k);
  }

  /** A rejected token is swapped for a new one at most once, whatever number of processes saw it rejected. */
  lemma OneSwapPerRejectedToken(c: Config, trace: seq<State>, actions: seq<Action>, k: nat)
    requires IsRun(c, trace, actions) && k < |trace|
    ensures forall i, j | 0 <= i < j < |trace[k].tally.swaps| :: trace[k].tally.swaps[i] != trace[k].tally.swaps[j]
  {
    RunInv(c, trace, actions, k);
  }

  // ---- A settled record is adopted by everybody -------------------------------------------------

  predicate NobodyPastCheck(s: State) {
    forall p | p in s.procs :: !PastCheck(s.procs[p])
  }

  predicate Settled(s: State, record: TokenRecord) {
    && s.file == Stored(record)
    && s.vendor.latest == Some(record.token)
    && LatestIsLive(s.vendor)
    && NobodyPastCheck(s)
  }

  ghost predicate Undisturbed(c: Config, trace: seq<State>, actions: seq<Action>, record: TokenRecord)
    requires Follows(c, trace, actions)
  {
    && (forall i | 0 <= i < |actions| :: !actions[i].Revoke? && !actions[i].CorruptRecord?)
    && (forall i, p | 0 <= i < |actions| && p in c.stores :: IsUsable(record, trace[i].clock, c.stores[p]))
  }

  /** Publishing a token that is still accepted settles the record. */
  lemma PublishSettles(c: Config, trace: seq<State>, actions: seq<Action>, k: nat)
    requires IsRun(c, trace, actions) && k < |actions|
    requires actions[k].Publish? && LatestIsLive(trace[k].vendor)
    ensures trace[k + 1].file.Stored? && Settled(trace[k + 1], trace[k + 1].file.record)
  {
    RunInv(c, trace, actions, k);
    RunInv(c, trace, actions, k + 1);
  }

  lemma {:induction false} StaysSettled(c: Config, trace: seq<State>, actions: seq<Action>, record: TokenRecord, k: nat)
    requires Follows(c, trace, actions) && Inv(c, trace[0]) && k < |trace|
    requires Settled(trace[0], record) && Undisturbed(c, trace, actions, record)
    ensures Settled(trace[k], record) && trace[k].tally.issues == trace[0].tally.issues
  {
    if k > 0 {
      StaysSettled(c, trace, actions, record, k - 1);
      FollowsInv(c, trace, actions, k - 1);
      SettledStep(c, trace[k - 1], actions[k - 1], record);
    }
  }

  lemma SettledStep(c: Config, s: State, a: Action, record: TokenRecord)
    requires Inv(c, s) && Enabled(c, s, a) && Settled(s, record)
    requires !a.Revoke? && !a.CorruptRecord?
    requires forall p | p in c.stores :: IsUsable(record, s.clock, c.stores[p])
    ensures Settled(Apply(c, s, a), record)
    ensures Apply(c, s, a).tally.issues == s.tally.issues
    ensures a.Check? ==> Apply(c, s, a).procs[a.p] == Releasing(Ok(record))
  {
    if a.Check? {
      assert LockedCheck(s.file, s.procs[a.p].purpose, s.clock, c.stores[a.p]) == Adopt(record);
    }
  }

  /**
   * Once one replacement is published, every later locked check by any process, whichever token it saw
   * rejected, adopts exactly that record and nobody issues again, for as long as the token stays accepted
   * and usable.
   */
  lemma EverybodyAdopts(c: Config, trace: seq<State>, actions: seq<Action>, record: TokenRecord, k: nat)
    requires Follows(c, trace, actions) && Inv(c, trace[0]) && k < |actions|
    requires Settled(trace[0], record) && Undisturbed(c, trace, actions, record)
    ensures trace[k + 1].file == Stored(record) && trace[k + 1].tally.issues == trace[0].tally.issues
    ensures !actions[k].Issue? && !actions[k].Publish?
    ensures actions[k].Check? ==> trace[k + 1].procs[actions[k].p] == Releasing(Ok(record))
  {
    StaysSettled(c, trace, actions, record, k);
    FollowsInv(c, trace, actions, k);
    SettledStep(c, trace[k], actions[k], record);
  }

  // ---- Spacing of issue attempts ---------------------------------------------------------------

  predicate IsIssuing(s: State) {
    s.lock.Some? && s.lock.value in s.procs && s.procs[s.lock.value].Issuing?
  }

  /** Under a minimum issue interval every attempt writes its own stamp, and stamps are an interval apart. */
  lemma {:induction false} IssueAttemptsAreSpaced(c: Config, trace: seq<State>, actions: seq<Action>, k: nat)
    requires IsRun(c, trace, actions) && k < |trace| && c.interval > 0.0
    ensures Spaced(trace[k].tally.stamps, c.interval)
    ensures |trace[k].tally.stamps| ==
            |trace[0].tally.stamps| + trace[k].tally.attempts + (if IsIssuing(trace[k]) then 1 else 0)
  {
    RunInv(c, trace, actions, k);
    if k > 0 {
      IssueAttemptsAreSpaced(c, trace, actions, k - 1);
      RunInv(c, trace, actions, k - 1);
      StampPerAttempt(c, trace[k - 1], actions[k - 1]);
    }
  }

  lemma StampPerAttemptInside(c: Config, s: State, a: Action)
    requires Inv(c, s) && Enabled(c, s, a) && c.interval > 0.0
    requires InsideLock(a)
    ensures var s' := Apply(c, s, a);
            |s'.tally.stamps| - s'.tally.attempts - (if IsIssuing(s') then 1 else 0)
            == |s.tally.stamps| - s.tally.attempts - (if IsIssuing(s) then 1 else 0)
  {
  }

  lemma StampPerAttemptOutside(c: Config, s: State, a: Action)
    requires Inv(c, s) && Enabled(c, s, a) && c.interval > 0.0
    requires !InsideLock(a)
    ensures var s' := Apply(c, s, a);
            |s'.tally.stamps| - s'.tally.attempts - (if IsIssuing(s') then 1 else 0)
            == |s.tally.stamps| - s.tally.attempts - (if IsIssuing(s) then 1 else 0)
  {
  }

  lemma StampPerAttempt(c: Config, s: State, a: Action)
    requires Inv(c, s) && Enabled(c, s, a) && c.interval > 0.0
    ensures var s' := Apply(c, s, a);
            |s'.tally.stamps| - s'.tally.attempts - (if IsIssuing(s') then 1 else 0)
            == |s.tally.stamps| - s.tally.attempts - (if IsIssuing(s) then 1 else 0)
  {
    if InsideLock(a) { StampPerAttemptInside(c, s, a); } else { StampPerAttemptOutside(c, s, a); }
  }
}
