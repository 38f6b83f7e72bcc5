/**
 * `get_or_issue`, `replace_rejected` and the client methods that call them as the source writes them: statements
 * that read and rewrite the record and guard files. Each method hands back, as a ghost, the protocol actions it stands
 * for; executing them from any protocol state that shows the files ends in a state that shows them again.
 */
module TokenStore {
  import opened Common
  import opened TokenRecords
  import opened TokenProtocol

  /** The state after `actions`, or None when one of them is not enabled. */
  ghost function Execute(c: Config, s: State, actions: seq<Action>): (end: Option<State>)
    requires c.stores.Keys == s.procs.Keys
    ensures end.Some? ==> end.value.procs.Keys == c.stores.Keys
    decreases |actions|
  {
    if actions == [] then Some(s)
    else if Enabled(c, s, actions[0]) && Apply(c, s, actions[0]).procs.Keys == c.stores.Keys then
      Execute(c, Apply(c, s, actions[0]), actions[1..])
    else None
  }

  lemma {:induction false} ExecuteTwo(c: Config, s: State, first: seq<Action>, second: seq<Action>)
    requires c.stores.Keys == s.procs.Keys && Execute(c, s, first).Some?
    ensures Execute(c, s, first + second) == Execute(c, Execute(c, s, first).value, second)
    decreases |first|
  {
    if first == [] {
      assert first + second == second;
    } else {
      assert (first + second)[0] == first[0] && (first + second)[1..] == first[1..] + second;
      ExecuteTwo(c, Apply(c, s, first[0]), first[1..], second);
    }
  }

  lemma ExecuteOne(c: Config, s: State, a: Action)
    requires c.stores.Keys == s.procs.Keys && Enabled(c, s, a) && Apply(c, s, a).procs.Keys == c.stores.Keys
    ensures Execute(c, s, [a]) == Some(Apply(c, s, a))
  {
    assert Execute(c, s, [a]) == Execute(c, Apply(c, s, a), []);
  }

  lemma ExecuteThree(c: Config, s: State, first: seq<Action>, t: State, second: seq<Action>, u: State,
      third: seq<Action>)
    requires c.stores.Keys == s.procs.Keys && c.stores.Keys == t.procs.Keys && c.stores.Keys == u.procs.Keys
    requires Execute(c, s, first) == Some(t) && Execute(c, t, second) == Some(u)
    ensures Execute(c, s, first + (second + third)) == Execute(c, u, third)
  {
    ExecuteTwo(c, t, second, third);
    ExecuteTwo(c, s, first, second + third);
  }

  lemma Regroup(first: seq<Action>, a: Action, rest: seq<Action>)
    ensures first + [a] + rest == first + ([a] + rest)
  {
  }

  /** None of these steps is one of `p`. */
  predicate OfOthers(actions: seq<Action>, p: Pid) {
    forall a | a in actions :: Actor(a) != Some(p)
  }

  /** Steps of `p` itself, and time passing. */
  predicate OfOne(actions: seq<Action>, p: Pid) {
    forall a | a in actions :: a.Tick? || Actor(a) == Some(p)
  }

  /** Whatever the others do, `p` stays where it is, and no token is ever un-issued. */
  lemma {:induction false} OthersLeaveAlone(c: Config, s: State, actions: seq<Action>, p: Pid)
    requires c.stores.Keys == s.procs.Keys && p in s.procs && OfOthers(actions, p) && Execute(c, s, actions).Some?
    ensures Execute(c, s, actions).value.procs[p] == s.procs[p]
    ensures s.vendor.issued <= Execute(c, s, actions).value.vendor.issued
    decreases |actions|
  {
    if actions != [] {
      assert actions[0] in actions;
      OthersLeaveAlone(c, Apply(c, s, actions[0]), actions[1..], p);
    }
  }

  /** What one poll of the lock finds. */
  datatype Found = Found(record: RecordFile, guard: GuardFile, clock: real, free: bool)

  /** A wait ends when the lock is free or the deadline has passed. */
  predicate Ends(poll: Found, deadline: real) {
    poll.free || poll.clock >= deadline
  }

  /** The first poll that ends the wait. */
  function LastPoll(polls: seq<Found>, deadline: real): (n: nat)
    requires polls != [] && Ends(polls[|polls| - 1], deadline)
    ensures n < |polls| && Ends(polls[n], deadline) && forall k | 0 <= k < n :: !Ends(polls[k], deadline)
  {
    if Ends(polls[0], deadline) then 0 else 1 + LastPoll(polls[1..], deadline)
  }

  /** What the world does to one call: its polls of the lock, the extra time slept, the vendor's answer and its time. */
  datatype Fortune = Fortune(polls: seq<Found>, oversleep: real, reply: Option<(Token, Option<real>)>, took: real)

  function Joined(turns: seq<seq<Action>>): seq<Action> {
    if turns == [] then [] else Joined(turns[..|turns| - 1]) + turns[|turns| - 1]
  }

  /** The state shows what this poll finds. */
  predicate ShowsPoll(m: State, poll: Found) {
    && m.file == poll.record && m.guard == poll.guard && m.clock == poll.clock
    && (if poll.free then m.lock.None? else m.lock.Some?)
  }

  /** `turns[k]` are steps of others before the k-th poll, which finds what they have left. */
  ghost predicate Seen(c: Config, p: Pid, s: State, turns: seq<seq<Action>>, polls: seq<Found>)
    requires c.stores.Keys == s.procs.Keys && |turns| == |polls|
    decreases |turns|
  {
    turns == []
    || (&& OfOthers(turns[0], p) && Execute(c, s, turns[0]).Some?
        && ShowsPoll(Execute(c, s, turns[0]).value, polls[0])
        && Seen(c, p, Execute(c, s, turns[0]).value, turns[1..], polls[1..]))
  }

  /** The steps of others up to the n-th poll, and that poll. */
  lemma {:induction false} SeenAt(c: Config, p: Pid, s: State, turns: seq<seq<Action>>, polls: seq<Found>, n: nat)
    requires c.stores.Keys == s.procs.Keys && |turns| == |polls| && n < |turns| && Seen(c, p, s, turns, polls)
    ensures OfOthers(Joined(turns[..n + 1]), p)
    ensures Execute(c, s, Joined(turns[..n + 1])).Some?
    ensures ShowsPoll(Execute(c, s, Joined(turns[..n + 1])).value, polls[n])
    decreases n
  {
    var rest := turns[1..];
    JoinedStep(turns[..n + 1]);
    if n == 0 {
      assert turns[..1][1..] == [];
      assert turns[0] + [] == turns[0];
    } else {
      SeenAt(c, p, Execute(c, s, turns[0]).value, rest, polls[1..], n - 1);
      assert turns[..n + 1][1..] == rest[..n];
      ExecuteTwo(c, s, turns[0], Joined(rest[..n]));
    }
  }

  lemma {:induction false} JoinedStep(turns: seq<seq<Action>>)
    requires turns != []
    ensures Joined(turns) == turns[0] + Joined(turns[1..])
  {
    var n := |turns| - 1;
    if n > 0 {
      JoinedStep(turns[..n]);
      assert turns[..n][1..] == turns[1..][..n - 1];
    }
  }

  /** The wait of `p` ends: it takes the lock if the poll found it free, and gives up otherwise. */
  lemma WaitEnds(c: Config, p: Pid, s: State, heard: seq<Action>, m: State, poll: Found, purpose: Purpose)
    returns (own: Action, end: State)
    requires c.stores.Keys == s.procs.Keys && p in s.procs && s.procs[p] == Waiting(purpose)
    requires OfOthers(heard, p) && Execute(c, s, heard) == Some(m) && ShowsPoll(m, poll)
    ensures own == (if poll.free then Acquire(p) else TimeOut(p)) && Execute(c, s, heard + [own]) == Some(end)
    ensures end.procs.Keys == c.stores.Keys && end.file == poll.record && end.guard == poll.guard
    ensures end.clock == poll.clock && end.tally == m.tally && end.vendor == m.vendor
    ensures end.procs[p] == if poll.free then Holding(purpose) else Idle(Some(Err(LockTimeout)))
    ensures (poll.free ==> end.lock == Some(p)) && s.vendor.issued <= m.vendor.issued
  {
    OthersLeaveAlone(c, s, heard, p);
    own := if poll.free then Acquire(p) else TimeOut(p);
    ExecuteOne(c, m, own);
    ExecuteTwo(c, s, heard, [own]);
    end := Apply(c, m, own);
  }

  /** The section done, `p` gives the lock back. */
  lemma SectionEnds(c: Config, p: Pid, s: State, before: seq<Action>, first: Action, held: State, section: seq<Action>,
      done: State, outcome: Outcome)
    returns (own: seq<Action>, end: State)
    requires c.stores.Keys == s.procs.Keys && c.stores.Keys == held.procs.Keys && c.stores.Keys == done.procs.Keys
    requires Execute(c, s, before + [first]) == Some(held) && Execute(c, held, section) == Some(done)
    requires Actor(first) == Some(p) && OfOne(section, p)
    requires p in done.procs && done.procs[p] == Releasing(outcome)
    ensures Execute(c, s, before + own) == Some(end) && OfOne(own, p)
    ensures end.procs.Keys == c.stores.Keys && end.procs[p] == Idle(Some(outcome))
    ensures end.file == done.file && end.guard == done.guard && end.clock == done.clock && end.tally == done.tally
  {
    end := Apply(c, done, Release(p));
    ExecuteOne(c, done, Release(p));
    ExecuteThree(c, s, before + [first], held, section, done, [Release(p)]);
    Regroup(before, first, section + [Release(p)]);
    own := [first] + (section + [Release(p)]);
  }

  class TokenStore {
    const pid: Pid
    const config: Config
    var record: RecordFile
    var guard: GuardFile
    var clock: real

    constructor (pid: Pid, config: Config, record: RecordFile, guard: GuardFile, clock: real)
      requires pid in config.stores
      ensures this.pid == pid && this.config == config
      ensures this.record == record && this.guard == guard && this.clock == clock
    {
      this.pid, this.config, this.record, this.guard, this.clock := pid, config, record, guard, clock;
    }

    /** The protocol state `s` shows these files and this clock, with this process at `pc`. */
    ghost predicate Shows(s: State, pc: Pc)
      reads this
    {
      && s.procs.Keys == config.stores.Keys && pid in s.procs
      && s.procs[pid] == pc
      && s.file == record && s.guard == guard && s.clock == clock
    }

    /** The same, with the lock held by this process. */
    ghost predicate Mirrors(s: State, pc: Pc)
      reads this
    {
      Shows(s, pc) && s.lock == Some(pid)
    }

    ghost predicate Performs(s: State, actions: seq<Action>, end: State)
      requires s.procs.Keys == config.stores.Keys
    {
      Execute(config, s, actions) == Some(end)
    }

    ghost function Deadline(w: State): real
      requires w.procs.Keys == config.stores.Keys && pid in w.procs
    {
      w.clock + config.stores[pid].lockTimeout
    }

    /** The poll that ends a wait which begins in `w`. */
    ghost function Final(w: State, f: Fortune): Found
      requires w.procs.Keys == config.stores.Keys && pid in w.procs
      requires f.polls != [] && Ends(f.polls[|f.polls| - 1], Deadline(w))
    {
      f.polls[LastPoll(f.polls, Deadline(w))]
    }

    /** Others do `heard` and leave `m` until a wait that begins in `w` ends; the polls of `f` outlast it. */
    ghost predicate Waits(w: State, f: Fortune, heard: seq<Action>, m: State)
      requires w.procs.Keys == config.stores.Keys && pid in w.procs
    {
      && f.oversleep >= 0.0 && f.took >= 0.0
      && f.polls != [] && Ends(f.polls[|f.polls| - 1], Deadline(w))
      && OfOthers(heard, pid) && Execute(config, w, heard) == Some(m)
      && ShowsPoll(m, Final(w, f))
      && (f.reply.Some? ==> f.reply.value.0 !in m.vendor.issued)
    }

    /** Whatever the others do between the polls, what they have done by the last one makes a wait. */
    lemma TurnsMakeAWait(w: State, turns: seq<seq<Action>>, f: Fortune) returns (heard: seq<Action>, m: State)
      requires w.procs.Keys == config.stores.Keys && pid in w.procs
      requires f.oversleep >= 0.0 && f.took >= 0.0
      requires f.polls != [] && Ends(f.polls[|f.polls| - 1], Deadline(w))
      requires |turns| == |f.polls| && Seen(config, pid, w, turns, f.polls)
      ensures heard == Joined(turns[..LastPoll(f.polls, Deadline(w)) + 1])
      ensures f.reply.None? || f.reply.value.0 !in m.vendor.issued ==> Waits(w, f, heard, m)
    {
      var n := LastPoll(f.polls, Deadline(w));
      SeenAt(config, pid, w, turns, f.polls, n);
      heard := Joined(turns[..n + 1]);
      m := Execute(config, w, heard).value;
    }

    /** Try the lock, and try again after a sleep until it is free or the deadline has passed. */
    method PollLock(polls: seq<Found>, deadline: real) returns (k: nat)
      requires polls != [] && Ends(polls[|polls| - 1], deadline)
      modifies this
      ensures k == LastPoll(polls, deadline)
      ensures record == polls[k].record && guard == polls[k].guard && clock == polls[k].clock
    {
      k := 0;
      record, guard, clock := polls[0].record, polls[0].guard, polls[0].clock;
      while !polls[k].free && clock < deadline
        invariant k < |polls| && forall j | 0 <= j < k :: !Ends(polls[j], deadline)
        invariant record == polls[k].record && guard == polls[k].guard && clock == polls[k].clock
        decreases |polls| - k
      {
        k := k + 1;
        record, guard, clock := polls[k].record, polls[k].guard, polls[k].clock;
      }
    }

    /** Wait for the lock while others act: hold it over the files as they left them, or time out. */
    method HoldLock(f: Fortune, ghost purpose: Purpose, ghost s: State, ghost heard: seq<Action>, ghost m: State)
      returns (held: bool, ghost own: Action, ghost end: State)
      requires Shows(s, Waiting(purpose)) && Waits(s, f, heard, m)
      modifies this
      ensures record == Final(s, f).record && held == Final(s, f).free
      ensures !held ==> clock >= old(clock) + config.stores[pid].lockTimeout
      ensures own == (if held then Acquire(pid) else TimeOut(pid)) && Performs(s, heard + [own], end)
      ensures if held then Mirrors(end, Holding(purpose)) else Shows(end, Idle(Some(Err(LockTimeout))))
      ensures end.tally == m.tally && end.vendor == m.vendor && s.vendor.issued <= m.vendor.issued
    {
      var k := PollLock(f.polls, clock + config.stores[pid].lockTimeout);
      held := f.polls[k].free;
      own, end := WaitEnds(config, pid, s, heard, m, f.polls[k], purpose);
    }

    /** Wait out or refuse the minimum issue interval, then stamp the guard; `oversleep` is the extra time slept. */
    method GuardBeforeIssue(oversleep: real, ghost s: State, ghost purpose: Purpose,
        ghost previous: Option<TokenRecord>, ghost swap: bool)
      returns (refusal: Option<StoreError>, ghost actions: seq<Action>, ghost end: State)
      requires oversleep >= 0.0 && Mirrors(s, Cleared(purpose, previous, swap))
      modifies this
      ensures record == old(record) && clock >= old(clock)
      ensures Performs(s, actions, end) && OfOne(actions, pid)
      ensures Mirrors(end, if refusal.Some? then Releasing(Err(refusal.value)) else Issuing(purpose, previous, swap))
      ensures end.vendor == s.vendor && end.tally.attempts == s.tally.attempts
      ensures refusal.None? && config.interval > 0.0 ==> guard == Stamped(clock)
      ensures refusal.Some? ==> guard == old(guard) && (refusal.value == ReadError || refusal.value == Throttled)
    {
      actions := [ConsultGuard(pid)];
      end := Apply(config, s, ConsultGuard(pid));
      ExecuteOne(config, s, ConsultGuard(pid));
      if config.interval <= 0.0 {
        return None, actions, end;
      }
      var wait := 0.0;
      match guard {
        case BadGuard => return Some(ReadError), actions, end;
        case NoGuard =>
        case Stamped(last) =>
          if last + config.interval - clock > 0.0 {
            wait := last + config.interval - clock;
          }
      }
      if wait > 0.0 {
        if config.stores[pid].policy == Raise {
          return Some(Throttled), actions, end;
        }
        if wait > config.stores[pid].lockTimeout {
          return Some(Throttled), actions, end;
        }
      }
      clock := clock + wait + oversleep;
      guard := Stamped(clock);
      ghost var woken := Apply(config, end, Tick(clock));
      ghost var stamped := Apply(config, woken, WriteStamp(pid));
      ExecuteOne(config, end, Tick(clock));
      ExecuteOne(config, woken, WriteStamp(pid));
      ExecuteTwo(config, end, [Tick(clock)], [WriteStamp(pid)]);
      ExecuteTwo(config, s, actions, [Tick(clock)] + [WriteStamp(pid)]);
      return None, actions + ([Tick(clock)] + [WriteStamp(pid)]), stamped;
    }

    /** Ask the vendor, which takes a while, and publish; `reply` is the vendor's answer, None a failed issue. */
    method IssueAndPublish(cached: Option<TokenRecord>, reply: Option<(Token, Option<real>)>, took: real,
        ghost s: State)
      returns (outcome: Outcome, ghost actions: seq<Action>, ghost end: State)
      requires s.procs.Keys == config.stores.Keys && pid in s.procs && s.procs[pid].Issuing?
      requires Mirrors(s, s.procs[pid]) && s.procs[pid].previous == cached
      requires took >= 0.0 && (reply.Some? ==> reply.value.0 !in s.vendor.issued)
      modifies this`record, this`clock
      ensures Performs(s, actions, end) && OfOne(actions, pid)
      ensures Mirrors(end, Releasing(outcome))
      ensures end.tally.attempts == s.tally.attempts + 1 && clock == old(clock) + took
      ensures outcome.Ok? ==> reply.Some? && record == Stored(outcome.value)
                              && outcome.value == BuildRecord(reply.value.0, reply.value.1, cached, clock)
      ensures outcome.Err? ==> outcome.error == IssueFailed && reply.None? && record == old(record)
    {
      clock := clock + took;
      ghost var later := Apply(config, s, Tick(clock));
      ExecuteOne(config, s, Tick(clock));
      if reply.None? {
        ExecuteOne(config, later, IssueFails(pid));
        ExecuteTwo(config, s, [Tick(clock)], [IssueFails(pid)]);
        return Err(IssueFailed), [Tick(clock)] + [IssueFails(pid)], Apply(config, later, IssueFails(pid));
      }
      var built := BuildRecord(reply.value.0, reply.value.1, cached, clock);
      record := Stored(built);
      ghost var issue := Issue(pid, reply.value.0, reply.value.1);
      ghost var issued := Apply(config, later, issue);
      end := Apply(config, issued, Publish(pid));
      ExecuteOne(config, later, issue);
      ExecuteOne(config, issued, Publish(pid));
      ExecuteTwo(config, later, [issue], [Publish(pid)]);
      ExecuteTwo(config, s, [Tick(clock)], [issue] + [Publish(pid)]);
      return Ok(built), [Tick(clock)] + ([issue] + [Publish(pid)]), end;
    }

    /** Everything between taking and releasing the lock: at most one vendor call, and none when a record is adopted. */
    method LockedSection(purpose: Purpose, f: Fortune, ghost s: State)
      returns (outcome: Outcome, ghost actions: seq<Action>, ghost end: State)
      requires f.oversleep >= 0.0 && f.took >= 0.0 && Mirrors(s, Holding(purpose))
      requires f.reply.Some? ==> f.reply.value.0 !in s.vendor.issued
      modifies this
      ensures Performs(s, actions, end) && OfOne(actions, pid)
      ensures Mirrors(end, Releasing(outcome))
      ensures end.tally.attempts <= s.tally.attempts + 1
      ensures outcome.Ok? ==> record == Stored(outcome.value)
      ensures outcome.Ok? ==> (end.tally.attempts == s.tally.attempts <==> record == old(record))
      ensures outcome.Ok? && purpose.Replace? && purpose.rejected in s.vendor.issued ==>
              outcome.value.token != purpose.rejected
      ensures outcome.Err? ==> record == old(record) && outcome.error != LockTimeout
    {
      actions := [Check(pid)];
      end := Apply(config, s, Check(pid));
      ExecuteOne(config, s, Check(pid));
      var cached := None;
      match record {
        case Malformed => return Err(ReadError), actions, end;
        case Missing =>
        case Stored(r) =>
          cached := Some(r);
          if (purpose.Get? || r.token != purpose.rejected) && IsUsable(r, clock, config.stores[pid]) {
            return Ok(r), actions, end;
          }
      }
      ghost var swap := end.procs[pid].swap;
      var refusal, guarded, ready := GuardBeforeIssue(f.oversleep, end, purpose, cached, swap);
      ExecuteTwo(config, s, actions, guarded);
      actions, end := actions + guarded, ready;
      if refusal.Some? {
        return Err(refusal.value), actions, end;
      }
      var result, final, last := IssueAndPublish(cached, f.reply, f.took, end);
      ExecuteTwo(config, s, actions, final);
      return result, actions + final, last;
    }

    /** From waiting for the lock to giving it back; `own` are the steps after the wait. */
    method UnderLock(purpose: Purpose, f: Fortune, ghost s: State, ghost heard: seq<Action>, ghost m: State)
      returns (outcome: Outcome, ghost own: seq<Action>, ghost end: State)
      requires Shows(s, Waiting(purpose)) && Waits(s, f, heard, m)
      modifies this
      ensures Performs(s, heard + own, end) && OfOne(own, pid) && Shows(end, Idle(Some(outcome)))
      ensures outcome == Err(LockTimeout) <==> !Final(s, f).free
      ensures outcome == Err(LockTimeout) ==> clock >= old(clock) + config.stores[pid].lockTimeout
      ensures end.tally.attempts <= m.tally.attempts + 1
      ensures record == if outcome.Ok? then Stored(outcome.value) else Final(s, f).record
      ensures outcome.Ok? && purpose.Replace? && purpose.rejected in s.vendor.issued ==>
              outcome.value.token != purpose.rejected
    {
      var held;
      ghost var first;
      held, first, end := HoldLock(f, purpose, s, heard, m);
      own := [first];
      if !held {
        return Err(LockTimeout), own, end;
      }
      ghost var section, done;
      outcome, section, done := LockedSection(purpose, f, end);
      own, end := SectionEnds(config, pid, s, heard, first, end, section, done, outcome);
    }

    /** The state in which a caller of `get_or_issue` stands after its lock-free read. */
    ghost function AfterFastRead(s: State): State
      requires s.procs.Keys == config.stores.Keys && pid in s.procs && s.procs[pid].Idle?
    {
      Apply(config, Apply(config, s, Begin(pid)), ReadFast(pid))
    }

    lemma FastReadPerforms(s: State)
      requires s.procs.Keys == config.stores.Keys && pid in s.procs && s.procs[pid].Idle?
      ensures Performs(s, [Begin(pid)] + [ReadFast(pid)], AfterFastRead(s))
    {
      var begun := Apply(config, s, Begin(pid));
      ExecuteOne(config, s, Begin(pid));
      ExecuteOne(config, begun, ReadFast(pid));
      ExecuteTwo(config, s, [Begin(pid)], [ReadFast(pid)]);
    }

    /** `get_or_issue`: a usable record without the lock, or what the locked section gives. */
    method GetOrIssue(f: Fortune, ghost s: State, ghost heard: seq<Action>, ghost m: State)
      returns (outcome: Outcome, waited: bool, ghost own: seq<Action>, ghost end: State)
      requires s.procs.Keys == config.stores.Keys && pid in s.procs && s.procs[pid].Idle? && Shows(s, s.procs[pid])
      requires AfterFastRead(s).procs[pid].Waiting? ==> Waits(AfterFastRead(s), f, heard, m)
      modifies this
      ensures waited <==> AfterFastRead(s).procs[pid].Waiting?
      ensures waited <==>
              old(record.Missing? || (record.Stored? && !IsUsable(record.record, clock, config.stores[pid])))
      ensures Shows(end, Idle(Some(outcome))) && OfOne(own, pid)
      ensures !waited ==>
                && Performs(s, [Begin(pid)] + [ReadFast(pid)], end) && end.tally == s.tally && record == old(record)
                && outcome == if record.Stored? then Ok(record.record) else Err(ReadError)
      ensures waited ==>
                var w := AfterFastRead(s);
                && Performs(s, [Begin(pid)] + [ReadFast(pid)] + (heard + own), end)
                && end.tally.attempts <= m.tally.attempts + 1
                && (outcome == Err(LockTimeout) <==> !Final(w, f).free)
                && (outcome == Err(LockTimeout) ==> clock >= old(clock) + config.stores[pid].lockTimeout)
                && record == if outcome.Ok? then Stored(outcome.value) else Final(w, f).record
    {
      ghost var read := AfterFastRead(s);
      FastReadPerforms(s);
      match record {
        case Malformed => return Err(ReadError), false, [], read;
        case Missing =>
        case Stored(r) =>
          if IsUsable(r, clock, config.stores[pid]) {
            return Ok(r), false, [], read;
          }
      }
      outcome, own, end := UnderLock(Get, f, read, heard, m);
      ExecuteTwo(config, s, [Begin(pid)] + [ReadFast(pid)], heard + own);
      waited := true;
    }

    /** The state in which a caller that wants `rejected` replaced waits for the lock. */
    ghost function Asking(s: State, rejected: Token): State
      requires pid in s.procs
    {
      Move(s, pid, Waiting(Replace(rejected)))
    }

    /** `replace_rejected`: adopt a peer's token or issue one; never the rejected token, whoever rejected it. */
    method ReplaceRejected(rejected: Token, f: Fortune, ghost s: State, ghost heard: seq<Action>, ghost m: State)
      returns (outcome: Outcome, ghost own: seq<Action>, ghost end: State)
      requires s.procs.Keys == config.stores.Keys && pid in s.procs && s.procs[pid].Idle? && Shows(s, s.procs[pid])
      requires Waits(Asking(s, rejected), f, heard, m)
      modifies this
      ensures Shows(end, Idle(Some(outcome))) && OfOne(own, pid)
      ensures var w := Asking(s, rejected);
              && Performs(w, heard + own, end)
              && (rejected in s.vendor.dead ==>
                    Performs(s, [Reject(pid, rejected)] + (heard + own), end))
              && end.tally.attempts <= m.tally.attempts + 1
              && (outcome == Err(LockTimeout) <==> !Final(w, f).free)
              && record == if outcome.Ok? then Stored(outcome.value) else Final(w, f).record
      ensures outcome == Err(LockTimeout) ==> clock >= old(clock) + config.stores[pid].lockTimeout
      ensures outcome.Ok? && rejected in s.vendor.issued ==> outcome.value.token != rejected
    {
      ghost var w := Asking(s, rejected);
      outcome, own, end := UnderLock(Replace(rejected), f, w, heard, m);
      if rejected in s.vendor.dead {
        ExecuteOne(config, s, Reject(pid, rejected));
        ExecuteTwo(config, s, [Reject(pid, rejected)], heard + own);
      }
    }
  }

  /** One vendor client of the process, with the token it sends. */
  class TokenClient {
    const store: TokenStore
    var token: Option<Token>

    constructor (store: TokenStore)
      ensures this.store == store && token == None
    {
      this.store, token := store, None;
    }

    /** `ensure_token`: hold the token of the shared record, or fail for a reason and keep the old one. */
    method EnsureToken(f: Fortune, ghost s: State, ghost heard: seq<Action>, ghost m: State)
      returns (outcome: Outcome, waited: bool, ghost own: seq<Action>, ghost end: State)
      requires s.procs.Keys == store.config.stores.Keys && store.pid in s.procs && s.procs[store.pid].Idle?
      requires store.Shows(s, s.procs[store.pid])
      requires store.AfterFastRead(s).procs[store.pid].Waiting? ==> store.Waits(store.AfterFastRead(s), f, heard, m)
      modifies this, store
      ensures waited <==> store.AfterFastRead(s).procs[store.pid].Waiting?
      ensures store.Shows(end, Idle(Some(outcome))) && OfOne(own, store.pid)
      ensures !waited ==> store.Performs(s, [Begin(store.pid)] + [ReadFast(store.pid)], end) && end.tally == s.tally
      ensures waited ==>
                var w := store.AfterFastRead(s);
                && store.Performs(s, [Begin(store.pid)] + [ReadFast(store.pid)] + (heard + own), end)
                && (outcome == Err(LockTimeout) <==> !store.Final(w, f).free)
      ensures outcome.Ok? ==> token == Some(outcome.value.token) && store.record == Stored(outcome.value)
      ensures outcome.Err? ==> token == old(token)
    {
      outcome, waited, own, end := store.GetOrIssue(f, s, heard, m);
      if outcome.Ok? {
        token := Some(outcome.value.token);
      }
    }

    /** `_refresh_rejected_token`: afterwards the client holds the shared record's token, never the rejected one. */
    method RefreshRejectedToken(rejected: Token, f: Fortune, ghost s: State, ghost heard: seq<Action>, ghost m: State)
      returns (outcome: Outcome, ghost own: seq<Action>, ghost end: State)
      requires s.procs.Keys == store.config.stores.Keys && store.pid in s.procs && s.procs[store.pid].Idle?
      requires store.Shows(s, s.procs[store.pid]) && store.Waits(store.Asking(s, rejected), f, heard, m)
      modifies this, store
      ensures store.Shows(end, Idle(Some(outcome))) && OfOne(own, store.pid)
      ensures var w := store.Asking(s, rejected);
              && store.Performs(w, heard + own, end)
              && (outcome == Err(LockTimeout) <==> !store.Final(w, f).free)
      ensures outcome.Ok? ==> token == Some(outcome.value.token) && store.record == Stored(outcome.value)
      ensures outcome.Ok? && rejected in s.vendor.issued ==> outcome.value.token != rejected
      ensures outcome.Err? ==> token == old(token)
    {
      outcome, own, end := store.ReplaceRejected(rejected, f, s, heard, m);
      if outcome.Ok? {
        token := Some(outcome.value.token);
      }
    }
  }
}
