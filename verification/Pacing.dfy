/**
 * Host-wide pacing through one admission file (`_book_slot`, `HostPacer.acquire`). The file holds the next
 * free instant; a booking happens under an exclusive file lock, so an interleaving of processes is a sequence
 * of attempts, each with the clock its process read and its own lead limit.
 */
module Pacing {
  import opened Common

  datatype Attempt = Attempt(now: real, lead: Option<real>)

  /** The admission file, with every slot handed out so far. */
  datatype Ledger = Ledger(nextFree: real, slots: seq<real>)

  predicate Refused(nextFree: real, a: Attempt) {
    a.lead.Some? && Max(a.now, nextFree) - a.now > a.lead.value
  }

  function Book(l: Ledger, interval: real, a: Attempt): Ledger {
    var slot := Max(a.now, l.nextFree);
    if Refused(l.nextFree, a) then l else Ledger(slot + interval, l.slots + [slot])
  }

  function BookAll(l: Ledger, interval: real, attempts: seq<Attempt>): Ledger {
    if attempts == [] then l
    else Book(BookAll(l, interval, attempts[..|attempts| - 1]), interval, attempts[|attempts| - 1])
  }

  lemma BookOneMore(l: Ledger, interval: real, attempts: seq<Attempt>, a: Attempt)
    ensures BookAll(l, interval, attempts + [a]) == Book(BookAll(l, interval, attempts), interval, a)
  {
    assert (attempts + [a])[..|attempts|] == attempts;
  }

  // ---- The rate is never exceeded ---------------------------------------------------------------

  predicate LedgerInv(l: Ledger, interval: real) {
    && Spaced(l.slots, interval)
    && (|l.slots| > 0 ==> l.nextFree == l.slots[|l.slots| - 1] + interval)
  }

  lemma {:induction false} SlotsStaySpaced(nextFree: real, interval: real, attempts: seq<Attempt>)
    ensures LedgerInv(BookAll(Ledger(nextFree, []), interval, attempts), interval)
  {
    if attempts != [] {
      SlotsStaySpaced(nextFree, interval, attempts[..|attempts| - 1]);
    }
  }

  lemma {:induction false} SpacedApart(slots: seq<real>, interval: real, i: nat, k: nat, j: nat)
    requires interval > 0.0 && Spaced(slots, interval) && i + k <= j < |slots|
    ensures slots[j] >= slots[i] + k as real * interval
    decreases j
  {
    if i < j {
      assert slots[j] >= slots[j - 1] + interval;
      if k == 0 {
        SpacedApart(slots, interval, i, 0, j - 1);
      } else {
        SpacedApart(slots, interval, i, k - 1, j - 1);
        assert k as real * interval == (k - 1) as real * interval + interval;
      }
    }
  }

  function InWindow(slots: seq<real>, from: real, until: real): set<nat> {
    set i: nat | i < |slots| && from <= slots[i] < until
  }

  lemma CountBetween(s: set<nat>, lo: nat, hi: nat)
    requires forall i | i in s :: lo <= i < hi
    ensures |s| <= if lo <= hi then hi - lo else 0
    decreases hi - lo
  {
    if lo < hi {
      CountBetween(s - {lo}, lo + 1, hi);
    } else {
      assert s == {};
    }
  }

  lemma WindowOfSpacedSlots(slots: seq<real>, interval: real, from: real, k: nat)
    requires interval > 0.0 && Spaced(slots, interval)
    ensures |InWindow(slots, from, from + k as real * interval)| <= k
  {
    var s := InWindow(slots, from, from + k as real * interval);
    if s != {} {
      var first := Least(s);
      forall i | i in s
        ensures first <= i < first + k
      {
        if i >= first + k { SpacedApart(slots, interval, first, k, i); }
      }
      CountBetween(s, first, first + k);
    }
  }

  lemma Least(s: set<nat>) returns (m: nat)
    requires s != {}
    ensures m in s && forall i | i in s :: m <= i
    decreases s
  {
    var candidate :| candidate in s;
    var below := set i | i in s && i < candidate;
    if below == {} {
      m := candidate;
      assert forall i | i in s :: i !in below;
    } else {
      assert candidate !in below;
      m := Least(below);
      forall i | i in s
        ensures m <= i
      {
        if i < candidate { assert i in below; }
      }
    }
  }

  /** Whatever the interleaving and however the clocks jump, no window of k intervals holds more than k slots. */
  lemma RateIsNeverExceeded(nextFree: real, interval: real, attempts: seq<Attempt>, from: real, k: nat)
    requires interval > 0.0
    ensures var slots := BookAll(Ledger(nextFree, []), interval, attempts).slots;
            |InWindow(slots, from, from + k as real * interval)| <= k
  {
    SlotsStaySpaced(nextFree, interval, attempts);
    WindowOfSpacedSlots(BookAll(Ledger(nextFree, []), interval, attempts).slots, interval, from, k);
  }

  // ---- Nobody books far ahead of a bounded class ---------------------------------------------------

  predicate ClockNeverGoesBack(attempts: seq<Attempt>) {
    forall i, j | 0 <= i < j < |attempts| :: attempts[i].now <= attempts[j].now
  }

  predicate AllBounded(attempts: seq<Attempt>, lead: real) {
    forall i | 0 <= i < |attempts| :: attempts[i].lead.Some? && attempts[i].lead.value <= lead
  }

  /** With every earlier lead at most `lead`, an arriving caller of any class waits at most lead + interval. */
  lemma {:induction false} ArrivalWaitsAtMost(l: Ledger, interval: real, lead: real, start: real,
      attempts: seq<Attempt>, now: real)
    requires interval > 0.0 && lead >= 0.0
    requires l.nextFree <= start + lead + interval
    requires ClockNeverGoesBack(attempts) && AllBounded(attempts, lead)
    requires forall i | 0 <= i < |attempts| :: start <= attempts[i].now <= now
    requires start <= now
    ensures BookAll(l, interval, attempts).nextFree <= now + lead + interval
    ensures Max(now, BookAll(l, interval, attempts).nextFree) - now <= lead + interval
  {
    if attempts != [] {
      var n := |attempts| - 1;
      ArrivalWaitsAtMost(l, interval, lead, start, attempts[..n], attempts[n].now);
    }
  }

  /** The wait returned with a refusal. */
  function RefusalWait(nextFree: real, interval: real, a: Attempt): real
    requires Refused(nextFree, a)
  {
    Max(Max(a.now, nextFree) - a.now - a.lead.value, interval)
  }

  /** A refused caller leaves no trace and succeeds after its wait unless somebody else booked meanwhile. */
  lemma RefusalIsHarmless(l: Ledger, interval: real, a: Attempt, retry: real)
    requires interval > 0.0 && a.lead.Some? && a.lead.value > 0.0 && Refused(l.nextFree, a)
    requires retry >= a.now + RefusalWait(l.nextFree, interval, a)
    ensures Book(l, interval, a) == l
    ensures !Refused(l.nextFree, a.(now := retry))
    ensures |Book(l, interval, a.(now := retry)).slots| == |l.slots| + 1
  {
  }

  /** The caller's refused attempts, each followed by what its peers attempt during the sleep it costs. */
  function Turns(refused: seq<Attempt>, peers: seq<seq<Attempt>>): seq<Attempt> {
    if refused == [] then []
    else
      var n := |refused| - 1;
      Turns(refused[..n], peers) + [refused[n]] + if n < |peers| then peers[n] else []
  }

  /** From `start` on the caller asked with its lead, was refused each time, and slept as told until `now`. */
  predicate Polls(l: Ledger, interval: real, lead: Option<real>, peers: seq<seq<Attempt>>, refused: seq<Attempt>,
      start: real, now: real)
  {
    if refused == [] then now == start
    else
      var n := |refused| - 1;
      var found := BookAll(l, interval, Turns(refused[..n], peers));
      && refused[n].lead == lead && Refused(found.nextFree, refused[n])
      && now == refused[n].now + RefusalWait(found.nextFree, interval, refused[n])
      && Polls(l, interval, lead, peers, refused[..n], start, refused[n].now)
  }

  lemma TurnsNext(l: Ledger, interval: real, lead: Option<real>, peers: seq<seq<Attempt>>, refused: seq<Attempt>,
      start: real, a: Attempt)
    requires Polls(l, interval, lead, peers, refused, start, a.now)
    ensures var n := |refused|;
            var found := BookAll(l, interval, Turns(refused, peers));
            var sleeping := if n < |peers| then peers[n] else [];
            && BookAll(l, interval, Turns(refused + [a], peers))
               == BookAll(Book(found, interval, a), interval, sleeping)
            && (a.lead == lead && Refused(found.nextFree, a) ==>
                  Polls(l, interval, lead, peers, refused + [a], start,
                    a.now + RefusalWait(found.nextFree, interval, a)))
  {
    var n := |refused|;
    var sleeping := if n < |peers| then peers[n] else [];
    assert (refused + [a])[..n] == refused;
    assert Turns(refused + [a], peers) == Turns(refused, peers) + [a] + sleeping;
    BookAllTwo(l, interval, Turns(refused, peers) + [a], sleeping);
    BookOneMore(l, interval, Turns(refused, peers), a);
  }

  /** A booked slot is never moved or taken back. */
  lemma {:induction false} SlotsStay(l: Ledger, interval: real, attempts: seq<Attempt>)
    ensures l.slots <= BookAll(l, interval, attempts).slots
  {
    if attempts != [] {
      SlotsStay(l, interval, attempts[..|attempts| - 1]);
    }
  }

  lemma {:induction false} BookAllTwo(l: Ledger, interval: real, first: seq<Attempt>, second: seq<Attempt>)
    ensures BookAll(l, interval, first + second) == BookAll(BookAll(l, interval, first), interval, second)
  {
    if second == [] {
      assert first + second == first;
    } else {
      var n := |second| - 1;
      BookAllTwo(l, interval, first, second[..n]);
      assert (first + second)[..|first + second| - 1] == first + second[..n];
    }
  }

  // ---- The file and the pacer as the source writes them ---------------------------------------------

  class AdmissionFile {
    var nextFree: real
    ghost var slots: seq<real>

    constructor (nextFree: real)
      ensures View() == Ledger(nextFree, [])
    {
      this.nextFree, slots := nextFree, [];
    }

    ghost function View(): Ledger
      reads this
    {
      Ledger(nextFree, slots)
    }

    method BookSlot(interval: real, now: real, maxLead: Option<real>) returns (booked: bool, wait: real)
      modifies this
      ensures View() == Book(old(View()), interval, Attempt(now, maxLead))
      ensures booked <==> !Refused(old(nextFree), Attempt(now, maxLead))
      ensures booked ==> |slots| > 0 && slots[|slots| - 1] == now + wait && wait >= 0.0
      ensures !booked ==> wait == RefusalWait(old(nextFree), interval, Attempt(now, maxLead))
    {
      var slot := Max(now, nextFree);
      if maxLead.Some? && slot - now > maxLead.value {
        return false, Max(slot - now - maxLead.value, interval);
      }
      nextFree := slot + interval;
      slots := slots + [slot];
      return true, slot - now;
    }
  }

  /** One process's pacer. `peers[k]` are the attempts other processes make during its k-th sleep. */
  class HostPacer {
    const interval: real
    const maxLead: Option<real>
    var clock: real

    constructor (interval: real, maxLead: Option<real>, clock: real)
      requires interval > 0.0 && (maxLead.Some? ==> maxLead.value > 0.0)
      ensures this.interval == interval && this.maxLead == maxLead && this.clock == clock
    {
      this.interval, this.maxLead, this.clock := interval, maxLead, clock;
    }

    method PeersBook(file: AdmissionFile, attempts: seq<Attempt>)
      modifies file
      ensures file.View() == BookAll(old(file.View()), interval, attempts)
    {
      for i := 0 to |attempts|
        invariant file.View() == BookAll(old(file.View()), interval, attempts[..i])
      {
        var _, _ := file.BookSlot(interval, attempts[i].now, attempts[i].lead);
        BookOneMore(old(file.View()), interval, attempts[..i], attempts[i]);
        assert attempts[..i + 1] == attempts[..i] + [attempts[i]];
      }
      assert attempts[..|attempts|] == attempts;
    }

    method Sleep(file: AdmissionFile, seconds: real, attempts: seq<Attempt>)
      modifies this, file
      ensures clock == old(clock) + seconds && file.View() == BookAll(old(file.View()), interval, attempts)
      ensures old(file.slots) <= file.slots
    {
      SlotsStay(file.View(), interval, attempts);
      PeersBook(file, attempts);
      clock := clock + seconds;
    }

    /**
     * Poll until a slot is booked, then sleep up to it. Peers may book during every sleep, the last one
     * included: `during` are their attempts while this caller sleeps up to its slot. After its own `refused`
     * attempts and the bookings between them, the attempt `asked` books; the slot keeps its place whatever the
     * peers then book.
     */
    method Acquire(file: AdmissionFile, peers: seq<seq<Attempt>>, during: seq<Attempt>)
      returns (slot: real, ghost refused: seq<Attempt>, ghost asked: Attempt)
      requires interval > 0.0 && (maxLead.Some? ==> maxLead.value > 0.0)
      modifies this, file
      ensures Polls(old(file.View()), interval, maxLead, peers, refused, old(clock), asked.now)
      ensures var found := BookAll(old(file.View()), interval, Turns(refused, peers));
              && !Refused(found.nextFree, asked) && slot == Max(asked.now, found.nextFree)
              && file.View() == BookAll(Book(found, interval, asked), interval, if slot > asked.now then during else [])
              && |found.slots| < |file.slots| && file.slots[|found.slots|] == slot
      ensures asked.lead == maxLead && (maxLead.Some? ==> slot <= asked.now + maxLead.value)
      ensures clock == slot && clock >= asked.now >= old(clock)
    {
      refused := [];
      var k := 0;
      ghost var calm := false;
      while true
        invariant k == |refused|
        invariant file.View() == BookAll(old(file.View()), interval, Turns(refused, peers))
        invariant Polls(old(file.View()), interval, maxLead, peers, refused, old(clock), clock)
        invariant clock >= old(clock)
        invariant calm ==> !Refused(file.nextFree, Attempt(clock, maxLead))
        decreases if k < |peers| then |peers| - k else 0, !calm
      {
        asked := Attempt(clock, maxLead);
        var booked, wait := file.BookSlot(interval, clock, maxLead);
        if booked {
          slot := clock + wait;
          if wait > 0.0 {
            Sleep(file, wait, during);
          }
          return;
        }
        RefusalIsHarmless(file.View(), interval, asked, clock + wait);
        var sleeping := if k < |peers| then peers[k] else [];
        TurnsNext(old(file.View()), interval, maxLead, peers, refused, old(clock), asked);
        Sleep(file, wait, sleeping);
        refused, calm := refused + [asked], k >= |peers|;
        k := k + 1;
      }
    }
  }
}
