/**
 * Batched publication of per-symbol results into one partition (src/daily/archive_intraday.py). The buffer
 * decides when the partition is written, and nothing else: the outcome is a fold of the deliveries.
 */
module Publisher {
  import opened Common
  import opened BarRows
  import opened PartitionStore

  datatype Delivery = Delivery(symbol: Symbol, frame: seq<Row>, entry: Entry)

  datatype Admission = Take | Skip | Abort

  datatype PublishError = DuplicateSymbol | ContractViolation | Refused(error: WriteError)

  /** `_admit_for_write`: rows without certification mean the collector broke its contract. */
  function Admit(d: Delivery): Admission {
    if d.entry.status.Complete? || d.entry.status.NoTrades? then Take
    else if d.frame != [] then Abort
    else Skip
  }

  function Taken(ds: seq<Delivery>): seq<Delivery> {
    if ds == [] then []
    else TakenWith(Taken(ds[..|ds| - 1]), ds[|ds| - 1])
  }

  function TakenWith(taken: seq<Delivery>, d: Delivery): seq<Delivery> {
    taken + (if Admit(d).Take? then [d] else [])
  }

  predicate Distinct(ds: seq<Delivery>) {
    forall i, j | 0 <= i < j < |ds| :: ds[i].symbol != ds[j].symbol
  }

  /** The collector contract: a delivery carries rows of its own symbol only. */
  predicate OwnRows(ds: seq<Delivery>) {
    forall i | 0 <= i < |ds| :: Symbols(ds[i].frame) <= {ds[i].symbol}
  }

  function Combined(ds: seq<Delivery>): seq<Row> {
    if ds == [] then [] else Combined(ds[..|ds| - 1]) + ds[|ds| - 1].frame
  }

  function CoverageOf(ds: seq<Delivery>): Coverage {
    if ds == [] then map[] else CoverageOf(ds[..|ds| - 1])[ds[|ds| - 1].symbol := ds[|ds| - 1].entry]
  }

  function Flatten(frames: seq<seq<Row>>): seq<Row> {
    if frames == [] then [] else Flatten(frames[..|frames| - 1]) + frames[|frames| - 1]
  }

  /** A certified write of `frame` is accepted. */
  predicate Publishable(frame: seq<Row>, session: string, coverage: Coverage, bars: bool) {
    || frame == []
    || (FrameError(frame, session, Some(coverage), bars).None?
        && forall s | s in Symbols(frame) :: MayReplace(coverage[s], session))
  }

  /** A write of this delivery alone would be accepted. */
  predicate Writable(d: Delivery, session: string, bars: bool) {
    Publishable(d.frame, session, map[d.symbol := d.entry], bars)
  }

  predicate AllWritable(ds: seq<Delivery>, session: string, bars: bool) {
    forall i | 0 <= i < |ds| :: Writable(ds[i], session, bars)
  }

  predicate Deliverable(d: Delivery, session: string, bars: bool) {
    Admit(d).Skip? || (Admit(d).Take? && Writable(d, session, bars))
  }

  // ---- What a stream of deliveries means ---------------------------------------------------------------------

  /** One symbol's rows after it is offered a frame: the frame, unless that would lose rows. */
  function Offer(stored: seq<Row>, frame: seq<Row>, bars: bool): seq<Row> {
    if frame != [] && |Prepared(frame, bars)| >= |stored| then Prepared(frame, bars) else stored
  }

  function Delivered(stored: seq<Row>, ds: seq<Delivery>, s: Symbol, bars: bool): (rows: seq<Row>)
    ensures |rows| >= |stored|
  {
    if ds == [] then stored
    else
      var before := Delivered(stored, ds[..|ds| - 1], s, bars);
      if ds[|ds| - 1].symbol == s then Offer(before, ds[|ds| - 1].frame, bars) else before
  }

  /** Every symbol's rows are what the deliveries `ds` make of its rows `before`. */
  ghost predicate Holds(rows: seq<Row>, before: seq<Row>, ds: seq<Delivery>, bars: bool) {
    forall s :: RowsOf(rows, s) == Delivered(RowsOf(before, s), ds, s, bars)
  }

  lemma {:induction false} DeliveredInTwoParts(stored: seq<Row>, a: seq<Delivery>, b: seq<Delivery>, s: Symbol,
      bars: bool)
    ensures Delivered(stored, a + b, s, bars) == Delivered(Delivered(stored, a, s, bars), b, s, bars)
  {
    if b == [] {
      assert a + b == a;
    } else {
      assert (a + b)[..|a + b| - 1] == a + b[..|b| - 1];
      DeliveredInTwoParts(stored, a, b[..|b| - 1], s, bars);
    }
  }

  lemma {:induction false} DeliveredAbsent(stored: seq<Row>, ds: seq<Delivery>, s: Symbol, bars: bool)
    requires forall i | 0 <= i < |ds| :: ds[i].symbol != s
    ensures Delivered(stored, ds, s, bars) == stored && s !in CoverageOf(ds)
  {
    if ds != [] {
      DeliveredAbsent(stored, ds[..|ds| - 1], s, bars);
    }
  }

  lemma {:induction false} CombinedAbsent(ds: seq<Delivery>, s: Symbol)
    requires OwnRows(ds) && forall i | 0 <= i < |ds| :: ds[i].symbol != s
    ensures RowsOf(Combined(ds), s) == []
  {
    if ds != [] {
      var n := |ds| - 1;
      CombinedAbsent(ds[..n], s);
      RowsOfConcat(Combined(ds[..n]), ds[n].frame, s);
      RowsOfAbsent(ds[n].frame, s);
    }
  }

  /** In a buffer of distinct symbols each delivery is found intact: its entry, its rows, and its effect. */
  lemma {:induction false} DeliveredOnce(stored: seq<Row>, ds: seq<Delivery>, i: nat, bars: bool)
    requires Distinct(ds) && OwnRows(ds) && i < |ds|
    ensures Delivered(stored, ds, ds[i].symbol, bars) == Offer(stored, ds[i].frame, bars)
    ensures ds[i].symbol in CoverageOf(ds) && CoverageOf(ds)[ds[i].symbol] == ds[i].entry
    ensures RowsOf(Combined(ds), ds[i].symbol) == ds[i].frame
  {
    var n := |ds| - 1;
    var s := ds[i].symbol;
    RowsOfConcat(Combined(ds[..n]), ds[n].frame, s);
    if i == n {
      DeliveredAbsent(stored, ds[..n], s, bars);
      CombinedAbsent(ds[..n], s);
      RowsOfOnly(ds[n].frame, s);
    } else {
      DeliveredOnce(stored, ds[..n], i, bars);
      RowsOfAbsent(ds[n].frame, s);
    }
  }

  lemma {:induction false} CombinedMembers(ds: seq<Delivery>)
    ensures forall r :: r in Combined(ds) <==> exists i | 0 <= i < |ds| :: r in ds[i].frame
    ensures forall s :: s in CoverageOf(ds) <==> exists i | 0 <= i < |ds| :: ds[i].symbol == s
  {
    if ds != [] {
      var n := |ds| - 1;
      CombinedMembers(ds[..n]);
      assert forall i | 0 <= i < n :: ds[..n][i] == ds[i];
    }
  }

  /** The delivery that both rows of a contradiction come from. */
  lemma ContradictingDelivery(ds: seq<Delivery>, a: Row, b: Row) returns (i: nat)
    requires Distinct(ds) && OwnRows(ds) && a in Combined(ds) && b in Combined(ds) && a.symbol == b.symbol
    ensures i < |ds| && a in ds[i].frame && b in ds[i].frame
  {
    CombinedMembers(ds);
    i :| 0 <= i < |ds| && a in ds[i].frame;
    assert a.symbol in Symbols(ds[i].frame);
    DeliveredOnce([], ds, i, true);
    RowsOfMembers(Combined(ds), a.symbol);
  }

  /** Frames of different symbols cannot contradict each other. */
  lemma CombinedContradiction(ds: seq<Delivery>)
    requires Distinct(ds) && OwnRows(ds)
    ensures Contradictory(Combined(ds)) <==> exists i | 0 <= i < |ds| :: Contradictory(ds[i].frame)
  {
    CombinedMembers(ds);
    if a, b :| a in Combined(ds) && b in Combined(ds) && SameSlot(a, b) && a != b {
      var i := ContradictingDelivery(ds, a, b);
      assert Contradictory(ds[i].frame);
    }
  }

  predicate CertifiedRow(r: Row, session: string, coverage: Coverage) {
    && IsValidRow(r)
    && r.symbol in coverage && coverage[r.symbol].session == session && MayReplace(coverage[r.symbol], session)
  }

  /** Whether a certified write is accepted is decided row by row, apart from contradictory slots. */
  lemma PublishableByRow(frame: seq<Row>, session: string, coverage: Coverage, bars: bool)
    ensures Publishable(frame, session, coverage, bars)
            <==> (bars ==> !Contradictory(frame)) && forall r | r in frame :: CertifiedRow(r, session, coverage)
  {
    forall r | r in frame
      ensures r.symbol in Symbols(frame)
    {
    }
  }

  /** A combined write is accepted exactly when every delivery in it would be accepted alone. */
  lemma CombinedWritable(ds: seq<Delivery>, session: string, bars: bool)
    requires Distinct(ds) && OwnRows(ds)
    ensures Publishable(Combined(ds), session, CoverageOf(ds), bars) <==> AllWritable(ds, session, bars)
  {
    PublishableByRow(Combined(ds), session, CoverageOf(ds), bars);
    CombinedContradiction(ds);
    CombinedMembers(ds);
    forall i | 0 <= i < |ds|
      ensures Writable(ds[i], session, bars)
              <==> (bars ==> !Contradictory(ds[i].frame))
                   && forall r | r in ds[i].frame :: CertifiedRow(r, session, CoverageOf(ds))
    {
      DeliveredOnce([], ds, i, bars);
      PublishableByRow(ds[i].frame, session, map[ds[i].symbol := ds[i].entry], bars);
      assert forall r | r in ds[i].frame :: r.symbol in Symbols(ds[i].frame);
    }
  }

  /** Writing a buffer of distinct symbols at once is delivering its frames one after the other. */
  lemma OneWriteIsAllDeliveries(before: seq<Row>, ds: seq<Delivery>, session: string, bars: bool, now: seq<Row>,
      s: Symbol)
    requires Distinct(ds) && OwnRows(ds) && (bars ==> !Contradictory(Combined(ds)))
    requires IsUpdate(before, Prepared(Combined(ds), bars),
                      Accepted(before, Prepared(Combined(ds), bars),
                          Replaceable(Combined(ds), session, Some(CoverageOf(ds))), {}), now)
    ensures RowsOf(now, s) == Delivered(RowsOf(before, s), ds, s, bars)
  {
    var all := Combined(ds);
    var accepted := Accepted(before, Prepared(all, bars), Replaceable(all, session, Some(CoverageOf(ds))), {});
    assert RowsOf(now, s) == UpdatedRows(before, Prepared(all, bars), accepted, s);
    RowsOfAbsent(all, s);
    if bars {
      ReconcileBySymbol(all, s);
    }
    assert RowsOf(Prepared(all, bars), s) == Prepared(RowsOf(all, s), bars);
    if i: nat :| i < |ds| && ds[i].symbol == s {
      DeliveredOnce(RowsOf(before, s), ds, i, bars);
    } else {
      DeliveredAbsent(RowsOf(before, s), ds, s, bars);
      CombinedAbsent(ds, s);
    }
  }

  /** However a stream was buffered, each symbol ends with the rows a single write of everything would leave. */
  lemma BufferingIsInvisible(before: seq<Row>, ds: seq<Delivery>, session: string, bars: bool, streamed: seq<Row>,
      once: seq<Row>)
    requires Distinct(ds) && OwnRows(ds) && (bars ==> !Contradictory(Combined(ds))) && Holds(streamed, before, ds, bars)
    requires IsUpdate(before, Prepared(Combined(ds), bars),
                      Accepted(before, Prepared(Combined(ds), bars),
                          Replaceable(Combined(ds), session, Some(CoverageOf(ds))), {}), once)
    ensures forall s :: RowsOf(streamed, s) == RowsOf(once, s)
  {
    forall s
      ensures RowsOf(streamed, s) == RowsOf(once, s)
    {
      OneWriteIsAllDeliveries(before, ds, session, bars, once, s);
    }
  }

  // ---- The publisher -------------------------------------------------------------------------------------------

  class BatchedPublisher {
    const target: Partition
    const session: string
    const bars: bool
    const batchRows: nat
    const maxRows: nat
    var frames: seq<seq<Row>>
    var coverage: Coverage
    var bufferedRows: nat
    /** The deliveries whose rows and entries the three fields above hold. */
    ghost var pending: seq<Delivery>

    ghost predicate Valid()
      reads this
    {
      && batchRows > 0 && maxRows > 0
      && Distinct(pending) && OwnRows(pending)
      && coverage == CoverageOf(pending)
      && Flatten(frames) == Combined(pending)
      && bufferedRows == |Combined(pending)|
    }

    constructor (target: Partition, session: string, bars: bool, batchRows: nat, maxRows: nat)
      requires batchRows > 0 && maxRows > 0
      ensures Valid() && pending == []
      ensures this.target == target && this.session == session && this.bars == bars
      ensures this.batchRows == batchRows && this.maxRows == maxRows
    {
      this.target, this.session, this.bars, this.batchRows, this.maxRows := target, session, bars, batchRows, maxRows;
      frames, coverage, bufferedRows, pending := [], map[], 0, [];
    }

    /** Write every buffered symbol in one call. */
    method Flush() returns (r: Result<nat, PublishError>)
      requires Valid()
      modifies this, target
      ensures Valid()
      ensures r.Ok? <==> AllWritable(old(pending), session, bars)
      ensures r.Ok? ==> r.value == if old(pending) == [] then 0 else |target.Stored()|
      ensures r.Ok? ==> pending == [] && Holds(target.Stored(), old(target.Stored()), old(pending), bars)
      ensures r.Err? ==> pending == old(pending) && target.file == old(target.file) && r.error.Refused?
    {
      NoCoverageNoDelivery(pending);
      if coverage == map[] {
        return Ok(0);
      }
      ghost var before := target.Stored();
      var combined := Flatten(frames);
      var written := target.Write(combined, session, Some(coverage), bars, batchRows, {});
      CombinedWritable(pending, session, bars);
      if written.Err? {
        return Err(Refused(written.error));
      }
      forall s
        ensures RowsOf(target.Stored(), s) == Delivered(RowsOf(before, s), pending, s, bars)
      {
        NoContradiction(pending, session, bars);
        OneWriteIsAllDeliveries(before, pending, session, bars, target.Stored(), s);
      }
      frames, coverage, bufferedRows, pending := [], map[], 0, [];
      return Ok(written.value);
    }

    /** Buffer one write-eligible symbol, and write once enough rows are buffered. */
    method Add(d: Delivery) returns (r: Result<nat, PublishError>, ghost buffered: seq<Delivery>)
      requires Valid() && Symbols(d.frame) <= {d.symbol}
      modifies this, target
      ensures Valid()
      ensures buffered == old(pending) + [d]
      ensures !Distinct(buffered) ==>
              r == Err(DuplicateSymbol) && pending == old(pending) && target.file == old(target.file)
      ensures r.Ok? ==> bufferedRows < maxRows && (pending == [] <==> |Combined(buffered)| >= maxRows)
      ensures Distinct(buffered) && r.Err? ==>
                target.file == old(target.file) && !AllWritable(buffered, session, bars)
      ensures r.Ok? && pending != [] ==> pending == buffered && target.file == old(target.file)
      ensures r.Ok? && pending == [] ==>
                AllWritable(buffered, session, bars) && Holds(target.Stored(), old(target.Stored()), buffered, bars)
    {
      buffered := pending + [d];
      CombinedMembers(pending);
      if d.symbol in coverage {
        ghost var i :| 0 <= i < |pending| && pending[i].symbol == d.symbol;
        assert buffered[i].symbol == buffered[|pending|].symbol;
        return Err(DuplicateSymbol), buffered;
      }
      assert Distinct(buffered);
      assert buffered[..|buffered| - 1] == pending;
      coverage := coverage[d.symbol := d.entry];
      if d.frame != [] {
        assert (frames + [d.frame])[..|frames|] == frames;
        frames := frames + [d.frame];
        bufferedRows := bufferedRows + |d.frame|;
      }
      pending := buffered;
      if bufferedRows >= maxRows {
        r := Flush();
      } else {
        r := Ok(0);
      }
    }
  }

  lemma NoCoverageNoDelivery(ds: seq<Delivery>)
    ensures CoverageOf(ds) == map[] <==> ds == []
  {
    if ds != [] {
      assert ds[|ds| - 1].symbol in CoverageOf(ds);
    }
  }

  lemma NoContradiction(ds: seq<Delivery>, session: string, bars: bool)
    requires Publishable(Combined(ds), session, CoverageOf(ds), bars)
    ensures bars ==> !Contradictory(Combined(ds))
  {
  }

  // ---- One stream of the archive run ---------------------------------------------------------------------------

  lemma {:induction false} TakenMembers(ds: seq<Delivery>)
    requires Distinct(ds) && OwnRows(ds)
    ensures Distinct(Taken(ds)) && OwnRows(Taken(ds))
    ensures forall d :: d in Taken(ds) <==> d in ds && Admit(d).Take?
  {
    if ds != [] {
      var n := |ds| - 1;
      TakenMembers(ds[..n]);
      assert ds == ds[..n] + [ds[n]];
      forall d | d in Taken(ds[..n])
        ensures d.symbol != ds[n].symbol
      {
        assert d in ds[..n];
      }
      assert forall i | 0 <= i < |Taken(ds[..n])| :: Taken(ds[..n])[i] in Taken(ds[..n]);
    }
  }

  /** Of the deliveries `done` the partition holds `published` and the others wait in the buffer. */
  ghost predicate Progress(p: BatchedPublisher, before: seq<Row>, done: seq<Delivery>, published: seq<Delivery>)
    reads p, p.target
  {
    && p.Valid() && done == published + p.pending
    && AllWritable(published, p.session, p.bars)
    && Holds(p.target.Stored(), before, published, p.bars)
  }

  lemma HoldsThen(before: seq<Row>, a: seq<Delivery>, middle: seq<Row>, b: seq<Delivery>, now: seq<Row>, bars: bool)
    requires Holds(middle, before, a, bars) && Holds(now, middle, b, bars)
    ensures Holds(now, before, a + b, bars)
  {
    forall s
      ensures RowsOf(now, s) == Delivered(RowsOf(before, s), a + b, s, bars)
    {
      assert RowsOf(middle, s) == Delivered(RowsOf(before, s), a, s, bars);
      assert RowsOf(now, s) == Delivered(RowsOf(middle, s), b, s, bars);
      DeliveredInTwoParts(RowsOf(before, s), a, b, s, bars);
    }
  }

  lemma WritableInTwoParts(a: seq<Delivery>, b: seq<Delivery>, session: string, bars: bool)
    ensures AllWritable(a + b, session, bars) <==> AllWritable(a, session, bars) && AllWritable(b, session, bars)
  {
    assert forall i | 0 <= i < |a| :: (a + b)[i] == a[i];
    assert forall i | 0 <= i < |b| :: (a + b)[|a| + i] == b[i];
  }

  lemma DistinctSuffix(a: seq<Delivery>, b: seq<Delivery>)
    requires Distinct(a + b)
    ensures Distinct(b)
  {
    forall i, j | 0 <= i < j < |b|
      ensures b[i].symbol != b[j].symbol
    {
      assert (a + b)[|a| + i] == b[i] && (a + b)[|a| + j] == b[j];
    }
  }

  /** A collector result is skipped, buffered or published, unless it breaks the contract or its write is refused. */
  method Observe(p: BatchedPublisher, d: Delivery, ghost before: seq<Row>, ghost done: seq<Delivery>,
      ghost published: seq<Delivery>)
    returns (r: Result<nat, PublishError>, ghost nowPublished: seq<Delivery>)
    requires Progress(p, before, done, published) && Distinct(TakenWith(done, d)) && Symbols(d.frame) <= {d.symbol}
    modifies p, p.target
    ensures r.Ok? ==> !Admit(d).Abort? && Progress(p, before, TakenWith(done, d), nowPublished)
    ensures r.Ok? ==> |Combined(TakenWith(done, d))| == |Combined(done)| + r.value
    ensures r.Err? ==> nowPublished == published && Holds(p.target.Stored(), before, published, p.bars)
    ensures r.Err? ==> Admit(d).Abort? || !AllWritable(TakenWith(done, d), p.session, p.bars)
  {
    nowPublished := published;
    match Admit(d)
    case Abort =>
      return Err(ContractViolation), published;
    case Skip =>
      return Ok(0), published;
    case Take =>
      ghost var middle, buffered := p.target.Stored(), p.pending + [d];
      assert done + [d] == published + buffered && (done + [d])[..|done|] == done;
      DistinctSuffix(published, buffered);
      WritableInTwoParts(published, buffered, p.session, p.bars);
      r, buffered := p.Add(d);
      if r.Err? {
        return;
      }
      if p.pending == [] {
        nowPublished := done + [d];
        HoldsThen(before, published, middle, buffered, p.target.Stored(), p.bars);
      }
      r := Ok(|d.frame|);
  }

  lemma {:induction false} TakenPrefix(ds: seq<Delivery>, i: nat)
    requires i <= |ds|
    ensures Taken(ds[..i]) <= Taken(ds)
  {
    if i < |ds| {
      assert ds[..|ds| - 1][..i] == ds[..i];
      TakenPrefix(ds[..|ds| - 1], i);
    } else {
      assert ds[..i] == ds;
    }
  }

  predicate AllDeliverable(ds: seq<Delivery>, session: string, bars: bool) {
    forall i | 0 <= i < |ds| :: Deliverable(ds[i], session, bars)
  }

  predicate NoneAborts(ds: seq<Delivery>) {
    forall i | 0 <= i < |ds| :: !Admit(ds[i]).Abort?
  }

  lemma {:induction false} DeliverableByTaken(ds: seq<Delivery>, session: string, bars: bool)
    ensures AllDeliverable(ds, session, bars) <==> NoneAborts(ds) && AllWritable(Taken(ds), session, bars)
  {
    if ds != [] {
      var n := |ds| - 1;
      DeliverableByTaken(ds[..n], session, bars);
      assert forall i | 0 <= i < n :: ds[..n][i] == ds[i];
      assert NoneAborts(ds) <==> NoneAborts(ds[..n]) && !Admit(ds[n]).Abort?;
      assert AllDeliverable(ds, session, bars) <==>
          AllDeliverable(ds[..n], session, bars) && Deliverable(ds[n], session, bars);
      assert Taken(ds[..n]) + [] == Taken(ds[..n]);
      WritableInTwoParts(Taken(ds[..n]), [ds[n]], session, bars);
      assert AllWritable([ds[n]], session, bars) <==> Writable([ds[n]][0], session, bars);
    }
  }

  lemma PrefixWritable(a: seq<Delivery>, b: seq<Delivery>, session: string, bars: bool)
    requires a <= b && AllWritable(b, session, bars)
    ensures AllWritable(a, session, bars)
  {
    assert forall i | 0 <= i < |a| :: a[i] == b[i];
  }

  /** What the loop below needs to know about its next delivery. */
  lemma NextDelivery(ds: seq<Delivery>, i: nat, session: string, bars: bool)
    requires Distinct(ds) && OwnRows(ds) && i < |ds|
    ensures Taken(ds[..i + 1]) == TakenWith(Taken(ds[..i]), ds[i])
    ensures Distinct(Taken(ds[..i + 1])) && Taken(ds[..i]) <= Taken(ds[..i + 1]) <= Taken(ds)
    ensures NoneAborts(ds[..i + 1]) <==> NoneAborts(ds[..i]) && !Admit(ds[i]).Abort?
    ensures Admit(ds[i]).Abort? || !AllWritable(Taken(ds[..i + 1]), session, bars) ==>
            !AllDeliverable(ds, session, bars)
  {
    assert ds[..i + 1][..i] == ds[..i] && ds[..i + 1] == ds[..i] + [ds[i]];
    TakenPrefix(ds, i + 1);
    TakenMembers(ds[..i + 1]);
    DeliverableByTaken(ds, session, bars);
    if AllWritable(Taken(ds), session, bars) {
      PrefixWritable(Taken(ds[..i + 1]), Taken(ds), session, bars);
    }
  }

  /**
   * The observer loop of one stream and its final flush. The partition holds the fold of an initial part of the
   * admitted deliveries, all of them exactly when each delivery is deliverable on its own. `maxRows` has no part
   * in it.
   */
  method ArchiveStream(p: BatchedPublisher, ds: seq<Delivery>) returns (r: Result<nat, PublishError>,
      ghost published: seq<Delivery>)
    requires p.Valid() && p.pending == [] && Distinct(ds) && OwnRows(ds)
    modifies p, p.target
    ensures r.Ok? <==> AllDeliverable(ds, p.session, p.bars)
    ensures published <= Taken(ds) && (r.Ok? ==> published == Taken(ds) && r.value == |Combined(Taken(ds))|)
    ensures Holds(p.target.Stored(), old(p.target.Stored()), published, p.bars)
  {
    ghost var before, done := p.target.Stored(), [];
    var count := 0;
    published := [];
    for i := 0 to |ds|
      invariant Progress(p, before, done, published)
      invariant done == Taken(ds[..i]) && done <= Taken(ds) && NoneAborts(ds[..i])
      invariant count == |Combined(done)|
    {
      NextDelivery(ds, i, p.session, p.bars);
      var observed;
      observed, published := Observe(p, ds[i], before, done, published);
      if observed.Err? {
        return observed, published;
      }
      done := TakenWith(done, ds[i]);
      count := count + observed.value;
    }
    assert ds[..|ds|] == ds;
    DeliverableByTaken(ds, p.session, p.bars);
    r, published := Finish(p, before, done, published, count);
  }

  /** The flush that ends a stream. */
  method Finish(p: BatchedPublisher, ghost before: seq<Row>, ghost done: seq<Delivery>,
      ghost published: seq<Delivery>, count: nat)
    returns (r: Result<nat, PublishError>, ghost nowPublished: seq<Delivery>)
    requires Progress(p, before, done, published)
    modifies p, p.target
    ensures r.Ok? <==> AllWritable(done, p.session, p.bars)
    ensures nowPublished == (if r.Ok? then done else published) && (r.Ok? ==> r.value == count)
    ensures Holds(p.target.Stored(), before, nowPublished, p.bars)
  {
    ghost var middle, rest := p.target.Stored(), p.pending;
    WritableInTwoParts(published, rest, p.session, p.bars);
    r := p.Flush();
    nowPublished := published;
    if r.Ok? {
      HoldsThen(before, published, middle, rest, p.target.Stored(), p.bars);
      nowPublished := done;
      r := Ok(count);
    }
  }
}
