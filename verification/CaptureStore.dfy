/**
 * The append-only evidence store (src/data/capture_store.py): immutable artifacts, manifests that certify them, and
 * reads as of a cutoff. A digest is the content it identifies; run identities, symbols and clocks are integers.
 */
module CaptureStore {
  import opened Common

  type Time = int
  type Run = int
  type Symbol = int

  const MAX_ARTIFACT_BYTES: nat := 64 * 1024 * 1024

  datatype Context = Context(day: int, vendor: string, dataset: string, endpoint: string, run: Run,
      symbol: Option<Symbol>)

  /** One observed broker response; `payload` stands for everything the envelope keeps besides the named fields. */
  datatype Response = Response(context: Context, page: nat, attempt: nat, payload: string)

  datatype Path =
    | RawPath(context: Context, page: nat, attempt: nat)
    | FramePath(day: int, run: Run, dataset: string, symbol: Option<Symbol>)
    | InputPath(day: int, run: Run)
    | ManifestPath(day: int, run: Run, status: Status)

  datatype Candidate = Candidate(symbol: Symbol, admitted: bool, snapshotAt: Time, featureAt: Time, values: seq<real>)

  datatype Cohort = Cohort(day: int, id: string, eligible: set<Symbol>, rejected: map<Symbol, string>)

  datatype Content =
    | RawResponse(response: Response)
    | OutcomeFrame(table: seq<seq<real>>)
    | DecisionInput(rows: seq<Candidate>, run: Run, cohortId: string)
    | Certificate(manifest: Manifest)

  datatype Ref = Ref(path: Path, digest: Content, bytes: nat, rows: Option<nat>)

  datatype CoverageEntry = CoverageEntry(symbol: Option<Symbol>, status: Status, rawRefs: seq<Ref>)

  datatype Manifest = Manifest(day: int, run: Run, cohort: Option<Cohort>, completedAt: Time,
      entries: seq<CoverageEntry>,
                               artifacts: seq<Ref>, status: Status)

  datatype StoreError =
    | TooLarge | Conflict | BadEvidence | BadCertification | BadMembership | TooEarly
    | NotFound | NoInput | NoCohort | Exhausted

  type Files = map<Path, Content>
  /** Serialised length of a content. */
  type Sizes = Content -> nat

  function RawPathOf(r: Response): Path {
    RawPath(r.context, r.page, r.attempt)
  }

  function ManifestPathOf(m: Manifest): Path {
    ManifestPath(m.day, m.run, m.status)
  }

  // ---- What a stored file must be ------------------------------------------------------------------------------

  predicate RefHolds(ref: Ref, files: Files, sizeOf: Sizes) {
    ref.path in files && files[ref.path] == ref.digest && sizeOf(ref.digest) == ref.bytes
  }

  predicate RefsHold(m: Manifest, files: Files, sizeOf: Sizes) {
    && (forall r | r in m.artifacts :: RefHolds(r, files, sizeOf))
    && (forall e, r | e in m.entries && r in e.rawRefs :: RefHolds(r, files, sizeOf))
  }

  predicate AllGood(entries: seq<CoverageEntry>) {
    forall e | e in entries :: IsGood(e.status)
  }

  predicate Certifiable(m: Manifest) {
    m.status.Complete? ==> AllGood(m.entries)
  }

  /** A content stored where its own identity says. */
  predicate Fits(p: Path, c: Content) {
    match c
    case RawResponse(r) => p == RawPathOf(r)
    case OutcomeFrame(_) => p.FramePath?
    case DecisionInput(_, run, _) => p.InputPath? && p.run == run
    case Certificate(m) => p == ManifestPathOf(m) && Certifiable(m)
  }

  predicate WellPlaced(files: Files) {
    forall p | p in files :: Fits(p, files[p])
  }

  /** Every manifest's evidence is present and matches. */
  predicate Certified(files: Files, sizeOf: Sizes) {
    forall p | p in files && files[p].Certificate? :: RefsHold(files[p].manifest, files, sizeOf)
  }

  predicate Sound(files: Files, sizeOf: Sizes) {
    WellPlaced(files) && Certified(files, sizeOf)
  }

  predicate Grows(a: Files, b: Files) {
    forall p | p in a :: p in b && b[p] == a[p]
  }

  lemma EvidenceStays(m: Manifest, a: Files, b: Files, sizeOf: Sizes)
    requires RefsHold(m, a, sizeOf) && Grows(a, b)
    ensures RefsHold(m, b, sizeOf)
  {
    forall r | RefHolds(r, a, sizeOf)
      ensures RefHolds(r, b, sizeOf)
    {
    }
  }

  // ---- Runs of any number of writers ---------------------------------------------------------------------------

  /** Putting a content at a path: a path that is taken keeps its bytes, whether they agree or not. */
  function Publish(files: Files, p: Path, c: Content): (now: Files)
    ensures Grows(files, now)
  {
    if p in files then files else files[p := c]
  }

  /** A publication of `c` at `p` is accepted: bounded, and not in conflict with what is there. */
  predicate CanHold(files: Files, sizeOf: Sizes, p: Path, c: Content) {
    sizeOf(c) <= MAX_ARTIFACT_BYTES && (p in files ==> files[p] == c)
  }

  /** One publication of a run; a manifest's references were verified in the earlier state `verifiedAt`. */
  datatype Publication = Publication(path: Path, content: Content, verifiedAt: nat)

  ghost predicate IsHistory(states: seq<Files>, run: seq<Publication>, sizeOf: Sizes) {
    && |states| == |run| + 1 && states[0] == map[]
    && forall k | 0 <= k < |run| ::
         && Fits(run[k].path, run[k].content)
         && states[k + 1] == Publish(states[k], run[k].path, run[k].content)
         && (run[k].content.Certificate? ==>
               run[k].verifiedAt <= k && RefsHold(run[k].content.manifest, states[run[k].verifiedAt], sizeOf))
  }

  /** No byte is ever lost or changed. */
  lemma {:induction false} BytesAreForever(states: seq<Files>, run: seq<Publication>, sizeOf: Sizes, i: nat, j: nat)
    requires IsHistory(states, run, sizeOf) && i <= j < |states|
    ensures Grows(states[i], states[j])
    decreases j
  {
    if i < j {
      BytesAreForever(states, run, sizeOf, i, j - 1);
      assert states[j] == Publish(states[j - 1], run[j - 1].path, run[j - 1].content);
    }
  }

  /** Every reachable store is sound, although verification and publication of a manifest are not one step. */
  lemma {:induction false} ReachableStoresAreSound(states: seq<Files>, run: seq<Publication>, sizeOf: Sizes, k: nat)
    requires IsHistory(states, run, sizeOf) && k < |states|
    ensures Sound(states[k], sizeOf)
  {
    if k > 0 {
      var pub := run[k - 1];
      ReachableStoresAreSound(states, run, sizeOf, k - 1);
      assert states[k] == Publish(states[k - 1], pub.path, pub.content);
      forall p | p in states[k] && states[k][p].Certificate?
        ensures RefsHold(states[k][p].manifest, states[k], sizeOf)
      {
        if p in states[k - 1] {
          EvidenceStays(states[k][p].manifest, states[k - 1], states[k], sizeOf);
        } else {
          BytesAreForever(states, run, sizeOf, pub.verifiedAt, k);
          EvidenceStays(pub.content.manifest, states[pub.verifiedAt], states[k], sizeOf);
        }
      }
    }
  }

  lemma CompleteManifestsAreGood(states: seq<Files>, run: seq<Publication>, sizeOf: Sizes, k: nat, p: Path,
      e: CoverageEntry)
    requires IsHistory(states, run, sizeOf) && k < |states|
    requires p in states[k] && states[k][p].Certificate? && states[k][p].manifest.status.Complete?
    requires e in states[k][p].manifest.entries
    ensures IsGood(e.status) && forall r | r in e.rawRefs :: RefHolds(r, states[k], sizeOf)
  {
    ReachableStoresAreSound(states, run, sizeOf, k);
    assert RefsHold(states[k][p].manifest, states[k], sizeOf);
  }

  // ---- Reading as of a cutoff ----------------------------------------------------------------------------------

  function DayManifests(files: Files, day: int): set<Manifest> {
    set p | p in files && p.ManifestPath? && p.day == day && files[p].Certificate? :: files[p].manifest
  }

  function StatusOrder(s: Status): nat {
    match s
    case Complete => 0 case Failed => 1 case NoTrades => 2 case NotApplicable => 3
    case Partial => 4 case Pending => 5 case Unknown => 6
  }

  /** `b` is read in preference to `a`: completed later, of a later run, or first of the same run's files. */
  predicate Superseded(a: Manifest, b: Manifest) {
    a.completedAt < b.completedAt
    || (a.completedAt == b.completedAt
        && (a.run < b.run || (a.run == b.run && StatusOrder(a.status) > StatusOrder(b.status))))
  }

  predicate IsLatest(m: Manifest, found: set<Manifest>) {
    m in found && forall o | o in found :: o == m || Superseded(o, m)
  }

  /** What a decision read considers. */
  function DecisionManifests(files: Files, day: int, cutoff: Time, run: Option<Run>): set<Manifest> {
    set m | m in DayManifests(files, day) && m.status.Complete? && m.completedAt <= cutoff
            && (if run.None? then m.cohort.Some? else m.run == run.value)
  }

  function CohortManifests(files: Files, day: int, cutoff: Time): set<Manifest> {
    set m | m in DayManifests(files, day) && (m.status.Complete? || m.status.Partial?) && m.completedAt <= cutoff
           && m.cohort.Some?
  }

  predicate EvidenceOfDay(files: Files, day: int, sizeOf: Sizes) {
    forall m | m in DayManifests(files, day) :: RefsHold(m, files, sizeOf)
  }

  predicate Reconciles(rows: seq<Candidate>, cohort: Cohort) {
    && (set c | c in rows :: c.symbol) == cohort.eligible
    && forall i, j | 0 <= i < j < |rows| :: rows[i].symbol != rows[j].symbol
  }

  function FirstInput(refs: seq<Ref>): Option<Ref> {
    if refs == [] then None else if refs[0].path.InputPath? then Some(refs[0]) else FirstInput(refs[1..])
  }

  /** What a chosen manifest yields to a decision reader. */
  function DecisionOf(m: Manifest, files: Files): Result<seq<Candidate>, StoreError> {
    var input := FirstInput(m.artifacts);
    if input.None? then Err(NoInput)
    else if m.cohort.None? then Err(NoCohort)
    else if input.value.path !in files || !files[input.value.path].DecisionInput? then Err(BadEvidence)
    else if !Reconciles(files[input.value.path].rows, m.cohort.value) then Err(BadMembership)
    else Ok(files[input.value.path].rows)
  }

  /** `r` is what a decision read of `day` at `cutoff` answers. */
  ghost predicate ReadsDecision(files: Files, sizeOf: Sizes, day: int, cutoff: Time, run: Option<Run>,
      r: Result<seq<Candidate>, StoreError>) {
    if !EvidenceOfDay(files, day, sizeOf) then r == Err(BadEvidence)
    else if DecisionManifests(files, day, cutoff, run) == {} then r == Err(NotFound)
    else exists m | IsLatest(m, DecisionManifests(files, day, cutoff, run)) :: r == DecisionOf(m, files)
  }

  ghost predicate ReadsCohort(files: Files, sizeOf: Sizes, day: int, cutoff: Time, r: Result<Cohort, StoreError>) {
    if !EvidenceOfDay(files, day, sizeOf) then r == Err(BadEvidence)
    else if CohortManifests(files, day, cutoff) == {} then r == Err(NotFound)
    else exists m | IsLatest(m, CohortManifests(files, day, cutoff)) :: m.cohort.Some? && r == Ok(m.cohort.value)
  }

  /** A read has one answer. */
  lemma OneAnswer(files: Files, sizeOf: Sizes, day: int, cutoff: Time, run: Option<Run>,
      r: Result<seq<Candidate>, StoreError>, q: Result<seq<Candidate>, StoreError>)
    requires ReadsDecision(files, sizeOf, day, cutoff, run, r) && ReadsDecision(files, sizeOf, day, cutoff, run, q)
    ensures r == q
  {
  }

  /** Nothing published between the two stores certifies anything completed by the cutoff. */
  predicate OnlyLaterManifests(a: Files, b: Files, cutoff: Time) {
    forall p | p in b && p !in a && b[p].Certificate? :: b[p].manifest.completedAt > cutoff
  }

  lemma EvidenceIsGiven(files: Files, day: int, sizeOf: Sizes)
    requires Sound(files, sizeOf)
    ensures EvidenceOfDay(files, day, sizeOf)
  {
  }

  lemma SameManifestsByCutoff(a: Files, b: Files, day: int, cutoff: Time, m: Manifest)
    requires Grows(a, b) && OnlyLaterManifests(a, b, cutoff) && m.completedAt <= cutoff
    ensures m in DayManifests(a, day) <==> m in DayManifests(b, day)
  {
    if m in DayManifests(a, day) {
      var p :| p in a && p.ManifestPath? && p.day == day && a[p].Certificate? && a[p].manifest == m;
      assert b[p].manifest == m;
    }
  }

  lemma {:induction false} FirstInputIsListed(refs: seq<Ref>)
    ensures FirstInput(refs).Some? ==> FirstInput(refs).value in refs && FirstInput(refs).value.path.InputPath?
  {
    if refs != [] { FirstInputIsListed(refs[1..]); }
  }

  lemma SameDecision(m: Manifest, a: Files, b: Files, sizeOf: Sizes)
    requires Grows(a, b) && RefsHold(m, a, sizeOf)
    ensures DecisionOf(m, a) == DecisionOf(m, b)
  {
    FirstInputIsListed(m.artifacts);
    if FirstInput(m.artifacts).Some? {
      assert RefHolds(FirstInput(m.artifacts).value, a, sizeOf);
    }
  }

  /** Point-in-time stability: whatever completes after the cutoff, reads at the cutoff answer the same. */
  lemma ReadsAtCutoffAreStable(a: Files, b: Files, sizeOf: Sizes, day: int, cutoff: Time, run: Option<Run>)
    requires Sound(a, sizeOf) && Sound(b, sizeOf) && Grows(a, b) && OnlyLaterManifests(a, b, cutoff)
    ensures forall r :: ReadsDecision(a, sizeOf, day, cutoff, run, r) <==> ReadsDecision(b, sizeOf, day, cutoff, run, r)
    ensures forall r :: ReadsCohort(a, sizeOf, day, cutoff, r) <==> ReadsCohort(b, sizeOf, day, cutoff, r)
  {
    EvidenceIsGiven(a, day, sizeOf);
    EvidenceIsGiven(b, day, sizeOf);
    forall m: Manifest | m.completedAt <= cutoff
      ensures m in DayManifests(a, day) <==> m in DayManifests(b, day)
    {
      SameManifestsByCutoff(a, b, day, cutoff, m);
    }
    assert DecisionManifests(a, day, cutoff, run) == DecisionManifests(b, day, cutoff, run);
    assert CohortManifests(a, day, cutoff) == CohortManifests(b, day, cutoff);
    forall m | m in DecisionManifests(a, day, cutoff, run)
      ensures DecisionOf(m, a) == DecisionOf(m, b)
    {
      SameDecision(m, a, b, sizeOf);
    }
  }

  /** The same through any later run of publications: two reads at one cutoff never answer differently. */
  lemma ReadsAreStableThroughRuns(states: seq<Files>, run: seq<Publication>, sizeOf: Sizes, i: nat, j: nat, day: int,
      cutoff: Time, named: Option<Run>)
    requires IsHistory(states, run, sizeOf) && i <= j < |states|
    requires forall k | i <= k < j && run[k].content.Certificate? :: run[k].content.manifest.completedAt > cutoff
    ensures forall r :: ReadsDecision(states[i], sizeOf, day, cutoff, named, r) <==>
            ReadsDecision(states[j], sizeOf, day, cutoff, named, r)
    ensures forall r :: ReadsCohort(states[i], sizeOf, day, cutoff, r) <==>
            ReadsCohort(states[j], sizeOf, day, cutoff, r)
    ensures forall r, q | ReadsDecision(states[i], sizeOf, day, cutoff, named, r)
                          && ReadsDecision(states[j], sizeOf, day, cutoff, named, q) :: r == q
  {
    ReachableStoresAreSound(states, run, sizeOf, i);
    ReachableStoresAreSound(states, run, sizeOf, j);
    BytesAreForever(states, run, sizeOf, i, j);
    LaterRunAddsLaterManifests(states, run, sizeOf, i, j, cutoff);
    ReadsAtCutoffAreStable(states[i], states[j], sizeOf, day, cutoff, named);
    forall r, q | ReadsDecision(states[i], sizeOf, day, cutoff, named, r)
                  && ReadsDecision(states[j], sizeOf, day, cutoff, named, q)
      ensures r == q
    {
      OneAnswer(states[j], sizeOf, day, cutoff, named, r, q);
    }
  }

  lemma {:induction false} LaterRunAddsLaterManifests(states: seq<Files>, run: seq<Publication>, sizeOf: Sizes,
      i: nat, j: nat, cutoff: Time)
    requires IsHistory(states, run, sizeOf) && i <= j < |states|
    requires forall k | i <= k < j && run[k].content.Certificate? :: run[k].content.manifest.completedAt > cutoff
    ensures OnlyLaterManifests(states[i], states[j], cutoff)
    decreases j
  {
    if i < j {
      LaterRunAddsLaterManifests(states, run, sizeOf, i, j - 1, cutoff);
      assert states[j] == Publish(states[j - 1], run[j - 1].path, run[j - 1].content);
    }
  }

  // ---- Attempt shifting ----------------------------------------------------------------------------------------

  const MAX_SHIFTS: nat := 6

  function Shifted(r: Response, offset: nat): Response {
    r.(attempt := r.attempt + offset)
  }

  /** The path of this response already holds something else. */
  predicate Occupied(files: Files, r: Response) {
    RawPathOf(r) in files && files[RawPathOf(r)] != RawResponse(r)
  }

  /** Publishing this shift fails with a conflict, and only then is the next one tried. */
  predicate Conflicts(files: Files, sizeOf: Sizes, r: Response, offset: nat) {
    sizeOf(RawResponse(Shifted(r, offset))) <= MAX_ARTIFACT_BYTES && Occupied(files, Shifted(r, offset))
  }

  /** The first shift from `offset` on that does not conflict. */
  function FreeShift(files: Files, sizeOf: Sizes, r: Response, offset: nat): (k: nat)
    requires offset <= MAX_SHIFTS
    ensures offset <= k <= MAX_SHIFTS
    ensures forall j | offset <= j < k :: Conflicts(files, sizeOf, r, j)
    ensures k < MAX_SHIFTS ==> !Conflicts(files, sizeOf, r, k)
    decreases MAX_SHIFTS - offset
  {
    if offset < MAX_SHIFTS && Conflicts(files, sizeOf, r, offset)
    then FreeShift(files, sizeOf, r, offset + 1)
    else offset
  }

  /** The response is kept under the identity of this shift. */
  predicate Kept(files: Files, r: Response, offset: nat) {
    RawPathOf(Shifted(r, offset)) in files && files[RawPathOf(Shifted(r, offset))] == RawResponse(Shifted(r, offset))
  }

  /**
   * Once a response is kept at the first shift without conflict, it is there in every later store, and a repeat
   * adds nothing.
   */
  lemma RepeatFindsTheSameShift(files: Files, sizeOf: Sizes, r: Response, k: nat, later: Files)
    requires k == FreeShift(files, sizeOf, r, 0) < MAX_SHIFTS
    requires Grows(Publish(files, RawPathOf(Shifted(r, k)), RawResponse(Shifted(r, k))), later)
    requires sizeOf(RawResponse(Shifted(r, k))) <= MAX_ARTIFACT_BYTES
    ensures FreeShift(later, sizeOf, r, 0) == k && Kept(later, r, k)
    ensures Publish(later, RawPathOf(Shifted(r, k)), RawResponse(Shifted(r, k))) == later
  {
    var now := Publish(files, RawPathOf(Shifted(r, k)), RawResponse(Shifted(r, k)));
    assert Kept(now, r, k);
    forall j | 0 <= j < k
      ensures Conflicts(later, sizeOf, r, j)
    {
      assert Conflicts(files, sizeOf, r, j);
    }
  }

  // ---- The store -----------------------------------------------------------------------------------------------

  class Store {
    var files: Files
    const sizeOf: Sizes

    constructor (sizeOf: Sizes)
      ensures files == map[] && this.sizeOf == sizeOf
    {
      files := map[];
      this.sizeOf := sizeOf;
    }

    /** Store bytes under a path that has none, or confirm that it already holds these bytes. */
    method PublishBytes(path: Path, content: Content, rows: Option<nat>) returns (r: Result<Ref, StoreError>)
      modifies this
      ensures sizeOf(content) > MAX_ARTIFACT_BYTES ==> r == Err(TooLarge) && files == old(files)
      ensures sizeOf(content) <= MAX_ARTIFACT_BYTES ==> files == Publish(old(files), path, content)
      ensures sizeOf(content) <= MAX_ARTIFACT_BYTES ==>
                r == if files[path] == content then Ok(Ref(path, content, sizeOf(content), rows)) else Err(Conflict)
    {
      if sizeOf(content) > MAX_ARTIFACT_BYTES {
        return Err(TooLarge);
      }
      if path in files {
        if files[path] == content {
          return Ok(Ref(path, content, sizeOf(content), rows));
        }
        return Err(Conflict);
      }
      files := files[path := content];
      return Ok(Ref(path, content, sizeOf(content), rows));
    }

    method AppendResponse(response: Response) returns (r: Result<Ref, StoreError>)
      requires Sound(files, sizeOf)
      modifies this
      ensures Sound(files, sizeOf) && Grows(old(files), files)
      ensures r.Ok? <==> CanHold(old(files), sizeOf, RawPathOf(response), RawResponse(response))
      ensures r.Ok? ==> Kept(files, response, 0) && RefHolds(r.value, files, sizeOf)
      ensures r.Ok? ==> files == Publish(old(files), RawPathOf(response), RawResponse(response))
      ensures r.Err? ==> files == old(files)
      ensures r.Err? ==> r.error == if sizeOf(RawResponse(response)) > MAX_ARTIFACT_BYTES then TooLarge else Conflict
    {
      assert Shifted(response, 0) == response;
      r := PublishBytes(RawPathOf(response), RawResponse(response), None);
      PublishedStaysSound(old(files), files, sizeOf, RawPathOf(response), RawResponse(response));
    }

    /** `_append_with_unique_attempt`: keep a repeated call's evidence beside what its path already holds. */
    method AppendWithUniqueAttempt(response: Response) returns (r: Result<(), StoreError>)
      requires Sound(files, sizeOf)
      modifies this
      ensures Sound(files, sizeOf)
      ensures var k := FreeShift(old(files), sizeOf, response, 0);
              if k == MAX_SHIFTS then r == Err(Exhausted) && files == old(files)
              else if sizeOf(RawResponse(Shifted(response, k))) > MAX_ARTIFACT_BYTES
              then r == Err(TooLarge) && files == old(files)
              else r == Ok(()) && Kept(files, response, k)
                   && files == Publish(old(files), RawPathOf(Shifted(response, k)), RawResponse(Shifted(response, k)))
    {
      for offset := 0 to MAX_SHIFTS
        invariant files == old(files)
        invariant FreeShift(files, sizeOf, response, 0) == FreeShift(files, sizeOf, response, offset)
      {
        var appended := AppendResponse(Shifted(response, offset));
        assert Shifted(Shifted(response, offset), 0) == Shifted(response, offset);
        if appended.Ok? {
          return Ok(());
        }
        if appended.error != Conflict {
          return Err(appended.error);
        }
      }
      return Err(Exhausted);
    }

    method PublishFrame(table: seq<seq<real>>, context: Context) returns (r: Result<Ref, StoreError>)
      requires Sound(files, sizeOf)
      modifies this
      ensures Sound(files, sizeOf) && Grows(old(files), files)
      ensures r.Ok? ==> RefHolds(r.value, files, sizeOf) && r.value.digest == OutcomeFrame(table)
      ensures r.Ok? <==> CanHold(old(files), sizeOf,
              FramePath(context.day, context.run, context.dataset, context.symbol), OutcomeFrame(table))
      ensures r.Ok? ==> files == Publish(old(files),
              FramePath(context.day, context.run, context.dataset, context.symbol), OutcomeFrame(table))
      ensures r.Err? ==> files == old(files)
    {
      var path := FramePath(context.day, context.run, context.dataset, context.symbol);
      r := PublishBytes(path, OutcomeFrame(table), Some(|table|));
      PublishedStaysSound(old(files), files, sizeOf, path, OutcomeFrame(table));
    }

    /** Publish coverage only after its evidence was verified. */
    method PublishManifest(m: Manifest) returns (r: Result<Ref, StoreError>)
      requires Sound(files, sizeOf)
      modifies this
      ensures Sound(files, sizeOf) && Grows(old(files), files)
      ensures !Certifiable(m) ==> r == Err(BadCertification)
      ensures Certifiable(m) && !RefsHold(m, old(files), sizeOf) ==> r == Err(BadEvidence)
      ensures Certifiable(m) && RefsHold(m, old(files), sizeOf) ==>
              (r.Ok? <==> CanHold(old(files), sizeOf, ManifestPathOf(m), Certificate(m)))
      ensures r.Ok? ==> RefsHold(m, files, sizeOf) && files == Publish(old(files), ManifestPathOf(m), Certificate(m))
      ensures r.Ok? ==> RefHolds(r.value, files, sizeOf) && r.value.digest == Certificate(m)
      ensures r.Err? ==> files == old(files)
    {
      if m.status.Complete? && !AllGood(m.entries) {
        return Err(BadCertification);
      }
      if !RefsHold(m, files, sizeOf) {
        return Err(BadEvidence);
      }
      r := PublishBytes(ManifestPathOf(m), Certificate(m), None);
      PublishedStaysSound(old(files), files, sizeOf, ManifestPathOf(m), Certificate(m));
    }

    /** Freeze the decision input and its cohort, COMPLETE exactly when every entry is good. */
    method PublishDecision(frame: seq<Candidate>, cohort: Cohort, run: Run, completedAt: Time,
        entries: seq<CoverageEntry>)
      returns (r: Result<Ref, StoreError>)
      requires Sound(files, sizeOf)
      modifies this
      ensures Sound(files, sizeOf) && Grows(old(files), files)
      ensures !Reconciles(frame, cohort) ==> r == Err(BadMembership) && files == old(files)
      ensures Reconciles(frame, cohort) && completedAt < LastStamp(frame, completedAt) ==>
              r == Err(TooEarly) && files == old(files)
      ensures r.Ok? <==> Reconciles(frame, cohort) && completedAt >= LastStamp(frame, completedAt)
                         && CanDecide(old(files), sizeOf, frame, cohort, run, completedAt, entries)
      ensures files.Keys <= old(files).Keys + {InputPath(cohort.day, run)}
              + {ManifestPath(cohort.day, run, DecisionStatus(entries))}
      ensures r.Ok? ==> DecisionStored(files, sizeOf, frame, cohort, run, completedAt, entries)
    {
      if !Reconciles(frame, cohort) {
        return Err(BadMembership);
      }
      if completedAt < LastStamp(frame, completedAt) {
        return Err(TooEarly);
      }
      var input := DecisionInput(frame, run, cohort.id);
      var path := InputPath(cohort.day, run);
      var stored := PublishBytes(path, input, Some(|frame|));
      PublishedStaysSound(old(files), files, sizeOf, path, input);
      if stored.Err? {
        return Err(stored.error);
      }
      var m := DecisionManifest(sizeOf, frame, cohort, run, completedAt, entries);
      assert m.artifacts == [stored.value] && RefHolds(stored.value, files, sizeOf);
      r := PublishManifest(m);
      if r.Ok? {
        assert files[ManifestPathOf(m)] == Certificate(m);
      }
    }

    /** `_select_decision` and `read_cohort` both end in this choice. */
    method Latest(found: set<Manifest>, ghost day: int) returns (best: Manifest)
      requires WellPlaced(files) && found != {} && found <= DayManifests(files, day)
      ensures IsLatest(best, found)
    {
      best :| best in found;
      var rest := found - {best};
      while rest != {}
        invariant rest <= found && best in found - rest
        invariant forall o | o in found && o !in rest :: o == best || Superseded(o, best)
        decreases rest
      {
        var m :| m in rest;
        if Superseded(best, m) {
          forall o | o in found && o !in rest && Superseded(o, best)
            ensures Superseded(o, m)
          {
          }
          best := m;
        } else {
          KeysDiffer(files, day, best, m);
        }
        rest := rest - {m};
      }
    }

    method ReadDecision(day: int, cutoff: Time, run: Option<Run>) returns (r: Result<seq<Candidate>, StoreError>)
      requires WellPlaced(files)
      ensures ReadsDecision(files, sizeOf, day, cutoff, run, r)
    {
      if !EvidenceOfDay(files, day, sizeOf) {
        return Err(BadEvidence);
      }
      var found := DecisionManifests(files, day, cutoff, run);
      if found == {} {
        return Err(NotFound);
      }
      var m := Latest(found, day);
      return DecisionOf(m, files);
    }

    method ReadCohort(day: int, cutoff: Time) returns (r: Result<Cohort, StoreError>)
      requires WellPlaced(files)
      ensures ReadsCohort(files, sizeOf, day, cutoff, r)
    {
      if !EvidenceOfDay(files, day, sizeOf) {
        return Err(BadEvidence);
      }
      var found := CohortManifests(files, day, cutoff);
      if found == {} {
        return Err(NotFound);
      }
      var m := Latest(found, day);
      return Ok(m.cohort.value);
    }
  }

  function DecisionStatus(entries: seq<CoverageEntry>): Status {
    if AllGood(entries) then Complete else Partial
  }

  /** The manifest a decision publishes: its input, its cohort, and COMPLETE exactly when every entry is good. */
  function DecisionManifest(sizeOf: Sizes, frame: seq<Candidate>, cohort: Cohort, run: Run, completedAt: Time,
      entries: seq<CoverageEntry>): Manifest {
    var input := DecisionInput(frame, run, cohort.id);
    Manifest(cohort.day, run, Some(cohort), completedAt, entries,
        [Ref(InputPath(cohort.day, run), input, sizeOf(input), Some(|frame|))],
             DecisionStatus(entries))
  }

  /** Both publications of a decision are accepted, and the evidence of its entries is there by then. */
  predicate CanDecide(files: Files, sizeOf: Sizes, frame: seq<Candidate>, cohort: Cohort, run: Run,
      completedAt: Time, entries: seq<CoverageEntry>) {
    var input := DecisionInput(frame, run, cohort.id);
    var m := DecisionManifest(sizeOf, frame, cohort, run, completedAt, entries);
    var afterInput := Publish(files, InputPath(cohort.day, run), input);
    CanHold(files, sizeOf, InputPath(cohort.day, run), input) && RefsHold(m, afterInput, sizeOf)
    && CanHold(afterInput, sizeOf, ManifestPathOf(m), Certificate(m))
  }

  /** The latest clock in a decision frame, or `otherwise` when the frame is empty. */
  function LastStamp(frame: seq<Candidate>, otherwise: Time): (t: Time)
    ensures forall c | c in frame :: c.snapshotAt <= t && c.featureAt <= t
    ensures frame == [] ==> t == otherwise
    ensures frame != [] ==> exists c | c in frame :: t == c.snapshotAt || t == c.featureAt
  {
    if frame == [] then otherwise
    else
      var c := frame[0];
      var own := if c.snapshotAt >= c.featureAt then c.snapshotAt else c.featureAt;
      if |frame| == 1 then own
      else
        var rest := LastStamp(frame[1..], otherwise);
        if own >= rest then own else rest
  }

  /** The input and the manifest of a decision are in the store. */
  predicate DecisionStored(files: Files, sizeOf: Sizes, frame: seq<Candidate>, cohort: Cohort, run: Run,
      completedAt: Time, entries: seq<CoverageEntry>)
  {
    var input := DecisionInput(frame, run, cohort.id);
    var path := ManifestPath(cohort.day, run, DecisionStatus(entries));
    && InputPath(cohort.day, run) in files && files[InputPath(cohort.day, run)] == input
    && path in files && files[path].Certificate?
    && var m := files[path].manifest;
    && m.day == cohort.day && m.run == run && m.cohort == Some(cohort)
    && m.completedAt == completedAt && m.entries == entries
    && m.status == DecisionStatus(entries) && |m.artifacts| == 1
    && m.artifacts[0].path == InputPath(cohort.day, run) && m.artifacts[0].digest == input
  }

  lemma PublishedStaysSound(before: Files, now: Files, sizeOf: Sizes, p: Path, c: Content)
    requires Sound(before, sizeOf) && Fits(p, c) && (now == before || now == Publish(before, p, c))
    requires c.Certificate? ==> RefsHold(c.manifest, before, sizeOf)
    ensures Sound(now, sizeOf) && Grows(before, now)
  {
    forall q | q in now && now[q].Certificate?
      ensures RefsHold(now[q].manifest, now, sizeOf)
    {
      EvidenceStays(now[q].manifest, before, now, sizeOf);
    }
  }

  /** Two manifests of one day never tie: a run has one file per status. */
  lemma KeysDiffer(files: Files, day: int, a: Manifest, b: Manifest)
    requires WellPlaced(files) && a in DayManifests(files, day) && b in DayManifests(files, day) && a != b
    ensures Superseded(a, b) || Superseded(b, a)
  {
    var p :| p in files && p.ManifestPath? && p.day == day && files[p].Certificate? && files[p].manifest == a;
    var q :| q in files && q.ManifestPath? && q.day == day && files[q].Certificate? && files[q].manifest == b;
    assert p == ManifestPathOf(a) && q == ManifestPathOf(b);
    assert a.run == b.run && a.status == b.status ==> p == q;
  }

  /** A completely certified decision reads back by its run as it was published, from its completion on. */
  lemma PublishedDecisionReadsBack(files: Files, sizeOf: Sizes, frame: seq<Candidate>, cohort: Cohort, run: Run,
      completedAt: Time, entries: seq<CoverageEntry>, cutoff: Time)
    requires Sound(files, sizeOf) && DecisionStored(files, sizeOf, frame, cohort, run, completedAt, entries)
    requires AllGood(entries) && Reconciles(frame, cohort) && cutoff >= completedAt
    ensures ReadsDecision(files, sizeOf, cohort.day, cutoff, Some(run), Ok(frame))
  {
    EvidenceIsGiven(files, cohort.day, sizeOf);
    var path := ManifestPath(cohort.day, run, Complete);
    var m := files[path].manifest;
    var found := DecisionManifests(files, cohort.day, cutoff, Some(run));
    assert m in DayManifests(files, cohort.day);
    assert m in found;
    forall o | o in found
      ensures o == m
    {
      var p :| p in files && p.ManifestPath? && p.day == cohort.day && files[p].Certificate? && files[p].manifest == o;
      assert p == ManifestPathOf(o);
    }
    assert IsLatest(m, found);
    assert DecisionOf(m, files) == Ok(frame);
  }
}
