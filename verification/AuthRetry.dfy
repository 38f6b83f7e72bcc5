/**
 * One logical request of a REST client (`send_with_auth_retry`): host admission before every send, one
 * compare-and-swap token refresh, and rate-limit backoff. The outside world is a function of the position
 * in the trace: what a send is answered, which token the client holds, and whether the call raises.
 */
module AuthRetry {
  import opened Common

  type Token = string

  datatype Response = Response(status: nat, body: string)

  datatype Event = Admit | Send(token: Token) | Refresh(rejected: Token) | Sleep(seconds: real)

  datatype World = World(
    answer: nat -> Response,                          // response to the send at this position
    token: nat -> Token,                              // current_token() read at this position
    raises: nat -> bool,                              // the admission, send or refresh at this position raises
    rejects: Response -> bool,
    rateLimitWait: (nat, Response) -> Option<real>)

  datatype Failure = Raised

  function Count(trace: seq<Event>, kind: Event -> bool): nat {
    if trace == [] then 0
    else Count(trace[..|trace| - 1], kind) + (if kind(trace[|trace| - 1]) then 1 else 0)
  }

  function Sends(trace: seq<Event>): nat { Count(trace, (e: Event) => e.Send?) }

  function Refreshes(trace: seq<Event>): nat { Count(trace, (e: Event) => e.Refresh?) }

  function Sleeps(trace: seq<Event>): nat { Count(trace, (e: Event) => e.Sleep?) }

  lemma CountOneMore(trace: seq<Event>, e: Event)
    ensures Sends(trace + [e]) == Sends(trace) + (if e.Send? then 1 else 0)
    ensures Refreshes(trace + [e]) == Refreshes(trace) + (if e.Refresh? then 1 else 0)
    ensures Sleeps(trace + [e]) == Sleeps(trace) + (if e.Sleep? then 1 else 0)
  {
    assert (trace + [e])[..|trace|] == trace;
  }

  /** What event `i` owes to the events before it. */
  predicate Justified(w: World, trace: seq<Event>, i: nat)
    requires i < |trace|
  {
    match trace[i]
    case Admit => i == 0 || trace[i - 1].Sleep? || trace[i - 1].Refresh?
    case Send(token) => i > 0 && trace[i - 1].Admit? && token == w.token(i)
    case Refresh(rejected) =>
      i > 0 && trace[i - 1] == Send(rejected) && w.rejects(w.answer(i - 1)) && Refreshes(trace[..i]) == 0
    case Sleep(seconds) =>
      && i > 0 && trace[i - 1].Send?
      && w.rateLimitWait(Sleeps(trace[..i]), w.answer(i - 1)) == Some(seconds)
      && (w.rejects(w.answer(i - 1)) ==> Refreshes(trace[..i]) == 1)
  }

  predicate AllJustified(w: World, trace: seq<Event>) {
    forall i | 0 <= i < |trace| :: Justified(w, trace, i)
  }

  /** Nothing before position `n` raised. */
  predicate Quiet(w: World, trace: seq<Event>, n: nat)
    requires n <= |trace|
  {
    forall i | 0 <= i < n :: !trace[i].Sleep? ==> !w.raises(i)
  }

  /** Why the response at the end of the trace is final. */
  predicate IsFinal(w: World, maxAttempts: nat, trace: seq<Event>) {
    && |trace| > 0 && trace[|trace| - 1].Send?
    && var n := |trace| - 1;
       var response := w.answer(n);
       && (w.rejects(response) ==> Refreshes(trace) == 1)
       && (|| (n >= 2 && trace[n - 2].Refresh? && w.rejects(response))
           || w.rateLimitWait(Sleeps(trace), response).None?
           || Sleeps(trace) == maxAttempts - 1)
  }

  /** A trace in which every event is justified and none has raised, with its counts. */
  predicate Clean(w: World, trace: seq<Event>, sends: nat, refreshes: nat, sleeps: nat) {
    && AllJustified(w, trace) && Quiet(w, trace, |trace|)
    && Sends(trace) == sends && Refreshes(trace) == refreshes && Sleeps(trace) == sleeps
  }

  lemma Append(w: World, trace: seq<Event>, e: Event, sends: nat, refreshes: nat, sleeps: nat)
    requires Clean(w, trace, sends, refreshes, sleeps) && Justified(w, trace + [e], |trace|)
    ensures AllJustified(w, trace + [e]) && Quiet(w, trace + [e], |trace|)
    ensures Sends(trace + [e]) == sends + (if e.Send? then 1 else 0)
    ensures Refreshes(trace + [e]) == refreshes + (if e.Refresh? then 1 else 0)
    ensures Sleeps(trace + [e]) == sleeps + (if e.Sleep? then 1 else 0)
    ensures (trace + [e])[..|trace|] == trace
    ensures (!e.Sleep? ==> !w.raises(|trace|)) ==> Quiet(w, trace + [e], |trace| + 1)
  {
    CountOneMore(trace, e);
    forall i | 0 <= i < |trace + [e]|
      ensures Justified(w, trace + [e], i)
    {
      if i < |trace| {
        assert Justified(w, trace, i);
        assert (trace + [e])[..i] == trace[..i];
      }
    }
  }

  predicate Stopped(w: World, trace: seq<Event>) {
    && AllJustified(w, trace)
    && |trace| > 0 && Quiet(w, trace, |trace| - 1) && w.raises(|trace| - 1) && !trace[|trace| - 1].Sleep?
  }

  method SendWithAuthRetry(w: World, maxAttempts: nat) returns (result: Result<Response, Failure>, trace: seq<Event>)
    requires maxAttempts >= 1
    ensures AllJustified(w, trace)
    ensures Sends(trace) <= maxAttempts + 1
    ensures Refreshes(trace) <= 1
    ensures Sleeps(trace) <= maxAttempts - 1
    ensures result.Ok? ==>
            Quiet(w, trace, |trace|) && IsFinal(w, maxAttempts, trace) && result.value == w.answer(|trace| - 1)
    ensures result.Err? ==> Stopped(w, trace)
  {
    trace := [];
    var refreshed := false;
    var attempt := 0;
    while true
      invariant attempt < maxAttempts
      invariant Clean(w, trace, attempt + (if refreshed then 1 else 0), if refreshed then 1 else 0, attempt)
      invariant trace == [] || trace[|trace| - 1].Sleep?
      decreases maxAttempts - attempt
    {
      var ok, response;
      var asked := if refreshed then 1 else 0;
      ok, response, trace := AdmitAndSend(w, trace, attempt + asked, asked, attempt);
      if !ok { return Err(Raised), trace; }
      if w.rejects(response) && !refreshed {
        refreshed := true;
        ok, response, trace := RefreshAndReplay(w, trace, attempt);
        if !ok { return Err(Raised), trace; }
        if w.rejects(response) { return Ok(response), trace; }
      }
      var wait := w.rateLimitWait(attempt, response);
      if wait.None? { return Ok(response), trace; }
      if attempt == maxAttempts - 1 { return Ok(response), trace; }
      assert (trace + [Sleep(wait.value)])[..|trace|] == trace;
      asked := if refreshed then 1 else 0;
      Append(w, trace, Sleep(wait.value), attempt + 1 + asked, asked, attempt);
      trace := trace + [Sleep(wait.value)];
      attempt := attempt + 1;
    }
  }

  /** The one refresh carries the token just sent; the replay is admitted like any other send. */
  method RefreshAndReplay(w: World, before: seq<Event>, attempt: nat) returns (ok: bool, response: Response,
      trace: seq<Event>)
    requires Clean(w, before, attempt + 1, 0, attempt)
    requires |before| > 0 && before[|before| - 1].Send? && w.rejects(w.answer(|before| - 1))
    ensures Sends(trace) <= attempt + 2 && Refreshes(trace) == 1 && Sleeps(trace) == attempt
    ensures ok ==> Clean(w, trace, attempt + 2, 1, attempt)
    ensures ok ==> |trace| == |before| + 3 && trace[|trace| - 1].Send? && trace[|trace| - 3].Refresh?
    ensures ok ==> response == w.answer(|trace| - 1)
    ensures !ok ==> Stopped(w, trace)
  {
    var refresh := Refresh(before[|before| - 1].token);
    assert (before + [refresh])[..|before|] == before;
    Append(w, before, refresh, attempt + 1, 0, attempt);
    trace := before + [refresh];
    if w.raises(|trace| - 1) { return false, w.answer(0), trace; }
    ok, response, trace := AdmitAndSend(w, trace, attempt + 1, 1, attempt);
  }

  /** Await admission, read the current token, send, and decode; stop at the first call that raises. */
  method AdmitAndSend(w: World, before: seq<Event>, ghost sends: nat, ghost refreshes: nat, ghost sleeps: nat)
    returns (ok: bool, response: Response, trace: seq<Event>)
    requires Clean(w, before, sends, refreshes, sleeps)
    requires before == [] || before[|before| - 1].Sleep? || before[|before| - 1].Refresh?
    ensures before <= trace
    ensures Sends(trace) <= sends + 1 && Refreshes(trace) == refreshes && Sleeps(trace) == sleeps
    ensures ok ==> Clean(w, trace, sends + 1, refreshes, sleeps)
    ensures ok ==> |trace| == |before| + 2 && trace[|trace| - 1].Send? && response == w.answer(|trace| - 1)
    ensures !ok ==> Stopped(w, trace)
  {
    response := w.answer(|before| + 1);
    Append(w, before, Admit, sends, refreshes, sleeps);
    trace := before + [Admit];
    if w.raises(|trace| - 1) { return false, response, trace; }
    var token := w.token(|trace|);
    Append(w, trace, Send(token), sends, refreshes, sleeps);
    trace := trace + [Send(token)];
    return !w.raises(|trace| - 1), response, trace;
  }
}
