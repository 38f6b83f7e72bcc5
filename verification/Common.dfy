/** Value types shared by the component models. */
module Common {
  datatype Option<+T> = None | Some(value: T)

  datatype Result<+T, +E> = Ok(value: T) | Err(error: E)

  /** Outcome of one capture attempt. */
  datatype Status = Pending | Complete | Partial | Failed | NoTrades | NotApplicable | Unknown

  /** The outcomes that certify a symbol's capture as usable. */
  predicate IsGood(s: Status) {
    s.Complete? || s.NoTrades? || s.NotApplicable?
  }

  function Max(a: real, b: real): (m: real)
    ensures m >= a && m >= b && (m == a || m == b)
  {
    if a >= b then a else b
  }

  predicate Spaced(times: seq<real>, interval: real) {
    forall i | 0 < i < |times| :: times[i] >= times[i - 1] + interval
  }

  ghost predicate Increasing<T>(before: (T, T) -> bool, s: seq<T>) {
    forall i, j | 0 <= i < j < |s| :: before(s[i], s[j])
  }

  /** The elements of a sequence in a strict order determine the sequence. */
  lemma {:induction false} IncreasingUnique<T(!new)>(before: (T, T) -> bool, a: seq<T>, b: seq<T>)
    requires forall x, y :: before(x, y) ==> !before(y, x)
    requires Increasing(before, a) && Increasing(before, b) && forall x :: x in a <==> x in b
    ensures a == b
  {
    assert |b| > 0 ==> b[0] in a;
    assert |a| > 0 ==> a[0] in b;
    if a != [] {
      var m, n := |a| - 1, |b| - 1;
      LastIsGreatest(before, a, b[n]);
      LastIsGreatest(before, b, a[m]);
      forall x
        ensures x in a[..m] <==> x in b[..n]
      {
        LastIsGreatest(before, a, x);
        LastIsGreatest(before, b, x);
      }
      IncreasingUnique(before, a[..m], b[..n]);
      assert a == a[..m] + [a[m]] && b == b[..n] + [b[n]];
    }
  }

  lemma LastIsGreatest<T>(before: (T, T) -> bool, s: seq<T>, x: T)
    requires s != [] && Increasing(before, s) && !before(x, x)
    ensures x in s ==> x == s[|s| - 1] || before(x, s[|s| - 1])
    ensures x in s[..|s| - 1] <==> x in s && x != s[|s| - 1]
  {
    assert s == s[..|s| - 1] + [s[|s| - 1]];
  }
}
