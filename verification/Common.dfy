/** Vocabulary shared by every store: optional values, results, transactions and digests. */
module Common {

  datatype Option<+T> = None | Some(value: T)

  /** The error values the stores and the router return to their callers. */
  datatype Error =
    | ErrAssignment | ErrConflict | ErrCapacity | ErrNotFound | ErrRetirement
    | ErrInvalid | ErrStale | ErrUnhealthy | ErrRetired | ErrReconciliation
    | ErrArtifact | ErrInterrupted

  datatype Result<+T> = Ok(value: T) | Err(error: Error)

  /** Success or the error, without the value. */
  function Outcome<T>(r: Result<T>): Result<()> {
    match r
    case Ok(_) => Ok(())
    case Err(e) => Err(e)
  }

  /** What surrounds a process. Anything outside may fail at any moment, unless it is calm. */
  class Environment {
    var calm: bool

    constructor (calm: bool)
      ensures this.calm == calm
    {
      this.calm := calm;
    }

    /** A crash, a lost connection, a failed write or an unhealthy probe. */
    method Fault() returns (fault: bool)
      ensures calm ==> !fault
    {
      fault := *;
      fault := fault && !calm;
    }
  }

  /** The outcome of one immediate transaction: the committed state and the caller's result. */
  datatype Tx<+S, +T> = Tx(state: S, result: Result<T>)

  /** A lower-case hexadecimal SHA-256 digest, the form of every identifier here. */
  predicate Digest(s: string) {
    |s| == 64 && forall i | 0 <= i < |s| :: '0' <= s[i] <= '9' || 'a' <= s[i] <= 'f'
  }

  predicate Architecture(s: string) {
    s == "arm64" || s == "amd64"
  }

  /** An injective image of a finite set is no larger than any finite set that contains it. */
  lemma {:induction false} InjectionBound<A, B>(f: map<A, B>, codomain: set<B>)
    requires forall a | a in f :: f[a] in codomain
    requires forall a, b | a in f && b in f && a != b :: f[a] != f[b]
    ensures |f| <= |codomain|
    decreases |f|
  {
    if |f| > 0 {
      var a :| a in f;
      var g := f - {a};
      assert f.Keys == g.Keys + {a};
      InjectionBound(g, codomain - {f[a]});
    }
  }

  lemma {:induction false} SubsetCount<T>(a: set<T>, b: set<T>)
    requires a <= b
    ensures |a| <= |b|
    decreases |a|
  {
    if a != {} {
      var x :| x in a;
      SubsetCount(a - {x}, b - {x});
    }
  }
}
