/**
 * The package's documented usage, stated as client methods that rely only on
 * the specifications of `MultiError`. The messages are parameters, so each
 * scenario is proved for every choice of messages, the documented ones
 * ("failed to d", "an error", ...) included.
 */
module Examples {
  import opened Wrappers
  import opened Multierror

  /**
   * Two phases: three operations that succeed leave the aggregate nil, and
   * each of their appends answers nil; then two failures and one success
   * give a two-error message, and each of those appends answers this same
   * aggregate, the last because an error has already occurred.
   */
  method Phases(d: string, e: string)
    returns (firstAppends: seq<Option<MultiError>>, firstPhase: Option<seq<string>>,
             secondAppends: seq<Option<MultiError>>, secondPhase: Option<seq<string>>, message: string)
    ensures firstAppends == [None, None, None]
    ensures firstPhase == None
    ensures |secondAppends| == 3
    ensures forall i :: 0 <= i < 3 ==> secondAppends[i].Some? && secondAppends[i] == secondAppends[0]
    ensures secondPhase == Some([d, e])
    ensures message == "2 errors: " + d + "; " + e
  {
    var errors := new MultiError([]);
    var a1 := errors.Append(None);
    var a2 := errors.Append(None);
    var a3 := errors.Append(None);
    firstAppends := [a1, a2, a3];
    firstPhase := errors.Err();
    var b1 := errors.Append(Some(d));
    var b2 := errors.Append(Some(e));
    var b3 := errors.Append(None);
    secondAppends := [b1, b2, b3];
    assert errors.errs == [d, e];
    secondPhase := errors.Err();
    message := errors.Error();
    RenderTwo(d, e);
  }

  /**
   * The primary scenario: a new aggregate is nil; appending nil to it answers
   * nil and leaves it nil; appending an error answers non-nil; and the
   * message grows a count once a second error arrives.
   */
  method Primary(m: string) returns (newNil: bool, nilAppend: bool, errAppend: bool, one: string, two: string)
    ensures newNil && nilAppend && errAppend
    ensures one == m
    ensures two == "2 errors: " + m + "; " + m
  {
    var err := new MultiError([]);
    var s0 := err.Err();
    newNil := s0.None?;
    var r1 := err.Append(None);
    var s1 := err.Err();
    nilAppend := r1.None? && s1.None?;
    var r2 := err.Append(Some(m));
    var s2 := err.Err();
    one := err.Error();
    var r3 := err.Append(Some(m));
    errAppend := r2.Some? && s2.Some? && r3.Some?;
    two := err.Error();
    RenderTwo(m, m);
  }

  /** Appending two errors keeps both, in order. */
  method Alternate(a: string, b: string) returns (count: nat, message: string)
    ensures count == 2
    ensures message == "2 errors: " + a + "; " + b
  {
    var err := new MultiError([]);
    var r := err.Append(Some(a));
    r := err.Append(Some(b));
    count := |err.errs|;
    message := err.Error();
    RenderTwo(a, b);
  }

  /** An aggregate converted from an existing list of three errors, and that list read back. */
  method Convert(a: string, b: string, c: string) returns (message: string, errs: seq<string>)
    ensures message == "3 errors: " + a + "; " + b + "; " + c
    ensures errs == [a, b, c]
  {
    var err := new MultiError([a, b, c]);
    message := err.Error();
    errs := err.errs;
    RenderThree(a, b, c);
  }
}
