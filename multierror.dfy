/**
 * The aggregate error of the multierror package: an ordered sequence of
 * errors, each identified by its message, that renders as one message.
 */
module Multierror {
  import opened Wrappers
  import opened Decimal
  import opened Strings

  /** The separator placed between messages when two or more are rendered. */
  const Separator: string := "; "

  /** The text between the count and the first message. */
  const CountSuffix: string := " errors: "

  /**
   * The message of an aggregate holding `msgs`: nothing for no error, the one
   * message unchanged for one error, otherwise the count, " errors: " and the
   * messages in order, separated by "; ".
   */
  function Render(msgs: seq<string>): string
  {
    if |msgs| == 0 then ""
    else if |msgs| == 1 then msgs[0]
    else FormatDecimal(|msgs|) + CountSuffix + Join(msgs, Separator)
  }

  /** The state after incorporating one incoming error; `None` is Go's nil and changes nothing. */
  function Step(s: seq<string>, err: Option<string>): seq<string>
  {
    match err
    case None => s
    case Some(m) => s + [m]
  }

  /** The state after incorporating each incoming error in turn. */
  function Steps(s: seq<string>, incoming: seq<Option<string>>): seq<string>
    decreases |incoming|
  {
    if |incoming| == 0 then s else Steps(Step(s, incoming[0]), incoming[1..])
  }

  /** The messages of the non-nil incoming errors, in arrival order. */
  function Present(incoming: seq<Option<string>>): seq<string>
    decreases |incoming|
  {
    if |incoming| == 0 then []
    else (if incoming[0].Some? then [incoming[0].value] else []) + Present(incoming[1..])
  }

  // ----- properties of the rendering -----

  /** An aggregate with no errors renders as the empty string. */
  lemma RenderEmpty()
    ensures Render([]) == ""
  {
  }

  /** A single error renders exactly as that error's message. */
  lemma RenderSingle(m: string)
    ensures Render([m]) == m
  {
  }

  /** Two errors render as "2 errors: " and both messages, separated by "; ". */
  lemma RenderTwo(a: string, b: string)
    ensures Render([a, b]) == "2 errors: " + a + "; " + b
  {
    var prefix := FormatDecimal(2) + CountSuffix;
    assert prefix == "2 errors: " by {
      assert FormatDecimal(2) == "2";
    }
    var j := Join([a, b], Separator);
    assert [a, b][1..] == [b];
    assert Join([b], Separator) == b;
    assert j == a + Separator + b;
    assert Render([a, b]) == prefix + j;
  }

  /** Three errors render as "3 errors: " and the three messages, separated by "; ". */
  lemma RenderThree(a: string, b: string, c: string)
    ensures Render([a, b, c]) == "3 errors: " + a + "; " + b + "; " + c
  {
    var prefix := FormatDecimal(3) + CountSuffix;
    assert prefix == "3 errors: " by {
      assert FormatDecimal(3) == "3";
    }
    RenderTwo(a, b);
    RenderSnoc([a, b], c);
    assert [a, b] + [c] == [a, b, c];
    assert Join([a, b], Separator) == a + Separator + b;
    assert Render([a, b, c]) == prefix + (a + Separator + b) + Separator + c;
  }

  /** The rendering is empty only when there is nothing to say. */
  lemma RenderEmptyIff(msgs: seq<string>)
    ensures Render(msgs) == "" <==> |msgs| == 0 || (|msgs| == 1 && msgs[0] == "")
  {
  }

  /** With two or more errors, the rendering starts with the count, which can be read back. */
  lemma RenderCount(msgs: seq<string>)
    requires |msgs| >= 2
    ensures LeadingDigits(Render(msgs)) == FormatDecimal(|msgs|)
    ensures ParseDecimal(LeadingDigits(Render(msgs))) == |msgs|
    ensures Render(msgs)[|FormatDecimal(|msgs|)|..|FormatDecimal(|msgs|)| + |CountSuffix|] == CountSuffix
  {
    var d := FormatDecimal(|msgs|);
    var rest := CountSuffix + Join(msgs, Separator);
    assert Render(msgs) == d + rest;
    LeadingDigitsOf(d, rest);
    ParseFormat(|msgs|);
  }

  /** Where message `i` starts inside the rendering of two or more errors. */
  function MessageStart(msgs: seq<string>, i: nat): nat
    requires i < |msgs|
  {
    |FormatDecimal(|msgs|)| + |CountSuffix| + Offset(msgs, Separator, i)
  }

  /** With two or more errors, each message appears verbatim, in insertion order. */
  lemma RenderMessageAt(msgs: seq<string>, i: nat)
    requires |msgs| >= 2 && i < |msgs|
    ensures MessageStart(msgs, i) + |msgs[i]| <= |Render(msgs)|
    ensures Render(msgs)[MessageStart(msgs, i)..MessageStart(msgs, i) + |msgs[i]|] == msgs[i]
    ensures i + 1 < |msgs| ==> MessageStart(msgs, i + 1) == MessageStart(msgs, i) + |msgs[i]| + |Separator|
    ensures i + 1 < |msgs| ==> MessageStart(msgs, i + 1) <= |Render(msgs)|
    ensures i + 1 < |msgs| ==>
      Render(msgs)[MessageStart(msgs, i) + |msgs[i]|..MessageStart(msgs, i + 1)] == Separator
  {
    var p := FormatDecimal(|msgs|) + CountSuffix;
    var j := Join(msgs, Separator);
    JoinPartAt(msgs, Separator, i);
    var o := Offset(msgs, Separator, i);
    assert Render(msgs) == p + j;
    assert (p + j)[|p| + o..|p| + o + |msgs[i]|] == j[o..o + |msgs[i]|];
    if i + 1 < |msgs| {
      JoinSeparatorAt(msgs, Separator, i);
      var o' := Offset(msgs, Separator, i + 1);
      assert (p + j)[|p| + o + |msgs[i]|..|p| + o'] == j[o + |msgs[i]|..o'];
    }
  }

  /** With two or more errors, the rendering has no trailing separator and a fixed length. */
  lemma RenderLength(msgs: seq<string>)
    requires |msgs| >= 2
    ensures |Render(msgs)|
         == |FormatDecimal(|msgs|)| + |CountSuffix| + TotalLength(msgs) + (|msgs| - 1) * |Separator|
  {
    JoinLength(msgs, Separator);
  }

  /** Rendering after one more error: the count is bumped and "; " plus the new message is added. */
  lemma RenderSnoc(msgs: seq<string>, x: string)
    requires |msgs| >= 1
    ensures Render(msgs + [x])
         == FormatDecimal(|msgs| + 1) + CountSuffix + (Join(msgs, Separator) + Separator + x)
  {
    var m := msgs + [x];
    var d := FormatDecimal(|m|);
    var j := Join(msgs, Separator);
    JoinSnoc(msgs, Separator, x);
    assert Render(m) == d + CountSuffix + (j + Separator + x);
  }

  // ----- properties of incorporation -----

  /**
   * A nil error changes nothing; a non-nil one grows the sequence by exactly
   * one, keeps every earlier entry in place and puts its message last.
   */
  lemma StepShape(s: seq<string>, err: Option<string>)
    ensures err.None? ==> Step(s, err) == s
    ensures err.Some? ==> |Step(s, err)| == |s| + 1 && Step(s, err)[..|s|] == s
    ensures err.Some? ==> Step(s, err)[|s|] == err.value
    ensures forall i :: 0 <= i < |s| ==> Step(s, err)[i] == s[i]
  {
  }

  /** Incorporating a sequence of errors keeps the earlier ones and adds the non-nil ones in order. */
  lemma {:induction false} StepsAppendsPresent(s: seq<string>, incoming: seq<Option<string>>)
    ensures Steps(s, incoming) == s + Present(incoming)
    decreases |incoming|
  {
    if |incoming| > 0 {
      StepsAppendsPresent(Step(s, incoming[0]), incoming[1..]);
    }
  }

  /** Nothing is collected exactly when every incoming error is nil. */
  lemma {:induction false} PresentEmptyIff(incoming: seq<Option<string>>)
    ensures Present(incoming) == [] <==> forall i :: 0 <= i < |incoming| ==> incoming[i].None?
    decreases |incoming|
  {
    if |incoming| > 0 {
      PresentEmptyIff(incoming[1..]);
      assert forall i :: 1 <= i < |incoming| ==> incoming[i] == incoming[1..][i - 1];
    }
  }

  /** From empty, only nil errors leave the aggregate empty: it stays nil and renders as "". */
  lemma StepsFromEmpty(incoming: seq<Option<string>>)
    ensures Steps([], incoming) == [] <==> forall i :: 0 <= i < |incoming| ==> incoming[i].None?
    ensures (forall i :: 0 <= i < |incoming| ==> incoming[i].None?) ==> Render(Steps([], incoming)) == ""
  {
    StepsAppendsPresent([], incoming);
    PresentEmptyIff(incoming);
  }

  // ----- the aggregate itself -----

  /** An aggregate error, updated in place through `Append` as Go's `*MultiError` is. */
  class MultiError {
    /** The messages of the collected errors, in insertion order. */
    var errs: seq<string>

    /** A `MultiError` literal, or a conversion of an existing error slice. */
    constructor (initial: seq<string>)
      ensures errs == initial
    {
      errs := initial;
    }

    /** The aggregate as an error value: nil exactly when it holds no error. */
    function Err(): (r: Option<seq<string>>)
      reads this
      ensures r.None? <==> |errs| == 0
      ensures r.Some? ==> r.value == errs
    {
      if |errs| == 0 then None else Some(errs)
    }

    /**
     * Adds a non-nil error at the end and ignores a nil one. The result is
     * nil only when nothing was ever collected; otherwise it is this aggregate.
     */
    method Append(err: Option<string>) returns (r: Option<MultiError>)
      modifies this
      ensures errs == Step(old(errs), err)
      ensures r.None? <==> err.None? && |old(errs)| == 0
      ensures r.None? <==> |errs| == 0
      ensures r.Some? ==> r.value == this
    {
      match err {
        case None =>
          if |errs| == 0 {
            return None;
          }
          return Some(this);
        case Some(m) =>
          errs := errs + [m];
          return Some(this);
      }
    }

    /** The aggregated message: collects each message in a loop, then joins them. */
    method Error() returns (s: string)
      ensures s == Render(errs)
    {
      if |errs| == 0 {
        return "";
      }
      if |errs| == 1 {
        return errs[0];
      }
      var parts: seq<string> := [];
      for i := 0 to |errs|
        invariant parts == errs[..i]
      {
        parts := parts + [errs[i]];
      }
      assert parts == errs;
      s := FormatDecimal(|errs|) + CountSuffix + Join(parts, Separator);
    }
  }
}
