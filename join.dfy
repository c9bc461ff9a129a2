/**
 * Joining messages with a separator, as Go's `strings.Join` does: no
 * separator before the first part and none after the last.
 */
module Strings {

  function Join(parts: seq<string>, sep: string): string
    decreases |parts|
  {
    if |parts| == 0 then ""
    else if |parts| == 1 then parts[0]
    else parts[0] + sep + Join(parts[1..], sep)
  }

  /** Total length of the parts, separators not included. */
  function TotalLength(parts: seq<string>): nat
    decreases |parts|
  {
    if |parts| == 0 then 0 else |parts[0]| + TotalLength(parts[1..])
  }

  /** Where part `i` starts inside `Join(parts, sep)`. */
  function Offset(parts: seq<string>, sep: string, i: nat): nat
    requires i < |parts|
    decreases i
  {
    if i == 0 then 0 else |parts[0]| + |sep| + Offset(parts[1..], sep, i - 1)
  }

  /** The joined string holds each part once and one separator between neighbours. */
  lemma {:induction false} JoinLength(parts: seq<string>, sep: string)
    requires |parts| >= 1
    ensures |Join(parts, sep)| == TotalLength(parts) + (|parts| - 1) * |sep|
    decreases |parts|
  {
    if |parts| > 1 {
      JoinLength(parts[1..], sep);
    }
  }

  /** Part `i` appears verbatim at its offset, in order. */
  lemma {:induction false} JoinPartAt(parts: seq<string>, sep: string, i: nat)
    requires i < |parts|
    ensures Offset(parts, sep, i) + |parts[i]| <= |Join(parts, sep)|
    ensures Join(parts, sep)[Offset(parts, sep, i)..Offset(parts, sep, i) + |parts[i]|] == parts[i]
    decreases |parts|
  {
    if i > 0 {
      var tail := Join(parts[1..], sep);
      JoinPartAt(parts[1..], sep, i - 1);
      var k := |parts[0]| + |sep|;
      var o := Offset(parts[1..], sep, i - 1);
      assert Join(parts, sep) == parts[0] + sep + tail;
      assert (parts[0] + sep + tail)[k + o..k + o + |parts[i]|] == tail[o..o + |parts[i]|];
    } else if |parts| > 1 {
      assert Join(parts, sep) == parts[0] + (sep + Join(parts[1..], sep));
    }
  }

  /** Between part `i` and part `i + 1` stands exactly one separator. */
  lemma {:induction false} JoinSeparatorAt(parts: seq<string>, sep: string, i: nat)
    requires i + 1 < |parts|
    ensures Offset(parts, sep, i + 1) == Offset(parts, sep, i) + |parts[i]| + |sep|
    ensures Offset(parts, sep, i + 1) <= |Join(parts, sep)|
    ensures Join(parts, sep)[Offset(parts, sep, i) + |parts[i]|..Offset(parts, sep, i + 1)] == sep
    decreases |parts|
  {
    if i > 0 {
      var tail := Join(parts[1..], sep);
      JoinSeparatorAt(parts[1..], sep, i - 1);
      var k := |parts[0]| + |sep|;
      var a := Offset(parts[1..], sep, i - 1) + |parts[i]|;
      var b := Offset(parts[1..], sep, i);
      JoinPartAt(parts[1..], sep, i);
      assert Join(parts, sep) == parts[0] + sep + tail;
      assert (parts[0] + sep + tail)[k + a..k + b] == tail[a..b];
    } else {
      JoinPartAt(parts, sep, 1);
      assert Join(parts, sep) == parts[0] + sep + Join(parts[1..], sep);
    }
  }

  /** Joining one more part adds a separator and that part at the end. */
  lemma {:induction false} JoinSnoc(parts: seq<string>, sep: string, x: string)
    requires |parts| >= 1
    ensures Join(parts + [x], sep) == Join(parts, sep) + sep + x
    decreases |parts|
  {
    if |parts| == 1 {
      assert (parts + [x])[1..] == [x];
    } else {
      assert (parts + [x])[1..] == parts[1..] + [x];
      JoinSnoc(parts[1..], sep, x);
    }
  }
}
