/** Writing whole frames over a transport that takes a part at a time. */
module Transports {
  import opened FlightTypes

  /** A prefix of the frame went out, and it counts as sent exactly when that is all of it. */
  ghost predicate Carried(before: seq<Byte>, frame: seq<Byte>, after: seq<Byte>, sent: bool) {
    exists n :: 0 <= n <= |frame| && after == before + frame[..n] && (sent <==> n == |frame|)
  }

  /** A frame that was written, and whether all of it got out. */
  datatype Attempt = Attempt(frame: seq<Byte>, sent: bool)

  /** The frames went out one after another. */
  ghost predicate CarriedAll(before: seq<Byte>, attempts: seq<Attempt>, after: seq<Byte>) {
    if attempts == [] then after == before
    else
      var n := |attempts| - 1;
      exists middle: seq<Byte> ::
        CarriedAll(before, attempts[..n], middle) && Carried(middle, attempts[n].frame, after, attempts[n].sent)
  }

  lemma {:induction false} CarriedNext(before: seq<Byte>, attempts: seq<Attempt>, middle: seq<Byte>, a: Attempt,
                                       after: seq<Byte>)
    requires CarriedAll(before, attempts, middle) && Carried(middle, a.frame, after, a.sent)
    ensures CarriedAll(before, attempts + [a], after)
  {
    assert (attempts + [a])[..|attempts|] == attempts;
  }

  lemma {:induction false} CarriedOne(before: seq<Byte>, a: Attempt, after: seq<Byte>)
    requires Carried(before, a.frame, after, a.sent)
    ensures CarriedAll(before, [a], after)
  {
    CarriedNext(before, [], before, a, after);
    assert [] + [a] == [a];
  }

  lemma {:induction false} CarriedConcat(before: seq<Byte>, a: seq<Attempt>, middle: seq<Byte>,
                                      b: seq<Attempt>, after: seq<Byte>)
    requires CarriedAll(before, a, middle) && CarriedAll(middle, b, after)
    ensures CarriedAll(before, a + b, after)
    decreases |b|
  {
    if b == [] {
      assert a + b == a;
    } else {
      var n := |b| - 1;
      var m: seq<Byte> :| CarriedAll(middle, b[..n], m) && Carried(m, b[n].frame, after, b[n].sent);
      CarriedConcat(before, a, middle, b[..n], m);
      CarriedNext(before, a + b[..n], m, b[n], after);
      assert a + b[..n] + [b[n]] == a + b;
    }
  }

  /** The other end decides how much of each write it takes; out of answers, it takes nothing. */
  class Transport {
    var accepts: seq<nat>
    var wire: seq<Byte>

    constructor (accepts: seq<nat>)
      ensures this.accepts == accepts && wire == []
    {
      this.accepts, wire := accepts, [];
    }

    method Write(frame: seq<Byte>) returns (written: nat)
      modifies this
      ensures written <= |frame| && wire == old(wire) + frame[..written]
      ensures written == if old(accepts) == [] then 0
                         else if old(accepts)[0] < |frame| then old(accepts)[0] else |frame|
      ensures accepts == if old(accepts) == [] then [] else old(accepts)[1..]
    {
      if accepts == [] {
        return 0;
      }
      written := if accepts[0] < |frame| then accepts[0] else |frame|;
      accepts := accepts[1..];
      wire := wire + frame[..written];
    }

    method WriteFrame(frame: seq<Byte>) returns (sent: bool)
      modifies this
      ensures Carried(old(wire), frame, wire, sent)
      ensures old(accepts) == [] && frame != [] ==> !sent && wire == old(wire)
      ensures frame != [] && old(accepts) != [] && old(accepts)[0] >= |frame| ==> sent
    {
      var offset := 0;
      while offset < |frame|
        invariant 0 <= offset <= |frame| && wire == old(wire) + frame[..offset]
        invariant offset == 0 ==> accepts == old(accepts)
        invariant old(accepts) != [] && old(accepts)[0] >= |frame| && offset > 0 ==> offset == |frame|
        invariant old(accepts) == [] ==> offset == 0
      {
        var written := Write(frame[offset..]);
        assert frame[..offset] + frame[offset..][..written] == frame[..offset + written];
        if written == 0 {
          return false;
        }
        offset := offset + written;
      }
      return true;
    }
  }
}
