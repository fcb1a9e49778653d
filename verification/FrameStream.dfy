/** Payloads on a stream: each is preceded by its length, and the reader takes them off one by
    one until the stream ends. */
module FrameStream {
  import opened Common
  import opened Bytes
  import FrameCodec

  function Frame(payload: seq<Byte>): seq<Byte> {
    Put(4, |payload|) + payload
  }

  function WriteAll(payloads: seq<seq<Byte>>): seq<Byte>
    decreases |payloads|
  {
    if payloads == [] then [] else Frame(payloads[0]) + WriteAll(payloads[1..])
  }

  /** One read: the stream had ended, was cut off or broke the limit, or here is a payload. */
  datatype Read = AtEnd | Broken | Got(payload: seq<Byte>, rest: seq<Byte>)

  function ReadFrame(b: seq<Byte>, max: nat): Read {
    if b == [] then AtEnd
    else if |b| < 4 then Broken
    else
      var len := Get(b[..4]);
      if len > max || |b| < 4 + len then Broken else Got(b[4..4 + len], b[4 + len..])
  }

  /** Every payload up to the end, and whether that was a clean one. */
  function ReadAll(b: seq<Byte>, max: nat): (seq<seq<Byte>>, bool)
    decreases |b|
  {
    match ReadFrame(b, max)
    case AtEnd => ([], true)
    case Broken => ([], false)
    case Got(payload, rest) => var (others, clean) := ReadAll(rest, max); ([payload] + others, clean)
  }

  ghost predicate Within(payloads: seq<seq<Byte>>, max: nat) {
    forall k :: 0 <= k < |payloads| ==> |payloads[k]| <= max
  }

  lemma LengthReturns(payload: seq<Byte>, rest: seq<Byte>)
    requires |payload| < 0x1_0000_0000
    ensures var b := Frame(payload) + rest;
            && |b| >= 4 && Get(b[..4]) == |payload|
            && b[4..] == payload + rest
  {
    Ranges();
    GetPut(4, |payload|);
    var b := Frame(payload) + rest;
    assert b[..4] == Put(4, |payload|) && b[4..] == payload + rest;
  }

  lemma FrameReturns(payload: seq<Byte>, rest: seq<Byte>, max: nat)
    requires |payload| < 0x1_0000_0000
    ensures ReadFrame(Frame(payload) + rest, max) == if |payload| <= max then Got(payload, rest) else Broken
  {
    LengthReturns(payload, rest);
    hide Put, Get, Frame;
    var b := Frame(payload) + rest;
    if |payload| <= max {
      assert b[4..4 + |payload|] == b[4..][..|payload|] == payload;
      assert b[4 + |payload|..] == b[4..][|payload|..] == rest;
    }
  }

  /** A frame cut short is never taken for a whole one. */
  lemma CutFrameBreaks(payload: seq<Byte>, n: nat, max: nat)
    requires |payload| < 0x1_0000_0000 && 0 < n < |Frame(payload)|
    ensures ReadFrame(Frame(payload)[..n], max) == Broken
  {
    LengthReturns(payload, []);
    assert Frame(payload) + [] == Frame(payload);
    if n >= 4 { assert Frame(payload)[..n][..4] == Frame(payload)[..4]; }
  }

  /** Main result: a list of payloads comes back whole just if each keeps to the limit. */
  lemma {:induction false} StreamRoundTripIff(payloads: seq<seq<Byte>>, max: nat)
    requires Within(payloads, 0xFFFF_FFFF)
    ensures ReadAll(WriteAll(payloads), max) == (payloads, true) <==> Within(payloads, max)
    decreases |payloads|
  {
    hide ReadFrame, Frame;
    if payloads == [] {
      NothingToRead(max);
    } else {
      var first, others := payloads[0], payloads[1..];
      assert payloads == [first] + others;
      StreamRoundTripIff(others, max);
      FrameReturns(first, WriteAll(others), max);
      WithinSplits(first, others, max);
      ReadOneMore(WriteAll(payloads), first, WriteAll(others), max);
      if |first| <= max {
        var (read, clean) := ReadAll(WriteAll(others), max);
        assert ([first] + read)[1..] == read && ([first] + others)[1..] == others;
      }
    }
  }

  lemma NothingToRead(max: nat)
    ensures ReadAll([], max) == ([], true)
  {
  }

  lemma WithinSplits(first: seq<Byte>, others: seq<seq<Byte>>, max: nat)
    ensures Within([first] + others, max) <==> |first| <= max && Within(others, max)
  {
    var all := [first] + others;
    if Within(all, max) {
      assert all[0] == first;
      forall k | 0 <= k < |others| ensures |others[k]| <= max { assert all[k + 1] == others[k]; }
    }
  }

  lemma ReadOneMore(b: seq<Byte>, first: seq<Byte>, rest: seq<Byte>, max: nat)
    requires ReadFrame(b, max) == if |first| <= max then Got(first, rest) else Broken
    ensures |first| <= max ==> ReadAll(b, max) == ([first] + ReadAll(rest, max).0, ReadAll(rest, max).1)
    ensures |first| > max ==> ReadAll(b, max) == ([], false)
  {
    hide Get;
  }

  /** Main result: whatever prefix of the bytes arrives, what is read is a prefix of the list.
      The end is a clean one just if the bytes stop between two frames. */
  lemma {:induction false} CutStream(payloads: seq<seq<Byte>>, n: nat, max: nat) returns (k: nat)
    requires Within(payloads, max) && max < 0x1_0000_0000 && n <= |WriteAll(payloads)|
    ensures k <= |payloads| && ReadAll(WriteAll(payloads)[..n], max).0 == payloads[..k]
    ensures |WriteAll(payloads[..k])| <= n
    ensures ReadAll(WriteAll(payloads)[..n], max).1 <==> n == |WriteAll(payloads[..k])|
    decreases |payloads|
  {
    hide ReadFrame;
    NothingToRead(max);
    if payloads == [] || n == 0 {
      k := 0;
      assert WriteAll(payloads)[..0] == [] && WriteAll(payloads[..0]) == [];
    } else {
      var first, others := payloads[0], payloads[1..];
      assert payloads == [first] + others;
      WithinSplits(first, others, max);
      var head, tail := Frame(first), WriteAll(others);
      if n < |head| {
        k := 0;
        assert (head + tail)[..n] == head[..n];
        CutFrameBreaks(first, n, max);
        assert WriteAll(payloads[..0]) == [];
      } else {
        var m := n - |head|;
        var j := CutStream(others, m, max);
        k := j + 1;
        assert (head + tail)[..n] == head + tail[..m];
        FrameReturns(first, tail[..m], max);
        ReadOneMore(head + tail[..m], first, tail[..m], max);
        assert payloads[..k] == [first] + others[..j];
        assert payloads[..k][1..] == others[..j] && payloads[..k][0] == first;
      }
    }
  }

  ghost function EncodeAll(frames: seq<FrameCodec.Frame>): (payloads: seq<seq<Byte>>)
    ensures |payloads| == |frames|
    ensures forall k :: 0 <= k < |frames| ==> payloads[k] == FrameCodec.Encode(frames[k])
  {
    seq(|frames|, k requires 0 <= k < |frames| => FrameCodec.Encode(frames[k]))
  }

  /** Main result: frames within the limits, written to a stream and read from it, come back in
      order and decode to what they were. */
  lemma FramesRoundTrip(frames: seq<FrameCodec.Frame>, lossy: seq<Byte> -> seq<Byte>)
    requires FrameCodec.KeepsText(lossy)
    requires forall k :: 0 <= k < |frames| ==>
               && FrameCodec.Text(frames[k]) && |FrameCodec.Encode(frames[k])| <= MAX_MESSAGE_SIZE
               && (frames[k].Message? ==> FrameCodec.Fits(frames[k].header))
    ensures var (payloads, clean) := ReadAll(WriteAll(EncodeAll(frames)), MAX_MESSAGE_SIZE);
            && clean && |payloads| == |frames|
            && forall k :: 0 <= k < |frames| ==> FrameCodec.Decode(payloads[k], lossy) == Some(frames[k])
  {
    hide FrameCodec.Encode, FrameCodec.Decode, FrameCodec.Fits, FrameCodec.Text, FrameCodec.KeepsText, ReadAll, WriteAll;
    var payloads := EncodeAll(frames);
    StreamRoundTripIff(payloads, MAX_MESSAGE_SIZE);
    forall k | 0 <= k < |frames| ensures FrameCodec.Decode(payloads[k], lossy) == Some(frames[k]) {
      FrameCodec.RoundTripIff(frames[k], lossy);
    }
  }

  // ----- The stream itself -----

  class Stream {
    var data: seq<Byte>
    var pos: nat

    ghost predicate Valid()
      reads this
    {
      pos <= |data|
    }

    /** What is still to be read. */
    ghost function Left(): seq<Byte>
      requires Valid()
      reads this
    {
      data[pos..]
    }

    constructor ()
      ensures Valid() && data == [] && Left() == []
    {
      data, pos := [], 0;
    }

    method WriteFrame(payload: seq<Byte>)
      requires Valid()
      modifies this`data
      ensures Valid() && data == old(data) + Frame(payload) && Left() == old(Left()) + Frame(payload)
    {
      data := data + Put(4, |payload|);
      data := data + payload;
    }

    /** Fills a buffer of `len` bytes, unless the stream ends before. */
    method ReadExact(len: nat) returns (b: Option<seq<Byte>>)
      requires Valid()
      modifies this`pos
      ensures Valid()
      ensures |old(Left())| >= len ==> b == Some(old(Left())[..len]) && Left() == old(Left())[len..]
      ensures |old(Left())| < len ==> b == None
    {
      if |data| - pos < len { return None; }
      assert data[pos..][..len] == data[pos..pos + len] && data[pos..][len..] == data[pos + len..];
      b := Some(data[pos..pos + len]);
      pos := pos + len;
    }

    method ReadNext(max: nat) returns (read: Read)
      requires Valid()
      modifies this`pos
      ensures Valid()
      ensures read == ReadFrame(old(Left()), max)
      ensures read.Got? ==> Left() == read.rest
    {
      ghost var left := Left();
      if pos == |data| { return AtEnd; }
      var first := ReadExact(1);
      var others := ReadExact(3);
      if others.None? { return Broken; }
      assert first.value + others.value == left[..4];
      var len := Get(first.value + others.value);
      if len > max { return Broken; }
      var payload := ReadExact(len);
      if payload.None? { return Broken; }
      assert left[4..][..len] == left[4..4 + len] && left[4..][len..] == left[4 + len..];
      return Got(payload.value, data[pos..]);
    }

    /** Reads until the stream ends, handing on each payload in turn. */
    method ReadMessages(max: nat) returns (delivered: seq<seq<Byte>>, clean: bool)
      requires Valid()
      modifies this`pos
      ensures Valid() && (delivered, clean) == ReadAll(old(Left()), max)
    {
      delivered := [];
      assert [] + ReadAll(Left(), max).0 == ReadAll(Left(), max).0;
      while true
        invariant Valid()
        invariant ReadAll(old(Left()), max) == (delivered + ReadAll(Left(), max).0, ReadAll(Left(), max).1)
        decreases |data| - pos
      {
        ghost var left := Left();
        var read := ReadNext(max);
        match read {
          case AtEnd =>
            assert delivered + [] == delivered;
            return delivered, true;
          case Broken =>
            assert delivered + [] == delivered;
            return delivered, false;
          case Got(payload, rest) =>
            assert delivered + ([payload] + ReadAll(rest, max).0) == delivered + [payload] + ReadAll(rest, max).0;
            delivered := delivered + [payload];
        }
      }
    }
  }
}
