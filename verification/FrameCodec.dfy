/** How messages between actors and their replies are laid out in bytes. */
module FrameCodec {
  import opened Common
  import opened Bytes

  const KIND_MESSAGE: Byte := 1
  const KIND_REPLY: Byte := 2
  const CAST: Byte := 0
  const CALL: Byte := 1
  const OK: Byte := 0
  const ERR: Byte := 1

  datatype RemoteError =
    | UnknownMessage | NoSuchActor | NotAccepted | Closed | Overloaded | NoReply
    | DecodeError(reason: seq<Byte>) | EncodeError(reason: seq<Byte>) | TooLarge | Unknown

  /** What comes before the payload of a message. */
  datatype Header = Header(callId: Option<U64>, target: seq<Byte>, msg: U128, requests: seq<U64>)

  datatype Answer = Value(payload: seq<Byte>) | Error(error: RemoteError)

  datatype Frame = Message(header: Header, payload: seq<Byte>) | Reply(callId: U64, answer: Answer)

  predicate Trail(b: Byte) { 0x80 <= b <= 0xBF }

  /** Well-formed UTF-8, as table 3-7 of the Unicode standard has it. */
  predicate Utf8(b: seq<Byte>)
    decreases |b|
  {
    || b == []
    || (b[0] <= 0x7F && Utf8(b[1..]))
    || (|b| >= 2 && 0xC2 <= b[0] <= 0xDF && Trail(b[1]) && Utf8(b[2..]))
    || (|b| >= 3 && Lead3(b[0], b[1]) && Trail(b[2]) && Utf8(b[3..]))
    || (|b| >= 4 && Lead4(b[0], b[1]) && Trail(b[2]) && Trail(b[3]) && Utf8(b[4..]))
  }

  predicate Lead3(b0: Byte, b1: Byte) {
    || (b0 == 0xE0 && 0xA0 <= b1 <= 0xBF)
    || ((0xE1 <= b0 <= 0xEC || 0xEE <= b0 <= 0xEF) && Trail(b1))
    || (b0 == 0xED && 0x80 <= b1 <= 0x9F)
  }

  predicate Lead4(b0: Byte, b1: Byte) {
    || (b0 == 0xF0 && 0x90 <= b1 <= 0xBF)
    || (0xF1 <= b0 <= 0xF3 && Trail(b1))
    || (b0 == 0xF4 && 0x80 <= b1 <= 0x8F)
  }

  // ----- The pieces of a header -----

  function PutCallId(callId: Option<U64>): seq<Byte> {
    match callId
    case Some(id) => [CALL] + Put(8, id)
    case None => [CAST]
  }

  function GetCallId(b: seq<Byte>): Option<(Option<U64>, seq<Byte>)> {
    if b == [] then None
    else if b[0] == CAST then Some((None, b[1..]))
    else if b[0] == CALL then
      Ranges();
      match Take(b[1..], 8)
      case Some((id, rest)) => Some((Some(id), rest))
      case None => None
    else None
  }

  function PutRequests(requests: seq<U64>): seq<Byte> {
    if requests == [] then [] else Put(8, requests[0]) + PutRequests(requests[1..])
  }

  function GetRequests(b: seq<Byte>, count: nat): Option<(seq<U64>, seq<Byte>)> {
    if count == 0 then Some(([], b))
    else
      Ranges();
      match Take(b, 8)
      case None => None
      case Some((first, rest)) =>
        match GetRequests(rest, count - 1)
        case None => None
        case Some((others, rest')) => Some(([first] + others, rest'))
  }

  /** The name, cut off to what its length says. */
  function PutName(name: seq<Byte>): seq<Byte> {
    Put(2, |name|) + name
  }

  function GetName(b: seq<Byte>): Option<(seq<Byte>, seq<Byte>)> {
    match Take(b, 2)
    case None => None
    case Some((len, rest)) =>
      if |rest| < len || !Utf8(rest[..len]) then None else Some((rest[..len], rest[len..]))
  }

  function PutTail(msg: U128, requests: seq<U64>): seq<Byte> {
    Put(16, msg) + (Put(2, |requests|) + PutRequests(requests))
  }

  function GetTail(b: seq<Byte>): Option<(U128, seq<U64>, seq<Byte>)> {
    Ranges();
    match Take(b, 16)
    case None => None
    case Some((msg, rest)) =>
      match Take(rest, 2)
      case None => None
      case Some((count, rest')) =>
        match GetRequests(rest', count)
        case None => None
        case Some((requests, payload)) => Some((msg, requests, payload))
  }

  function PutHeader(h: Header): seq<Byte> {
    PutCallId(h.callId) + (PutName(h.target) + PutTail(h.msg, h.requests))
  }

  function GetHeader(b: seq<Byte>): Option<(Header, seq<Byte>)> {
    match GetCallId(b)
    case None => None
    case Some((callId, rest)) =>
      match GetName(rest)
      case None => None
      case Some((target, rest')) =>
        match GetTail(rest')
        case None => None
        case Some((msg, requests, payload)) => Some((Header(callId, target, msg, requests), payload))
  }

  function PutError(e: RemoteError): seq<Byte> {
    match e
    case UnknownMessage => [1]
    case NoSuchActor => [2]
    case NotAccepted => [3]
    case Closed => [4]
    case Overloaded => [5]
    case NoReply => [6]
    case DecodeError(reason) => [7] + reason
    case EncodeError(reason) => [8] + reason
    case TooLarge => [9]
    case Unknown => [0]
  }

  /** `lossy` is what becomes of a reason when its malformed parts are replaced. */
  function GetError(b: seq<Byte>, lossy: seq<Byte> -> seq<Byte>): Option<RemoteError> {
    if b == [] then None
    else Some(match b[0]
              case 1 => UnknownMessage
              case 2 => NoSuchActor
              case 3 => NotAccepted
              case 4 => Closed
              case 5 => Overloaded
              case 6 => NoReply
              case 7 => DecodeError(lossy(b[1..]))
              case 8 => EncodeError(lossy(b[1..]))
              case 9 => TooLarge
              case _ => Unknown)
  }

  function Encode(f: Frame): seq<Byte> {
    match f
    case Message(header, payload) => [KIND_MESSAGE] + (PutHeader(header) + payload)
    case Reply(callId, Value(payload)) => [KIND_REPLY] + (Put(8, callId) + ([OK] + payload))
    case Reply(callId, Error(error)) => [KIND_REPLY] + (Put(8, callId) + ([ERR] + PutError(error)))
  }

  function Decode(b: seq<Byte>, lossy: seq<Byte> -> seq<Byte>): Option<Frame> {
    if b == [] then None
    else if b[0] == KIND_MESSAGE then
      match GetHeader(b[1..])
      case None => None
      case Some((header, payload)) => Some(Message(header, payload))
    else if b[0] == KIND_REPLY then
      Ranges();
      match Take(b[1..], 8)
      case None => None
      case Some((callId, rest)) => GetReply(callId, rest, lossy)
    else None
  }

  function GetReply(callId: U64, b: seq<Byte>, lossy: seq<Byte> -> seq<Byte>): Option<Frame> {
    if b == [] then None
    else if b[0] == OK then Some(Reply(callId, Value(b[1..])))
    else if b[0] == ERR then
      match GetError(b[1..], lossy)
      case None => None
      case Some(error) => Some(Reply(callId, Error(error)))
    else None
  }

  // ----- The bytes on the wire -----

  /** The byte each error is sent as, and the reason that follows it. */
  function ErrorCode(e: RemoteError): Byte {
    match e
    case Unknown => 0
    case UnknownMessage => 1
    case NoSuchActor => 2
    case NotAccepted => 3
    case Closed => 4
    case Overloaded => 5
    case NoReply => 6
    case DecodeError(_) => 7
    case EncodeError(_) => 8
    case TooLarge => 9
  }

  /** A frame begins with what it is: 1 and whether it is a call, or 2, the call's id and whether
      it failed; a failure goes on with the byte of its error. */
  lemma FrameBegins(f: Frame)
    ensures match f
            case Message(h, _) => Encode(f)[..2] == [1, if h.callId.Some? then 1 else 0]
            case Reply(id, Value(payload)) => Encode(f) == [2] + Put(8, id) + [0] + payload
            case Reply(id, Error(e)) =>
              && |Put(8, id)| == 8 && |Encode(f)| >= 11
              && Encode(f)[..9] == [2] + Put(8, id) && Encode(f)[9] == 1 && Encode(f)[10] == ErrorCode(e)
  {
    PutLength(f);
    hide Put, Take;
  }

  lemma PutLength(f: Frame)
    ensures f.Reply? ==> |Put(8, f.callId)| == 8
  {
  }

  /** A code not known decodes to an unknown error, and only such a code or its own does. */
  lemma UnknownCodes(b: seq<Byte>, lossy: seq<Byte> -> seq<Byte>)
    requires b != []
    ensures GetError(b, lossy).Some?
    ensures GetError(b, lossy).value == Unknown <==> b[0] == 0 || b[0] > 9
    ensures b[0] <= 9 ==> ErrorCode(GetError(b, lossy).value) == b[0]
  {
  }

  // ----- Round trips -----

  /** Names and reasons are text, and text that is well formed is left alone. */
  ghost predicate Text(f: Frame) {
    match f
    case Message(header, _) => Utf8(header.target)
    case Reply(_, Error(DecodeError(reason))) => Utf8(reason)
    case Reply(_, Error(EncodeError(reason))) => Utf8(reason)
    case _ => true
  }

  ghost predicate KeepsText(lossy: seq<Byte> -> seq<Byte>) {
    forall b :: Utf8(b) ==> lossy(b) == b
  }

  /** The lengths that are sent in two bytes fit in them. */
  predicate Fits(h: Header) {
    |h.target| < 0x1_0000 && |h.requests| < 0x1_0000
  }

  lemma CallIdReturns(callId: Option<U64>, rest: seq<Byte>)
    ensures GetCallId(PutCallId(callId) + rest) == Some((callId, rest))
  {
    hide Put, Take;
    Ranges();
    match callId {
      case Some(id) =>
        TakePut(8, id, rest);
        assert (PutCallId(callId) + rest)[1..] == Put(8, id) + rest;
      case None =>
        assert (PutCallId(callId) + rest)[1..] == rest;
    }
  }

  lemma CallIdExact(b: seq<Byte>)
    requires GetCallId(b).Some?
    ensures PutCallId(GetCallId(b).value.0) + GetCallId(b).value.1 == b
  {
    hide Put, Take;
    assert b == [b[0]] + b[1..];
    if b[0] == CALL {
      PutTaken(b[1..], 8);
      var (id, rest) := Take(b[1..], 8).value;
      assert [CALL] + Put(8, id) + rest == [CALL] + (Put(8, id) + rest);
    }
  }

  lemma {:induction false} RequestsReturn(requests: seq<U64>, rest: seq<Byte>)
    ensures GetRequests(PutRequests(requests) + rest, |requests|) == Some((requests, rest))
  {
    hide Put, Take;
    if requests == [] {
      assert PutRequests(requests) + rest == rest;
    } else {
      Ranges();
      var others := PutRequests(requests[1..]);
      assert PutRequests(requests) + rest == Put(8, requests[0]) + (others + rest);
      TakePut(8, requests[0], others + rest);
      RequestsReturn(requests[1..], rest);
      assert requests == [requests[0]] + requests[1..];
    }
  }

  lemma {:induction false} RequestsExact(b: seq<Byte>, count: nat)
    requires GetRequests(b, count).Some?
    ensures var (requests, rest) := GetRequests(b, count).value;
            |requests| == count && PutRequests(requests) + rest == b
    decreases count
  {
    hide Put, Take;
    if count == 0 {
      assert [] + b == b;
    } else {
      PutTaken(b, 8);
      var (first, rest) := Take(b, 8).value;
      RequestsExact(rest, count - 1);
      var (others, rest') := GetRequests(rest, count - 1).value;
      assert ([first] + others)[1..] == others;
      assert Put(8, first) + (PutRequests(others) + rest') == Put(8, first) + PutRequests(others) + rest';
    }
  }

  lemma NameReturns(name: seq<Byte>, rest: seq<Byte>)
    requires |name| < 0x1_0000 && Utf8(name)
    ensures GetName(PutName(name) + rest) == Some((name, rest))
  {
    hide Put, Take, Utf8;
    Ranges();
    TakePut(2, |name|, name + rest);
    assert PutName(name) + rest == Put(2, |name|) + (name + rest);
    assert (name + rest)[..|name|] == name && (name + rest)[|name|..] == rest;
  }

  lemma NameExact(b: seq<Byte>)
    requires GetName(b).Some?
    ensures var (name, rest) := GetName(b).value;
            |name| < 0x1_0000 && Utf8(name) && PutName(name) + rest == b
  {
    hide Put, Take, Utf8;
    Ranges();
    PutTaken(b, 2);
    var (len, rest) := Take(b, 2).value;
    assert Put(2, len) + (rest[..len] + rest[len..]) == Put(2, len) + rest[..len] + rest[len..];
    assert rest == rest[..len] + rest[len..];
  }

  lemma TailReturns(msg: U128, requests: seq<U64>, rest: seq<Byte>)
    requires |requests| < 0x1_0000
    ensures GetTail(PutTail(msg, requests) + rest) == Some((msg, requests, rest))
  {
    hide Put, Take, PutRequests, GetRequests;
    Ranges();
    var body := PutRequests(requests);
    TakePut(16, msg, Put(2, |requests|) + (body + rest));
    TakePut(2, |requests|, body + rest);
    RequestsReturn(requests, rest);
    assert PutTail(msg, requests) + rest == Put(16, msg) + (Put(2, |requests|) + (body + rest));
  }

  lemma TailExact(b: seq<Byte>)
    requires GetTail(b).Some?
    ensures var (msg, requests, rest) := GetTail(b).value;
            |requests| < 0x1_0000 && PutTail(msg, requests) + rest == b
  {
    hide Put, Take, PutRequests, GetRequests;
    Ranges();
    PutTaken(b, 16);
    var (msg, rest) := Take(b, 16).value;
    PutTaken(rest, 2);
    var (count, rest') := Take(rest, 2).value;
    RequestsExact(rest', count);
    var (requests, payload) := GetRequests(rest', count).value;
    assert PutTail(msg, requests) + payload
           == Put(16, msg) + (Put(2, count) + (PutRequests(requests) + payload));
  }

  lemma HeaderReturns(h: Header, payload: seq<Byte>)
    requires Fits(h) && Utf8(h.target)
    ensures GetHeader(PutHeader(h) + payload) == Some((h, payload))
  {
    hide PutCallId, PutName, PutTail, GetCallId, GetName, GetTail, Utf8;
    var name, tail := PutName(h.target), PutTail(h.msg, h.requests);
    CallIdReturns(h.callId, name + (tail + payload));
    NameReturns(h.target, tail + payload);
    TailReturns(h.msg, h.requests, payload);
    assert PutHeader(h) + payload == PutCallId(h.callId) + (name + (tail + payload));
  }

  lemma HeaderExact(b: seq<Byte>)
    requires GetHeader(b).Some?
    ensures var (h, payload) := GetHeader(b).value;
            Fits(h) && Utf8(h.target) && PutHeader(h) + payload == b
  {
    hide PutCallId, PutName, PutTail, GetCallId, GetName, GetTail, Utf8;
    CallIdExact(b);
    var (callId, rest) := GetCallId(b).value;
    NameExact(rest);
    var (target, rest') := GetName(rest).value;
    TailExact(rest');
    var (msg, requests, payload) := GetTail(rest').value;
    assert PutHeader(Header(callId, target, msg, requests)) + payload
           == PutCallId(callId) + (PutName(target) + (PutTail(msg, requests) + payload));
  }

  /** Main result: a frame survives encoding and decoding just if the lengths it sends in two
      bytes fit in them. */
  lemma RoundTripIff(f: Frame, lossy: seq<Byte> -> seq<Byte>)
    requires Text(f) && KeepsText(lossy)
    ensures Decode(Encode(f), lossy) == Some(f) <==> (f.Message? ==> Fits(f.header))
  {
    hide PutHeader, GetHeader, Put, Take, Utf8, PutError, GetError;
    match f {
      case Message(header, payload) =>
        assert Encode(f)[1..] == PutHeader(header) + payload;
        if Fits(header) {
          HeaderReturns(header, payload);
        } else if GetHeader(Encode(f)[1..]).Some? {
          HeaderExact(Encode(f)[1..]);
        }
      case Reply(callId, answer) => ReplyReturns(callId, answer, lossy);
    }
  }

  lemma ReplyReturns(callId: U64, answer: Answer, lossy: seq<Byte> -> seq<Byte>)
    requires Text(Reply(callId, answer)) && KeepsText(lossy)
    ensures Decode(Encode(Reply(callId, answer)), lossy) == Some(Reply(callId, answer))
  {
    hide Put, Take, Utf8, GetHeader;
    Ranges();
    var body := match answer case Value(payload) => [OK] + payload case Error(error) => [ERR] + PutError(error);
    TakePut(8, callId, body);
    var b := Encode(Reply(callId, answer));
    assert b[1..] == Put(8, callId) + body;
    match answer {
      case Value(payload) => assert body[1..] == payload;
      case Error(error) =>
        assert body[1..] == PutError(error);
        assert PutError(error) == [PutError(error)[0]] + PutError(error)[1..];
        match error {
          case DecodeError(reason) => assert PutError(error)[1..] == reason;
          case EncodeError(reason) => assert PutError(error)[1..] == reason;
          case _ =>
        }
    }
  }

  /** Main result: bytes that decode to a message, or to a reply that is no error, are the only
      ones that do. */
  lemma DecodedExactly(b: seq<Byte>, lossy: seq<Byte> -> seq<Byte>)
    requires Decode(b, lossy).Some?
    requires Decode(b, lossy).value.Message? || Decode(b, lossy).value.answer.Value?
    ensures Encode(Decode(b, lossy).value) == b
  {
    hide PutHeader, GetHeader, Put, Take, Utf8, PutError, GetError;
    assert b == [b[0]] + b[1..];
    if b[0] == KIND_MESSAGE {
      HeaderExact(b[1..]);
    } else {
      PutTaken(b[1..], 8);
      var (callId, rest) := Take(b[1..], 8).value;
      assert rest == [rest[0]] + rest[1..];
    }
  }

  /** Main result: a message cut inside its header never decodes. */
  lemma CutHeaderNeverDecodes(h: Header, payload: seq<Byte>, n: nat, lossy: seq<Byte> -> seq<Byte>)
    requires Fits(h) && Utf8(h.target) && n < 1 + |PutHeader(h)|
    ensures Decode(Encode(Message(h, payload))[..n], lossy) == None
  {
    hide PutHeader, GetHeader, Utf8, Fits;
    var whole := PutHeader(h) + payload;
    assert Encode(Message(h, payload)) == [KIND_MESSAGE] + whole;
    if n > 0 {
      var b := whole[..n - 1];
      assert Encode(Message(h, payload))[..n] == [KIND_MESSAGE] + b;
      assert ([KIND_MESSAGE] + b)[1..] == b;
      if GetHeader(b).Some? {
        HeaderExact(b);
        var (h', payload') := GetHeader(b).value;
        var rest := whole[n - 1..];
        assert whole == b + rest;
        assert PutHeader(h') + payload' + rest == PutHeader(h') + (payload' + rest);
        HeaderReturns(h', payload' + rest);
        HeaderReturns(h, payload);
      }
    }
  }

  /** A reply cut before its answer begins never decodes, and neither does an error cut off
      before the byte that names it. */
  lemma CutReplyNeverDecodes(callId: U64, answer: Answer, n: nat, lossy: seq<Byte> -> seq<Byte>)
    requires n < 10 || (n == 10 && answer.Error?)
    requires n <= |Encode(Reply(callId, answer))|
    ensures Decode(Encode(Reply(callId, answer))[..n], lossy) == None
  {
    hide Put, Get, Range, Utf8, GetHeader, GetError;
    var b := Encode(Reply(callId, answer));
    if 9 <= n {
      assert b[..n][1..][8..] == b[9..n];
      if n == 10 { assert b[9] == ERR && b[9..n][1..] == []; }
    }
    EmptyIsNoError(lossy);
  }

  lemma EmptyIsNoError(lossy: seq<Byte> -> seq<Byte>)
    ensures GetError([], lossy) == None
  {
  }

  // ----- The loops over requests -----

  lemma PutRequestsPush(requests: seq<U64>, last: U64)
    ensures PutRequests(requests + [last]) == PutRequests(requests) + Put(8, last)
    decreases |requests|
  {
    hide Put;
    if requests == [] {
      assert [last][1..] == [];
      assert PutRequests([]) == [];
      assert [] + [last] == [last];
    } else {
      assert (requests + [last])[1..] == requests[1..] + [last];
      PutRequestsPush(requests[1..], last);
    }
  }

  /** Writes the requests one after the other. */
  method WriteRequests(requests: seq<U64>) returns (buf: seq<Byte>)
    ensures buf == PutRequests(requests)
  {
    buf := [];
    for k := 0 to |requests|
      invariant buf == PutRequests(requests[..k])
    {
      assert requests[..k + 1] == requests[..k] + [requests[k]];
      PutRequestsPush(requests[..k], requests[k]);
      buf := buf + Put(8, requests[k]);
    }
    assert requests[..|requests|] == requests;
  }

  /** Reads `count` requests off the front of `b`, if that many bytes are there. */
  method ReadRequests(b: seq<Byte>, count: nat) returns (read: Option<(seq<U64>, seq<Byte>)>)
    ensures read == GetRequests(b, count)
    ensures read.Some? <==> |b| >= count * 8
  {
    EnoughForRequests(b, count);
    if |b| < count * 8 { return None; }
    Ranges();
    var requests, rest := [], b;
    assert [] + GetRequests(b, count).value.0 == GetRequests(b, count).value.0;
    for k := 0 to count
      invariant |rest| == |b| - k * 8 && |requests| == k
      invariant GetRequests(rest, count - k).Some?
      invariant GetRequests(b, count)
             == Some((requests + GetRequests(rest, count - k).value.0, GetRequests(rest, count - k).value.1))
    {
      var taken := Take(rest, 8).value;
      assert requests + ([taken.0] + GetRequests(taken.1, count - k - 1).value.0)
             == requests + [taken.0] + GetRequests(taken.1, count - k - 1).value.0;
      requests := requests + [taken.0];
      rest := taken.1;
    }
    assert requests + [] == requests;
    return Some((requests, rest));
  }

  lemma {:induction false} EnoughForRequests(b: seq<Byte>, count: nat)
    ensures GetRequests(b, count).Some? <==> |b| >= count * 8
    decreases count
  {
    hide Get, Range;
    if count > 0 && |b| >= 8 { EnoughForRequests(b[8..], count - 1); }
  }
}
