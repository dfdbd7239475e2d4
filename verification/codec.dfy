/** The wire codec of the storage package: a frame is a 4-byte length
    field holding `size + 1`, one type tag byte, then the `size` bytes of
    the marshalled message. `Encode` writes responses, `Decode` reads
    requests; a type outside either table is fatal. */
module Codec {
  import opened Common
  import opened Rpc

  /** The 4-byte length field (`ByteBuf.WriteInt`): the value modulo 2^32,
      taken here to be written most significant byte first. */
  function WriteInt(n: int): (b: bytes)
    ensures |b| == 4
  {
    var v := n % TwoTo32;
    [(v / 0x100_0000) as byte, ((v / 0x1_0000) % 0x100) as byte,
     ((v / 0x100) % 0x100) as byte, (v % 0x100) as byte]
  }

  /** Reads back a 4-byte length field. */
  function ReadInt(b: bytes): (n: int)
    requires |b| == 4
    ensures 0 <= n < TwoTo32
  {
    b[0] as int * 0x100_0000 + b[1] as int * 0x1_0000 + b[2] as int * 0x100 + b[3] as int
  }

  /** Reading the length field back yields the written value, truncated to
      32 bits as the field can hold no more. */
  lemma ReadWriteInt(n: int)
    ensures ReadInt(WriteInt(n)) == n % TwoTo32
  {
    var v := n % TwoTo32;
    var q1 := v / 0x100;
    var q2 := q1 / 0x100;
    var q3 := q2 / 0x100;
    assert v / 0x1_0000 == q2;
    assert v / 0x100_0000 == q3;
  }

  /** The wire value read as a type, if it names one. */
  function TypeOfCode(b: byte): (t: Option<RpcType>)
    ensures t.Some? ==> Code(t.value) == b
    ensures t.None? <==> b as int >= |AllTypes|
  {
    if b as int < |AllTypes| then
      assert forall i :: 0 <= i < |AllTypes| ==> Code(AllTypes[i]) as int == i;
      Some(AllTypes[b as int])
    else None
  }

  /** The request types `Decode` has a case for. */
  predicate InRequestTable(t: RpcType)
  {
    match t
    case Set => true
    case Get => true
    case Delete => true
    case BMCreate => true
    case BMAdd => true
    case BMRemove => true
    case BMClear => true
    case BMContains => true
    case BMDel => true
    case BMCount => true
    case BMRange => true
    case StartingInstance => true
    case StartedInstance => true
    case CreateInstanceStateShard => true
    case UpdateInstanceStateShard => true
    case RemoveInstanceStateShard => true
    case StepInstanceStateShard => true
    case QueueAdd => true
    case QueueFetch => true
    case _ => false
  }

  /** A response `Encode` is handed: the response type named after an rpc
      type, or a response of some other message type. Its body is the
      marshalled message. */
  datatype Response =
    | Response(rpcType: RpcType, body: bytes)
    | OtherResponse(body: bytes)

  /** The response types `Encode` has a case for. */
  predicate InResponseTable(t: RpcType)
  {
    t in {Set, Get, Delete, BMCreate, BMAdd, BMRemove, BMClear, BMContains, BMDel, BMCount, BMRange,
          StartingInstance, StartedInstance,
          CreateInstanceStateShard, UpdateInstanceStateShard, RemoveInstanceStateShard,
          StepInstanceStateShard, QueueAdd, QueueFetch}
  }

  /** `Encode`'s choice of tag: a response in the table is tagged with the
      type it is named after. */
  function ResponseTag(data: Response): (t: Option<RpcType>)
    ensures t.Some? ==> data.Response? && t.value == data.rpcType
    ensures t.None? <==>
      data.OtherResponse? || data.rpcType == StopInstance || data.rpcType == AllocID || data.rpcType == ResetID
  {
    if data.OtherResponse? then None
    else
      ResponseTableOmits(data.rpcType);
      if InResponseTable(data.rpcType) then Some(data.rpcType) else None
  }

  /** Exactly three request types have no response in the table. */
  lemma ResponseTableOmits(t: RpcType)
    ensures !InResponseTable(t) <==> t == StopInstance || t == AllocID || t == ResetID
  {
  }

  /** A decoded request: a message of the tagged type, to be unmarshalled
      from `body`. */
  datatype Frame = Frame(rpcType: RpcType, body: bytes)

  /** `Decode`'s `(complete, msg, err)` triple. */
  datatype Decoded = Decoded(complete: bool, msg: Option<Frame>, err: Option<string>)

  /** `codec.Decode` on the bytes of one frame after its length field. */
  function Decode(frame: bytes): (r: Exit<Decoded>)
    ensures |frame| == 0 ==> r.Returns? && r.value.complete && r.value.msg.None? && r.value.err.Some?
    ensures |frame| > 0 ==>
      (r.Fatal? <==> !exists t :: Code(t) == frame[0] && InRequestTable(t))
    ensures |frame| > 0 && r.Returns? ==>
      r.value.complete && r.value.err.None? && r.value.msg.Some?
      && Code(r.value.msg.value.rpcType) == frame[0]
      && InRequestTable(r.value.msg.value.rpcType)
      && r.value.msg.value.body == frame[1..]
  {
    if |frame| == 0 then Returns(Decoded(true, None, Some("EOF")))
    else
      var v := frame[0];
      var data := frame[1..];
      match TypeOfCode(v)
      case Some(t) =>
        if InRequestTable(t) then Returns(Decoded(true, Some(Frame(t, data)), None))
        else Fatal("BUG: not support msg type")
      case None => Fatal("BUG: not support msg type")
  }

  /** `codec.Encode`: appends one frame for `data` to `out`. */
  function Encode(data: Response, out: bytes): (r: Exit<bytes>)
    ensures r.Returns? <==> ResponseTag(data).Some?
    ensures r.Returns? ==>
      var n := |out|;
      && |r.value| == n + 5 + |data.body|
      && r.value[..n] == out
      && ReadInt(r.value[n..n + 4]) == (|data.body| + 1) % TwoTo32
      && r.value[n + 4] == Code(data.rpcType)
      && r.value[n + 5..] == data.body
  {
    match ResponseTag(data)
    case None => Fatal("BUG: not support msg type")
    case Some(t) =>
      var size := |data.body|;
      ReadWriteInt(size + 1);
      var header := out + WriteInt(size + 1) + [Code(t)];
      var frame := if size > 0 then header + data.body else header;
      assert frame[|out|..|out| + 4] == WriteInt(size + 1);
      Returns(frame)
  }

  /** An empty body writes the length field (value 1) and the tag, and no
      body bytes. */
  lemma EmptyBodyWritesHeaderOnly(data: Response, out: bytes)
    requires ResponseTag(data).Some? && |data.body| == 0
    ensures Encode(data, out) == Returns(out + WriteInt(1) + [Code(data.rpcType)])
    ensures ReadInt(WriteInt(1)) == 1
  {
    ReadWriteInt(1);
  }

  /** Each response type is tagged with its same-named request type, and
      different response types get different tags. */
  lemma ResponseTagsInjective(a: Response, b: Response)
    requires ResponseTag(a).Some? && ResponseTag(b).Some?
    ensures ResponseTag(a) == Some(a.rpcType)
    ensures Code(ResponseTag(a).value) == Code(ResponseTag(b).value) ==> a.rpcType == b.rpcType
  {
    CodeInjective(a.rpcType, b.rpcType);
  }

  /** The tags `Encode` can emit are exactly the tags `Decode` accepts. */
  lemma EncodeAndDecodeTablesAgree(t: RpcType)
    ensures ResponseTag(Response(t, [])).Some? <==> InRequestTable(t)
    ensures InRequestTable(t) <==> Decode([Code(t)]).Returns?
  {
    assert TypeOfCode(Code(t)) == Some(t);
  }

  /** The number of types in `ts` the decode table accepts. */
  function CountInTable(ts: seq<RpcType>, k: nat): (n: nat)
    requires k <= |ts|
    ensures n <= k
  {
    if k == 0 then 0
    else CountInTable(ts, k - 1) + (if InRequestTable(ts[k - 1]) then 1 else 0)
  }

  lemma CountTypesUpTo6()
    ensures CountInTable(AllTypes, 6) == 4
  {
    assert CountInTable(AllTypes, 1) == 1;
    assert CountInTable(AllTypes, 2) == 2;
    assert CountInTable(AllTypes, 3) == 3;
    assert CountInTable(AllTypes, 4) == 3;
    assert CountInTable(AllTypes, 5) == 3;
  }

  lemma CountTypesUpTo12()
    ensures CountInTable(AllTypes, 12) == 10
  {
    CountTypesUpTo6();
    assert CountInTable(AllTypes, 7) == 5;
    assert CountInTable(AllTypes, 8) == 6;
    assert CountInTable(AllTypes, 9) == 7;
    assert CountInTable(AllTypes, 10) == 8;
    assert CountInTable(AllTypes, 11) == 9;
  }

  lemma CountTypesUpTo18()
    ensures CountInTable(AllTypes, 18) == 15
  {
    CountTypesUpTo12();
    assert CountInTable(AllTypes, 13) == 11;
    assert CountInTable(AllTypes, 14) == 12;
    assert CountInTable(AllTypes, 15) == 13;
    assert CountInTable(AllTypes, 16) == 13;
    assert CountInTable(AllTypes, 17) == 14;
  }

  /** The shared tag set has 19 members: every rpc type except the stop
      instance, id allocation and id reset types. */
  lemma NineteenTags()
    ensures CountInTable(AllTypes, |AllTypes|) == 19
  {
    CountTypesUpTo18();
    assert CountInTable(AllTypes, 19) == 16;
    assert CountInTable(AllTypes, 20) == 17;
    assert CountInTable(AllTypes, 21) == 18;
  }

  /** The types outside the shared table. */
  lemma TypesOutsideTheTables(t: RpcType)
    ensures !InRequestTable(t) <==> t == StopInstance || t == AllocID || t == ResetID
  {
  }

  /** Decoding the bytes after the length field of an encoded frame gives
      back the response's type and exactly its body. */
  lemma FrameRoundTrip(data: Response, out: bytes)
    requires Encode(data, out).Returns?
    ensures
      var frame := Encode(data, out).value;
      Decode(frame[|out| + 4..]) == Returns(Decoded(true, Some(Frame(data.rpcType, data.body)), None))
  {
    var frame := Encode(data, out).value;
    var rest := frame[|out| + 4..];
    assert rest[0] == Code(data.rpcType);
    assert rest[1..] == data.body;
    assert TypeOfCode(Code(data.rpcType)) == Some(data.rpcType);
  }

  /** The length-field framing the codec sits behind: a frame is complete
      once the length field and as many bytes as it announces are present;
      the result is the frame and the bytes after it. This is the framing
      assumed for goetty's `IntLengthFieldBasedDecoder`, which is not part
      of this model: no maximum frame size, no second length field. */
  function SplitFrame(buf: bytes): (r: Option<(bytes, bytes)>)
    ensures r.Some? ==>
      |buf| >= 4 && r.value.0 + r.value.1 == buf[4..] && |r.value.0| == ReadInt(buf[..4])
    ensures r.None? <==> |buf| < 4 || |buf| - 4 < ReadInt(buf[..4])
  {
    if |buf| < 4 then None
    else
      var n := ReadInt(buf[..4]);
      if |buf| - 4 < n then None
      else
        assert buf[4..4 + n] + buf[4 + n..] == buf[4..];
        Some((buf[4..4 + n], buf[4 + n..]))
  }

  /** Whatever follows it, an encoded frame is split off whole (as long as
      its length fits the 32-bit field) and decodes to the response's type
      and body. */
  lemma StreamRoundTrip(data: Response, rest: bytes)
    requires Encode(data, []).Returns? && |data.body| + 1 < TwoTo32
    ensures
      var frame := Encode(data, []).value;
      SplitFrame(frame + rest) == Some((frame[4..], rest))
      && Decode(frame[4..]) == Returns(Decoded(true, Some(Frame(data.rpcType, data.body)), None))
  {
    var frame := Encode(data, []).value;
    var buf := frame + rest;
    assert buf[..4] == frame[0..4];
    assert buf[4..4 + |frame| - 4] == frame[4..];
    assert buf[4 + |frame| - 4..] == rest;
    FrameRoundTrip(data, []);
  }
}
