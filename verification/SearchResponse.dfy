/** A search response as it arrives: a zlib stream in the rest of a message, parsed by loops over a cursor. */
module SearchResponse {
  import opened BitStream
  import opened InflateSpec
  import opened Messages
  import opened SearchSpec
  import opened Wire
  import Zlib
  import opened ZlibRoundTrip

  // What parsing makes of a message whose cursor is at p. A cursor beyond the data aborts the slice.
  function Response(data: Bytes, p: nat): Zlib.Outcome<SearchResult> {
    if p > |data| then Zlib.Abort
    else
      match Deflate(data[p..])
      case Ok(out, _) => Zlib.Done(ReadResult(out, 0).0)
      case Err(e) => Zlib.Fail(e)
      case Panic => Zlib.Abort
  }

  // Parsing aborts exactly for a cursor beyond the data and for a stream on which the decoder aborts, and it fails
  // exactly with the errors of the decoder.
  lemma ResponseOutcome(data: Bytes, p: nat)
    ensures Response(data, p).Abort? <==> p > |data| || Deflate(data[p..]).Panic?
    ensures forall e :: Response(data, p) == Zlib.Fail(e) <==> p <= |data| && Deflate(data[p..]) == Err(e)
  {
    hide Deflate, ReadResult;
  }

  // A response written with the write operations and compressed as any valid stream of blocks is parsed back.
  lemma ResponseBack(data: Bytes, p: nat, cmf: byte, flg: byte, blocks: seq<Block>, checksum: Bytes,
                     username: Bytes, token: nat, files: seq<Listed>, slots: byte, speed: nat)
    requires ValidHeader(cmf, flg) && ValidStream(blocks, 16, []) && |checksum| == 4
    requires ValidResult(username, token, files, speed)
    requires ExpandStream(blocks, 16, []) == ResultBytes(username, token, files, slots, speed)
    requires p <= |data| && data[p..] == ZlibEncode(cmf, flg, blocks, checksum)
    ensures Response(data, p) == Zlib.Done(SearchResult(token, AllMeant(files, username), slots, speed, username))
  {
    var out := ResultBytes(username, token, files, slots, speed);
    ZlibInverts(cmf, flg, blocks, checksum);
    assert out[0..0 + |out|] == out;
    ResultBack(out, 0, username, token, files, slots, speed);
    hide Deflate, ReadResult, ResultBytes, ValidStream, ExpandStream, ZlibEncode, AllMeant, ValidHeader;
  }

  method ReadAttributes(message: Message, count: nat) returns (attribs: map<nat, nat>)
    modifies message`pointer
    ensures (attribs, message.pointer) == ReadAttribs(message.data, old(message.pointer), count, map[])
  {
    attribs := map[];
    for i := 0 to count
      invariant ReadAttribs(message.data, message.pointer, count - i, attribs)
             == ReadAttribs(message.data, old(message.pointer), count, map[])
    {
      var key := message.ReadInt32();
      var value := message.ReadInt32();
      attribs := attribs[key := value];
    }
  }

  method ReadOneFile(message: Message, username: Bytes) returns (file: File)
    modifies message`pointer
    ensures (file, message.pointer) == ReadFile(message.data, old(message.pointer), username)
  {
    hide ReadInt, ReadString, ReadAttribs, FromMap, FromWire;
    var _ := message.ReadInt8();
    var name := message.ReadString();
    var size := message.ReadInt64();
    var _ := message.ReadString();
    var count := message.ReadInt32();
    var attribs := ReadAttributes(message, count);
    file := File(username, FromWire(name), size, FromMap(attribs));
  }

  method ReadListedFiles(message: Message, count: nat, username: Bytes) returns (files: seq<File>)
    modifies message`pointer
    ensures (files, message.pointer) == ReadFiles(message.data, old(message.pointer), count, username, [])
  {
    hide ReadFile;
    files := [];
    for i := 0 to count
      invariant ReadFiles(message.data, message.pointer, count - i, username, files)
             == ReadFiles(message.data, old(message.pointer), count, username, [])
    {
      ghost var q := message.pointer;
      var file := ReadOneFile(message, username);
      NextFile(message.data, q, count - i, username, files);
      files := files + [file];
    }
  }

  method ParseResult(message: Message) returns (result: SearchResult)
    modifies message`pointer
    ensures (result, message.pointer) == ReadResult(message.data, old(message.pointer))
  {
    hide ReadFiles, ReadString, ReadInt;
    var username := message.ReadString();
    var token := message.ReadInt32();
    var count := message.ReadInt32();
    var files := ReadListedFiles(message, count, username);
    var slots := message.ReadInt8();
    var speed := message.ReadInt32();
    result := SearchResult(token, files, slots, speed, username);
  }

  method NewFromMessage(outer: Message) returns (o: Zlib.Outcome<SearchResult>)
    ensures o == Response(outer.data, outer.pointer)
  {
    if outer.pointer > |outer.data| {
      return Zlib.Abort;
    }
    hide Deflate, ReadResult;
    var deflated :- Zlib.Deflate(outer.data[outer.pointer..]);
    var message := new Message.NewWithData(deflated);
    var result := ParseResult(message);
    return Zlib.Done(result);
  }

  method NewTransferFromMessage(message: Message) returns (transfer: Transfer)
    modifies message`pointer
    ensures (transfer, message.pointer) == ReadTransfer(message.data, old(message.pointer))
  {
    hide ReadInt, ReadString, FromWire;
    var direction := message.ReadInt32();
    var token := message.ReadInt32();
    var filename := message.ReadString();
    var size := message.ReadInt64();
    transfer := Transfer(direction, token, FromWire(filename), size);
  }
}
