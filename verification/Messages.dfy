/** Messages with a reading cursor, and the reader that cuts them out of a byte stream. */
module Messages {
  import opened BitStream
  import opened Collections
  import opened Framing
  import opened Wire

  class Message {
    var data: Bytes
    var pointer: nat

    constructor ()
      ensures data == [] && pointer == 0
    {
      data, pointer := [], 0;
    }

    constructor NewWithData(data: Bytes)
      ensures this.data == data && pointer == 0
    {
      this.data, pointer := data, 0;
    }

    // The message behind its length.
    method GetBuffer() returns (buffer: Bytes)
      ensures buffer == Counted(data)
    {
      var length := |data| % WIDTH32;
      buffer := Le(length, 4);
      buffer := buffer + data;
    }

    method ReadString() returns (text: Bytes)
      modifies this`pointer
      ensures (text, pointer) == Wire.ReadString(data, old(pointer))
    {
      if pointer + 4 > |data| {
        return [];
      }
      var size := FromLe(data[pointer..pointer + 4]);
      pointer := pointer + 4;
      if pointer + size > |data| {
        pointer := |data|;
        return [];
      }
      text := data[pointer..pointer + size];
      pointer := pointer + size;
    }

    method ReadInt8() returns (value: nat)
      modifies this`pointer
      ensures (value, pointer) == ReadInt(data, old(pointer), 1)
    {
      if pointer >= |data| {
        return 0;
      }
      value := data[pointer];
      assert data[pointer..pointer + 1] == [data[pointer]] && FromLe([data[pointer]][1..]) == 0;
      pointer := pointer + 1;
    }

    method ReadInt32() returns (value: nat)
      modifies this`pointer
      ensures (value, pointer) == ReadInt(data, old(pointer), 4)
    {
      if pointer + 4 > |data| {
        return 0;
      }
      value := FromLe(data[pointer..pointer + 4]);
      pointer := pointer + 4;
    }

    method ReadInt64() returns (value: nat)
      modifies this`pointer
      ensures (value, pointer) == ReadInt(data, old(pointer), 8)
    {
      if pointer + 8 > |data| {
        return 0;
      }
      value := FromLe(data[pointer..pointer + 8]);
      pointer := pointer + 8;
    }

    method ReadBool() returns (value: bool)
      modifies this`pointer
      ensures (value, pointer) == Wire.ReadBool(data, old(pointer))
    {
      if pointer >= |data| {
        return false;
      }
      value := data[pointer] == 1;
      pointer := pointer + 1;
    }

    method WriteString(text: Bytes)
      modifies this`data
      ensures data == old(data) + Counted(text)
    {
      var length := |text| % WIDTH32;
      data := data + Le(length, 4);
      data := data + text;
    }

    method WriteInt8(value: byte)
      modifies this`data
      ensures data == old(data) + Le(value, 1)
    {
      data := data + [value];
    }

    method WriteInt32(value: nat)
      requires value < WIDTH32
      modifies this`data
      ensures data == old(data) + Le(value, 4)
    {
      data := data + Le(value, 4);
    }

    method WriteInt64(value: nat)
      requires value < WIDTH32 * WIDTH32
      modifies this`data
      ensures data == old(data) + Le(value, 8)
    {
      data := data + Le(value, 8);
    }

    method WriteBool(value: bool)
      modifies this`data
      ensures data == old(data) + BoolBytes(value)
    {
      data := data + [if value then 1 else 0];
    }

    method WriteRawBytes(value: Bytes)
      modifies this`data
      ensures data == old(data) + value
    {
      data := data + value;
    }
  }

  class MessageReader {
    var buffer: Bytes

    constructor ()
      ensures buffer == []
    {
      buffer := [];
    }

    // A reader takes the step of the framing model, whatever was extracted before.
    method PushBytes(chunk: Bytes)
      modifies this
      ensures forall got :: Reader(buffer, got) == Step(Reader(old(buffer), got), Push(chunk))
    {
      buffer := buffer + chunk;
    }

    method ExtractMessage() returns (message: Option<Message>)
      modifies this
      ensures message.None? <==> Extract(old(buffer)).None?
      ensures message.None? ==> buffer == old(buffer)
      ensures message.Some? ==>
              fresh(message.value) && message.value.pointer == 0
              && Extract(old(buffer)) == Some((message.value.data, buffer))
    {
      var bytesRead := |buffer|;
      if bytesRead < 4 {
        return None;
      }
      var messageSize := FromLe(buffer[..4]);
      var totalSize := messageSize + 4;
      if bytesRead < totalSize {
        return None;
      }
      var messageBuffer := buffer[..totalSize];
      buffer := buffer[totalSize..];
      var m := new Message.NewWithData(messageBuffer);
      return Some(m);
    }

    // The loop of the server actor: messages are taken out until none is whole.
    method ExtractAll() returns (frames: seq<Bytes>)
      modifies this
      ensures (frames, buffer) == Drained(old(buffer))
    {
      frames := [];
      assert [] + Drained(buffer).0 == Drained(buffer).0;
      while true
        invariant Drained(old(buffer)) == (frames + Drained(buffer).0, Drained(buffer).1)
        decreases |buffer|
      {
        ghost var before := buffer;
        var message := ExtractMessage();
        if message.None? {
          break;
        }
        assert (frames + [message.value.data]) + Drained(buffer).0 == frames + Drained(before).0;
        frames := frames + [message.value.data];
      }
      assert frames + [] == frames;
    }
  }
}
