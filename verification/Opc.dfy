/** The first Open Pixel Control message of a UDP datagram (src/dld_opc.c). */
module Opc {
  import opened Wrappers

  datatype Reading = Valid(rgb: nat) | Malformed | Unsupported

  /** dld_opc_color. */
  function Decode(packet: seq<byte>): Reading {
    if |packet| < 4 then Malformed
    else
      var payload := packet[2] as int * 0x100 + packet[3];
      if payload < 3 || payload > |packet| - 4 then Malformed
      else if packet[1] != 0 then Unsupported
      else Valid(packet[4] as int * 0x1_0000 + packet[5] as int * 0x100 + packet[6])
  }

  lemma ColorFits(packet: seq<byte>)
    ensures Decode(packet).Valid? ==> Decode(packet).rgb <= 0xff_ffff
  {
  }

  /** A message: channel, command, and a payload of at most 65535 bytes. */
  datatype Message = Message(channel: byte, command: byte, payload: seq<byte>)

  function Encode(m: Message): seq<byte>
    requires |m.payload| < 0x1_0000
  {
    [m.channel, m.command, |m.payload| / 0x100, |m.payload| % 0x100] + m.payload
  }

  /** Any message with a whole pixel is recognised, whatever its channel and whatever follows it. */
  lemma DecodeEncode(m: Message, trailing: seq<byte>)
    requires 3 <= |m.payload| < 0x1_0000
    ensures var p := m.payload;
            Decode(Encode(m) + trailing) ==
              if m.command == 0 then Valid(p[0] as int * 0x1_0000 + p[1] as int * 0x100 + p[2]) else Unsupported
  {
    var packet := Encode(m) + trailing;
    assert packet == [m.channel, m.command, |m.payload| / 0x100, |m.payload| % 0x100] + (m.payload + trailing);
    assert packet[4] == m.payload[0] && packet[5] == m.payload[1] && packet[6] == m.payload[2];
  }

  /** And nothing else is: what is not malformed starts with such a message. */
  lemma DecodedIsEncoded(packet: seq<byte>) returns (m: Message, trailing: seq<byte>)
    requires !Decode(packet).Malformed?
    ensures 3 <= |m.payload| < 0x1_0000 && packet == Encode(m) + trailing
  {
    var n := packet[2] as int * 0x100 + packet[3];
    m, trailing := Message(packet[0], packet[1], packet[4..4 + n]), packet[4 + n..];
    assert packet == packet[..4] + packet[4..];
    assert packet[4..] == m.payload + trailing;
  }
}
