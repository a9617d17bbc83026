/**
 * MIDI 1.0 channel voice messages as the synthesizer unit receives them:
 * MusicDeviceMIDIEvent takes a status word and two data words, each an
 * unsigned 32-bit integer (UInt32).
 */
module MidiMessages {

  /** The C type UInt32. */
  type UInt32 = x: int | 0 <= x < 0x1_0000_0000

  /** Conversion of a C integer to UInt32: reduction modulo 2^32, which is
      also what two's-complement truncation of a wider or signed value gives. */
  function ToUInt32(x: int): (u: UInt32)
    ensures 0 <= x < 0x1_0000_0000 ==> u == x
  {
    x % 0x1_0000_0000
  }

  /** Status nibbles of the channel voice messages used here
      (MIDI 1.0 Detailed Specification, Channel Voice Messages). */
  const NoteOnKind: nat := 0x9
  const ControlChangeKind: nat := 0xB
  const ProgramChangeKind: nat := 0xC

  /** Controller number of Bank Select MSB. */
  const BankMsbController: UInt32 := 0

  datatype Message = Message(status: UInt32, data1: UInt32, data2: UInt32)

  /** One bit of a bitwise OR: the lowest bit of `a | b`. */
  function OrBit(a: nat, b: nat): nat
  {
    if a % 2 == 1 || b % 2 == 1 then 1 else 0
  }

  /** Bitwise OR of two 4-bit values, bit by bit. */
  function OrNibble(a: nat, b: nat): (r: nat)
    requires a < 16 && b < 16
    ensures r < 16
    ensures b == 0 ==> r == a
  {
    OrBit(a, b) + 2 * OrBit(a / 2, b / 2) + 4 * OrBit(a / 4, b / 4) + 8 * OrBit(a / 8, b / 8)
  }

  /** A number is its bits above 8, its second nibble and its first nibble. */
  lemma Nibbles(u: nat)
    ensures u == u / 256 * 256 + u / 16 % 16 * 16 + u % 16
  {
    var q := u / 16;
    assert u == q * 16 + u % 16;
    assert q == q / 16 * 16 + q % 16;
    assert q / 16 == u / 256;
  }

  /** The status word `kind << 4 | channel` as the C code computes it: the
      channel converted to UInt32, with `kind` OR-ed into its second nibble
      (the only bits `kind << 4` touches). For a channel in 0..15 the OR is
      an addition, giving the status byte whose high nibble is the message
      kind and whose low nibble is the channel; a larger channel number
      spills into the kind bits and above. */
  function StatusByte(kind: nat, channel: int): (s: UInt32)
    requires kind < 16
    ensures 0 <= channel < 16 ==> s == 16 * kind + channel
  {
    if 0 <= channel < 16 then 16 * kind + channel else OrIntoSecondNibble(kind, ToUInt32(channel))
  }

  /** `kind << 4 | u` for a UInt32 `u`, nibble by nibble. */
  function OrIntoSecondNibble(kind: nat, u: UInt32): (s: UInt32)
    requires kind < 16
    ensures u < 16 ==> s == 16 * kind + u
  {
    Nibbles(u);
    assert u / 256 <= 0xFF_FFFF;
    u / 256 * 256 + 16 * OrNibble(kind, u / 16 % 16) + u % 16
  }

  /** Both branches of StatusByte are the C expression: for every channel,
      the status is `kind << 4` OR-ed into the channel's UInt32 value. */
  lemma StatusByteIsOr(kind: nat, channel: int)
    requires kind < 16
    ensures StatusByte(kind, channel) == OrIntoSecondNibble(kind, ToUInt32(channel))
  {
  }

  /** For a channel in 0..15 the status byte carries exactly the kind and
      the channel. */
  lemma StatusByteInRange(kind: nat, channel: int)
    requires kind < 16 && 0 <= channel < 16
    ensures KindOf(StatusByte(kind, channel)) == kind
    ensures ChannelOf(StatusByte(kind, channel)) == channel
  {
    DivMod16(kind, channel);
  }

  /** The low nibble of the status word is the channel's low nibble, and its
      high nibble is the kind OR-ed with the channel's second nibble. */
  lemma StatusByteNibbles(kind: nat, channel: int)
    requires kind < 16
    ensures ChannelOf(StatusByte(kind, channel)) == ToUInt32(channel) % 16
    ensures KindOf(StatusByte(kind, channel)) == OrNibble(kind, ToUInt32(channel) / 16 % 16)
  {
    var u := ToUInt32(channel);
    var n := OrNibble(kind, u / 16 % 16);
    var h := u / 256 * 16 + n;
    assert StatusByte(kind, channel) == OrIntoSecondNibble(kind, u);
    DivMod16(h, u % 16);
    DivMod16(u / 256, n);
  }

  lemma DivMod16(h: nat, l: nat)
    requires l < 16
    ensures (h * 16 + l) / 16 == h && (h * 16 + l) % 16 == l
  {
  }

  /** High nibble of a status byte. */
  function KindOf(status: UInt32): nat
  {
    status / 16 % 16
  }

  /** Low nibble of a status byte. */
  function ChannelOf(status: UInt32): nat
  {
    status % 16
  }

  /** A note-on message; velocity 0 means note-off (MIDI 1.0, Note On with
      velocity zero). */
  function NoteOn(channel: int, note: UInt32, velocity: UInt32): Message
  {
    Message(StatusByte(NoteOnKind, channel), note, velocity)
  }

  /** Control change 0 (Bank Select MSB) with value 0. */
  function BankSelectMsb(channel: int): Message
  {
    Message(StatusByte(ControlChangeKind, channel), BankMsbController, 0)
  }

  /** Program change; the third word is unused and sent as 0. */
  function ProgramChange(channel: int, program: UInt32): Message
  {
    Message(StatusByte(ProgramChangeKind, channel), program, 0)
  }

  predicate IsNoteOn(m: Message)
  {
    KindOf(m.status) == NoteOnKind && m.data2 != 0
  }

  predicate IsNoteOff(m: Message)
  {
    KindOf(m.status) == NoteOnKind && m.data2 == 0
  }

  /** A well-formed channel voice message: a status byte 0x80..0xEF and two
      7-bit data bytes. */
  predicate WellFormed(m: Message)
  {
    0x80 <= m.status < 0xF0 && m.data1 < 0x80 && m.data2 < 0x80
  }
}
