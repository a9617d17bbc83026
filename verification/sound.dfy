/**
 * The Sound and Sound::Channel classes of the C extension: one synthesizer
 * unit fed from one serial dispatch queue, and a note sequencer that walks a
 * major scale above middle C with a single counter shared by every channel.
 *
 * The synthesizer (MusicDeviceMIDIEvent) is modelled as a trace of the
 * messages handed to it, failed calls included; which calls fail is fixed in
 * advance by the set `rejects` of their positions in that trace.
 */
module Sound {
  import opened Wrappers
  import opened MidiMessages
  import RubyValues

  const MiddleC: UInt32 := 60
  const OnVelocity: UInt32 := 127

  /** The major scale as semitone offsets from its tonic. */
  const MajorScale: seq<UInt32> := [0, 2, 4, 5, 7, 9, 11]

  /** scale_note_to_absolute: scale degree to semitones above the tonic;
      anything that is not a degree 0..6 counts as the tonic. */
  function ScaleNoteToAbsolute(note: UInt32): (semitone: UInt32)
    ensures note < |MajorScale| ==> semitone == MajorScale[note]
    ensures note >= |MajorScale| ==> semitone == 0
    ensures semitone <= 11
  {
    match note
    case 0 => 0
    case 1 => 2
    case 2 => 4
    case 3 => 5
    case 4 => 7
    case 5 => 9
    case 6 => 11
    case _ => 0
  }

  /** `last_note_played++` on a UInt32, then the reset to 0 at 7. */
  function Advance(counter: UInt32): (next: UInt32)
    ensures counter < 7 ==> next == (counter + 1) % 7
  {
    var bumped := ToUInt32(counter + 1);
    if bumped == 7 then 0 else bumped
  }

  /** The note sound_play_impl plays once the counter has been advanced to
      `counter`. */
  function NoteFor(counter: UInt32): (note: UInt32)
    ensures MiddleC <= note <= MiddleC + 11
    ensures counter < |MajorScale| ==> note == MiddleC + MajorScale[counter]
  {
    MiddleC + ScaleNoteToAbsolute(counter)
  }

  /** The counter after `plays` calls of sound_play_impl since the process
      started (the static starts at 0). */
  function CounterAfter(plays: nat): UInt32
  {
    if plays == 0 then 0 else Advance(CounterAfter(plays - 1))
  }

  /** The counter only ever takes the values 0..6, cycling with period 7. */
  lemma {:induction false} CounterAfterIsPlaysMod7(plays: nat)
    ensures CounterAfter(plays) == plays % 7
  {
    if plays > 0 {
      var n := plays - 1;
      CounterAfterIsPlaysMod7(n);
      assert CounterAfter(plays) == Advance(n % 7);
      ModSuccessor(n);
    }
  }

  lemma ModSuccessor(n: nat)
    ensures (n % 7 + 1) % 7 == (n + 1) % 7
  {
  }

  /** The n-th note since start (n >= 1) is middle C plus scale degree n mod 7:
      the first note is D (62), not the tonic, and C returns on the 7th. */
  lemma NthNote(n: nat)
    requires n >= 1
    ensures NoteFor(CounterAfter(n)) == MiddleC + MajorScale[n % 7]
    ensures n == 1 ==> NoteFor(CounterAfter(n)) == 62
    ensures n % 7 == 0 ==> NoteFor(CounterAfter(n)) == MiddleC
  {
    CounterAfterIsPlaysMod7(n);
  }

  /** Every note sound_play_impl sends is a well-formed MIDI note-on with full
      velocity, addressed to the channel it was given (for channels 0..15),
      and its note-off is the same message with velocity 0. */
  lemma PlayMessagesWellFormed(channel: int, counter: UInt32)
    requires 0 <= channel < 16
    ensures WellFormed(NoteOn(channel, NoteFor(counter), OnVelocity))
    ensures IsNoteOn(NoteOn(channel, NoteFor(counter), OnVelocity))
    ensures ChannelOf(NoteOn(channel, NoteFor(counter), OnVelocity).status) == channel
    ensures WellFormed(NoteOn(channel, NoteFor(counter), 0))
    ensures IsNoteOff(NoteOn(channel, NoteFor(counter), 0))
  {
  }

  /** A block waiting to run on the serial queue. */
  datatype Task =
    | PlayTask(channel: int)                    // sound_play's block
    | NoteOffTask(status: UInt32, note: UInt32) // sound_play_impl's delayed block

  class Sound {
    /** Positions in `trace` of the MusicDeviceMIDIEvent calls that fail. */
    const rejects: set<nat>
    /** `last_note_played`: a file-level static, shared by every channel. */
    var lastNotePlayed: UInt32
    /** The number of sound_play_impl calls so far. */
    ghost var plays: nat
    /** Every message handed to the synthesizer, in order. */
    var trace: seq<Message>
    /** Blocks waiting on the serial queue, oldest first. */
    var queue: seq<Task>
    /** Note-off blocks whose delay has not yet elapsed, oldest first. */
    var timers: seq<Task>

    ghost predicate Valid()
      reads this
    {
      lastNotePlayed == plays % 7
    }

    constructor (rejects: set<nat>)
      ensures Valid() && this.rejects == rejects
      ensures lastNotePlayed == 0 && plays == 0
      ensures trace == [] && queue == [] && timers == []
    {
      this.rejects := rejects;
      lastNotePlayed, plays := 0, 0;
      trace, queue, timers := [], [], [];
    }

    /** MusicDeviceMIDIEvent: `ok` is a zero status. */
    method Send(m: Message) returns (ok: bool)
      modifies this`trace
      ensures trace == old(trace) + [m]
      ensures ok == (|old(trace)| !in rejects)
    {
      ok := |trace| !in rejects;
      trace := trace + [m];
    }

    /** sound_play_impl: advance the shared counter, send the note-on, and
        only if that succeeded schedule the matching note-off. */
    method PlayImpl(channel: int)
      requires Valid()
      modifies this`lastNotePlayed, this`plays, this`trace, this`timers
      ensures Valid() && plays == old(plays) + 1
      ensures lastNotePlayed == Advance(old(lastNotePlayed)) < 7
      ensures trace == old(trace) + [NoteOn(channel, NoteFor(lastNotePlayed), OnVelocity)]
      ensures timers == if |old(trace)| in rejects then old(timers)
                        else old(timers) + [NoteOffTask(StatusByte(NoteOnKind, channel), NoteFor(lastNotePlayed))]
    {
      lastNotePlayed := ToUInt32(lastNotePlayed + 1);
      if lastNotePlayed == 7 {
        lastNotePlayed := 0;
      }
      ModSuccessor(plays);
      plays := plays + 1;
      var noteNum := MiddleC + ScaleNoteToAbsolute(lastNotePlayed);
      var noteOnCommand := StatusByte(NoteOnKind, channel);
      var ok := Send(Message(noteOnCommand, noteNum, OnVelocity));
      if !ok {
        return;
      }
      timers := timers + [NoteOffTask(noteOnCommand, noteNum)];
    }

    /** Sound#play (sound_play): queue sound_play_impl for the background
        queue and return at once. */
    method Play(channel: int)
      modifies this`queue
      ensures queue == old(queue) + [PlayTask(channel)]
    {
      queue := queue + [PlayTask(channel)];
    }

    /** The queue's worker runs the oldest waiting block, if there is one. */
    method RunNext() returns (ran: bool)
      requires Valid()
      modifies this`lastNotePlayed, this`plays, this`trace, this`timers, this`queue
      ensures Valid()
      ensures ran == (old(queue) != [])
      ensures !ran ==> trace == old(trace) && queue == old(queue) && timers == old(timers)
                       && plays == old(plays) && lastNotePlayed == old(lastNotePlayed)
      ensures ran ==> queue == old(queue)[1..]
      ensures ran && old(queue)[0].NoteOffTask? ==>
                trace == old(trace) + [Message(old(queue)[0].status, old(queue)[0].note, 0)]
                && timers == old(timers) && plays == old(plays) && lastNotePlayed == old(lastNotePlayed)
      ensures ran && old(queue)[0].PlayTask? ==>
                var channel := old(queue)[0].channel;
                && plays == old(plays) + 1
                && lastNotePlayed == Advance(old(lastNotePlayed))
                && trace == old(trace) + [NoteOn(channel, NoteFor(lastNotePlayed), OnVelocity)]
                && timers == if |old(trace)| in rejects then old(timers)
                             else old(timers) + [NoteOffTask(StatusByte(NoteOnKind, channel), NoteFor(lastNotePlayed))]
    {
      if queue == [] {
        return false;
      }
      var task := queue[0];
      queue := queue[1..];
      match task {
        case PlayTask(channel) =>
          PlayImpl(channel);
        case NoteOffTask(status, note) =>
          // a failing note-off is only logged
          var _ := Send(Message(status, note, 0));
      }
      return true;
    }

    /** The oldest pending note-off's delay elapses and its block joins the
        queue. Every delay is the same 0.1 s, so timers expire in the order
        they were set. */
    method TimerFires() returns (fired: bool)
      modifies this`timers, this`queue
      ensures fired == (old(timers) != [])
      ensures fired ==> timers == old(timers)[1..] && queue == old(queue) + [old(timers)[0]]
      ensures !fired ==> timers == old(timers) && queue == old(queue)
    {
      if timers == [] {
        return false;
      }
      queue := queue + [timers[0]];
      timers := timers[1..];
      return true;
    }

    /** Sound#channel: `Channel.new(self, channel)`. */
    method GetChannel(channel: int) returns (c: Channel)
      ensures fresh(c) && c.sound == this && c.channel == channel
    {
      c := new Channel(this, channel);
    }
  }

  /** Sound::Channel: a Sound and the MIDI channel number it addresses. */
  class Channel {
    const sound: Sound
    const channel: int

    constructor (sound: Sound, channel: int)
      ensures this.sound == sound && this.channel == channel
    {
      this.sound := sound;
      this.channel := channel;
    }

    /** Channel#bank=: bank select MSB 0 and then a program change to `bank`,
        both on this channel; a failing send is logged and ends the call, and
        FIX2INT raises RangeError for a channel or bank outside the C `int`
        range (the bank is converted only when the second send is made). */
    method SetBank(bank: int) returns (raised: Option<RubyValues.Error>)
      modifies sound`trace
      ensures !RubyValues.IsCInt(channel) ==>
                sound.trace == old(sound.trace) && raised == Some(RubyValues.RangeError)
      ensures RubyValues.IsCInt(channel) && |old(sound.trace)| in sound.rejects ==>
                sound.trace == old(sound.trace) + [BankSelectMsb(channel)] && raised == None
      ensures RubyValues.IsCInt(channel) && |old(sound.trace)| !in sound.rejects && !RubyValues.IsCInt(bank) ==>
                sound.trace == old(sound.trace) + [BankSelectMsb(channel)] && raised == Some(RubyValues.RangeError)
      ensures RubyValues.IsCInt(channel) && |old(sound.trace)| !in sound.rejects && RubyValues.IsCInt(bank) ==>
                sound.trace == old(sound.trace) + [BankSelectMsb(channel), ProgramChange(channel, ToUInt32(bank))]
                && raised == None
    {
      if !RubyValues.IsCInt(channel) {
        return Some(RubyValues.RangeError);
      }
      var ok := sound.Send(Message(StatusByte(ControlChangeKind, channel), BankMsbController, 0));
      if !ok {
        return None;
      }
      if !RubyValues.IsCInt(bank) {
        return Some(RubyValues.RangeError);
      }
      ok := sound.Send(Message(StatusByte(ProgramChangeKind, channel), ToUInt32(bank), 0));
      return None;
    }

    /** Channel#play: `@sound.play(@channel)`. */
    method Play()
      modifies sound`queue
      ensures sound.queue == old(sound.queue) + [PlayTask(channel)]
    {
      sound.Play(channel);
    }
  }

  /** The two messages of a bank change are a control change then a program
      change, both carrying only this channel's number in their status nibble. */
  lemma BankMessagesWellFormed(channel: int, bank: int)
    requires 0 <= channel < 16 && 0 <= bank < 128
    ensures WellFormed(BankSelectMsb(channel)) && WellFormed(ProgramChange(channel, ToUInt32(bank)))
    ensures KindOf(BankSelectMsb(channel).status) == ControlChangeKind
    ensures KindOf(ProgramChange(channel, ToUInt32(bank)).status) == ProgramChangeKind
    ensures ChannelOf(BankSelectMsb(channel).status) == channel
    ensures ChannelOf(ProgramChange(channel, ToUInt32(bank)).status) == channel
    ensures ProgramChange(channel, ToUInt32(bank)).data1 == bank
  {
    StatusByteInRange(ControlChangeKind, channel);
    StatusByteInRange(ProgramChangeKind, channel);
  }

  /** The oldest note-off timer fires while the queue is idle, and the
      worker runs its block: the note-off reaches the synthesizer. */
  method ElapseNoteOff(sound: Sound)
    requires sound.Valid() && sound.queue == [] && sound.timers != [] && sound.timers[0].NoteOffTask?
    modifies sound
    ensures sound.Valid() && sound.queue == [] && sound.timers == old(sound.timers)[1..]
    ensures sound.lastNotePlayed == old(sound.lastNotePlayed) && sound.plays == old(sound.plays)
    ensures sound.trace == old(sound.trace) + [Message(old(sound.timers)[0].status, old(sound.timers)[0].note, 0)]
  {
    var fired := sound.TimerFires();
    var ran := sound.RunNext();
  }

  /** Two channels of one fresh Sound play one after the other, then the
      note-off timers fire: the notes reach the synthesizer in submission
      order, the second channel continues the first one's scale position, and
      a note-on that fails gets no note-off. */
  method TwoChannelsPlay(rejects: set<nat>) returns (trace: seq<Message>)
    ensures |trace| >= 2 && trace[..2] == [NoteOn(0, 62, 127), NoteOn(1, 64, 127)]
    ensures trace[2..] == (if 0 in rejects then [] else [NoteOn(0, 62, 0)])
                          + (if 1 in rejects then [] else [NoteOn(1, 64, 0)])
  {
    var sound := new Sound(rejects);
    var bass := sound.GetChannel(0);
    var xylophone := sound.GetChannel(1);
    bass.Play();
    xylophone.Play();
    var ran := sound.RunNext();
    assert sound.trace == [NoteOn(0, 62, 127)];
    ran := sound.RunNext();
    ghost var notes := [NoteOn(0, 62, 127), NoteOn(1, 64, 127)];
    ghost var offs := (if 0 in rejects then [] else [NoteOn(0, 62, 0)])
                      + (if 1 in rejects then [] else [NoteOn(1, 64, 0)]);
    assert sound.trace == notes;
    assert sound.timers == (if 0 in rejects then [] else [NoteOffTask(0x90, 62)])
                           + (if 1 in rejects then [] else [NoteOffTask(0x91, 64)]);
    if sound.timers != [] {
      ElapseNoteOff(sound);
      assert sound.trace == notes + offs[..1];
    }
    if sound.timers != [] {
      ElapseNoteOff(sound);
    }
    assert sound.trace == notes + offs;
    trace := sound.trace;
  }
}
