/**
 * The first prototype: a webhook whose page events play a fixed test
 * melody on a freshly built synthesizer graph -- bank select and program 0 on
 * MIDI channel 0, then the thirteen notes from middle C up to the C above it,
 * each switched on and then off.
 */
module Prototype {
  import opened Wrappers
  import opened MidiMessages
  import opened RubyValues
  import Server

  /** `midiChannelInUse`. */
  const MidiChannel: int := 0
  const NoteCount: nat := 13
  const FirstNote: UInt32 := 60
  const OnVelocity: UInt32 := 127

  /** Message `k` of the melody: note 60 + k / 2, switched on when k is even
      and off when k is odd. */
  function MelodyMessage(k: nat): Message
    requires k < 2 * NoteCount
  {
    NoteOn(MidiChannel, FirstNote + k / 2, if k % 2 == 0 then OnVelocity else 0)
  }

  /** Every message play_sound sends when nothing fails, in order. */
  function Script(): (s: seq<Message>)
    ensures |s| == 2 + 2 * NoteCount
  {
    [BankSelectMsb(MidiChannel), ProgramChange(MidiChannel, 0)]
      + seq(2 * NoteCount, k requires 0 <= k < 2 * NoteCount => MelodyMessage(k))
  }

  /** The script: bank select 0 then program change 0 on channel 0, then 13
      notes ascending by one semitone from 60 to 72, each note-on at velocity
      127 followed at once by its note-off (velocity 0). */
  lemma ScriptShape()
    ensures |Script()| == 2 + 2 * NoteCount
    ensures Script()[0] == Message(0xB0, 0, 0) && Script()[1] == Message(0xC0, 0, 0)
    ensures forall k :: 2 <= k < |Script()| ==>
              Script()[k] == Message(0x90, 60 + (k - 2) / 2, if k % 2 == 0 then 127 else 0)
    ensures forall k :: 2 <= k < |Script()| && k % 2 == 0 ==> Script()[k + 1] == Script()[k].(data2 := 0)
    ensures forall k :: 0 <= k < |Script()| ==> WellFormed(Script()[k])
  {
  }

  /** The script opens with the bank select and the program change. */
  lemma ScriptStart()
    ensures |Script()| == 2 + 2 * NoteCount
    ensures Script()[..1] == [BankSelectMsb(MidiChannel)]
    ensures Script()[..2] == [BankSelectMsb(MidiChannel), ProgramChange(MidiChannel, 0)]
  {
  }

  /** Position 2 + k of the script is message k of the note pairs. */
  lemma NextInScript(k: nat, note: UInt32, velocity: UInt32)
    requires k < 2 * NoteCount
    requires note == FirstNote + k / 2 && velocity == if k % 2 == 0 then OnVelocity else 0
    ensures Script()[2 + k] == NoteOn(MidiChannel, note, velocity)
    ensures Script()[..3 + k] == Script()[..2 + k] + [NoteOn(MidiChannel, note, velocity)]
  {
  }

  /** One MusicDeviceMIDIEvent call; the synthesizer fails the calls whose
      positions are in `rejects`. */
  method Send(trace: seq<Message>, m: Message, rejects: set<nat>) returns (next: seq<Message>, ok: bool)
    ensures next == trace + [m]
    ensures ok <==> |trace| !in rejects
  {
    next := trace + [m];
    ok := |trace| !in rejects;
  }

  /** play_sound. `graphReady` says whether building and initialising the
      graph succeeded, `started` whether AUGraphStart did. The result is every
      message sent: a prefix of the script that ends at the first failing
      call, or before the first note when the graph does not start. */
  method PlaySound(graphReady: bool, started: bool, rejects: set<nat>) returns (trace: seq<Message>)
    ensures |trace| <= |Script()| && trace == Script()[..|trace|]
    ensures !graphReady ==> trace == []
    ensures graphReady ==> |trace| >= 1
    ensures !started ==> |trace| <= 2
    ensures forall j :: 0 <= j < |trace| - 1 ==> j !in rejects
    ensures graphReady && |trace| < |Script()| ==> |trace| - 1 in rejects || (|trace| == 2 && !started)
    ensures graphReady && started && (forall j :: 0 <= j < |Script()| ==> j !in rejects) ==> trace == Script()
  {
    ScriptStart();
    trace := [];
    if !graphReady {
      return;
    }
    var ok;
    trace, ok := Send(trace, BankSelectMsb(MidiChannel), rejects);
    if !ok {
      return;
    }
    trace, ok := Send(trace, ProgramChange(MidiChannel, 0), rejects);
    if !ok || !started {
      return;
    }
    trace := PlayNotes(trace, rejects);
  }

  /** The loop of play_sound: each note on, then off, until a call fails. */
  method PlayNotes(setup: seq<Message>, rejects: set<nat>) returns (trace: seq<Message>)
    requires setup == Script()[..2] && 0 !in rejects && 1 !in rejects
    ensures 2 < |trace| <= |Script()| && trace == Script()[..|trace|]
    ensures forall j :: 0 <= j < |trace| - 1 ==> j !in rejects
    ensures |trace| < |Script()| ==> |trace| - 1 in rejects
  {
    ScriptStart();
    trace := setup;
    var ok;
    for i := 0 to NoteCount
      invariant |trace| == 2 + 2 * i
      invariant trace == Script()[..|trace|]
      invariant forall j :: 0 <= j < |trace| ==> j !in rejects
    {
      var noteNum: UInt32 := i + FirstNote;
      NextInScript(2 * i, noteNum, OnVelocity);
      trace, ok := Send(trace, NoteOn(MidiChannel, noteNum, OnVelocity), rejects);
      if !ok {
        return;
      }
      NextInScript(2 * i + 1, noteNum, 0);
      trace, ok := Send(trace, NoteOn(MidiChannel, noteNum, 0), rejects);
      if !ok {
        return;
      }
    }
  }

  /** main.c's app: the same status and response as the server's, but a page
      event plays the melody instead of calling a handler; play_sound raises
      nothing. */
  function App(requestMethod: string, path: string, body: Json): (r: Result<Server.Reply, Error>)
    ensures r.Ok? ==> r.value.response == Server.Acknowledge(Server.RouteStatus(requestMethod, path))
    ensures r.Ok? && r.value.forwarded <==> Server.RouteStatus(requestMethod, path) == Server.StatusOk && HasType(body, "page")
    ensures r.Err? <==> Server.RouteStatus(requestMethod, path) == Server.StatusOk
                        && !(body.Hash? && "type" in body.fields && Field(body, "type").Str?)
  {
    Server.App(requestMethod, path, body, (_: Json) => None)
  }
}
