# art.c sonification prototype, modelled in Dafny

This project models the sonification prototype. Analytics webhook events
(page views, track events, identify calls) arrive over HTTP, and the
prototype turns them into MIDI notes on a software synthesizer. It covers
four pieces of the C sources:

- **`sound.c`** holds the `Sound` and `Sound::Channel` classes. They work
  as follows:
  - A scale-degree lookup turns a degree into semitones.
  - One process-wide counter walks a major scale above middle C. Every
    channel shares that counter.
  - Each `play` queues a note-on on a serial dispatch queue. When that
    note-on succeeds, a delayed note-off follows.
  - `bank=` sends a bank-select control change, then a program change.

  These are modelled as the classes `Sound.Sound` and `Sound.Channel`:
  - `queue` holds the blocks waiting on the serial queue.
  - `timers` holds the note-offs whose delay has not yet elapsed.
  - `trace` holds every message handed to `MusicDeviceMIDIEvent`.
  - `rejects` holds the positions in `trace` of the calls that fail.
- **`art.c`** holds two things:
  - `handle_event`, a decision table from a parsed payload to at most one
    `(role, velocity)` play call and the exception the call raises, if any;
  - the palette table that `lets_dance` builds.
- **`server.c`** holds `app`, the Rack application. It computes the HTTP
  status and forwards only page events to the handler.
- **`main.c`** holds the first prototype's `app` and `play_sound`.
  `play_sound` sends a bank select and a program change, then thirteen
  note-on/note-off pairs, and stops at the first failing call.

Modules:

- `MidiMessages` (`midi.dfy`) covers UInt32 and MIDI channel voice
  messages. The status word is `kind << 4 | channel`. This follows the
  MIDI 1.0 Detailed Specification, section "Channel Voice Messages".
- `RubyValues` (`ruby_values.dfy`) covers parsed JSON values and the
  Ruby C-API lookups the handlers use:
  - `rb_hash_fetch`;
  - `rb_str_equal`;
  - `FIX2INT`, with its errors.
- `Sound` (`sound.dfy`), `Art` (`art.dfy`), `Server` (`server.dfy`) and
  `Prototype` (`prototype.dfy`) model the four C files.
- `Wrappers` (`wrappers.dfy`) provides `Option` and `Result`.

Where the prose documentation and the C code differ, the model follows the
code:

- An identify event plays the **harp**. The Ruby sketch in the comment
  above `handle_event` says bell (`art.c:30`, code at `art.c:71`).
- The lookups use `rb_hash_fetch`. A missing `type`, `event`, `userId`,
  `properties`, `traits` or `collector_level` key therefore raises KeyError
  instead of reading as nil or defaulting (`art.c:37`, `art.c:40`, `art.c:59`).
  Only a present `nil` counts as nil or as level 0 (`art.c:42`, `art.c:67-69`).
- There is no per-channel scale cursor and no octave offset.
  - One static counter serves every channel (`sound.c:182`).
  - Every note is `60 + scale[counter]` at velocity 127 (`sound.c:216-217`).
  - The counter is advanced before use, so the first note after start is
    62, not 60.
- The palette's octave argument is recorded in the table, but nothing
  consumes it.

## Model

| member | source | states |
|---|---|---|
| MidiMessages.StatusByte | sound.c:218 | The status word of a channel message. For a channel in 0..15, the kind sits in the high nibble and the channel in the low nibble: `16 * kind + channel`. Other channels take the general OR. |
| MidiMessages.StatusByteIsOr | sound.c:218 | For every channel, StatusByte equals the C expression: `kind << 4` OR-ed into the channel converted to UInt32. |
| MidiMessages.OrIntoSecondNibble | sound.c:218 | OR-ing the kind into the second nibble of a UInt32 channel below 16 is the addition `16 * kind + channel`. |
| MidiMessages.StatusByteNibbles | sound.c:218 | For every channel, the low nibble of the status is the channel's low nibble, and the high nibble is the kind OR-ed with the channel's second nibble. A channel of 16 or more spills into the kind. |
| MidiMessages.StatusByteInRange | sound.c:301-304 | For channels 0..15 the status nibbles are exactly the kind and the channel. |
| Sound.ScaleNoteToAbsolute | sound.c:184-203 | Degrees 0..6 map to the major scale 0,2,4,5,7,9,11. Any other input maps to 0. The result is at most 11. |
| Sound.Advance | sound.c:211-214 | For a counter in 0..6, the increment-then-reset-at-7 is `(counter + 1) mod 7`. |
| Sound.NoteFor | sound.c:216 | The note is `60 + MajorScale[counter]`, always within 60..71. |
| Sound.CounterAfterIsPlaysMod7 | sound.c:182-214 | The counter starts at 0. After n plays it equals n mod 7. |
| Sound.NthNote | sound.c:181-216 | The n-th note since start is `60 + MajorScale[n mod 7]`. The first note is 62, and every 7th note is 60. |
| Sound.PlayMessagesWellFormed | sound.c:216-230 | For channels 0..15, the note-on is a well-formed Note On with nonzero velocity on that channel. Its note-off is the same message with velocity 0. |
| Sound.Sound.constructor | sound.c:128 | A new Sound has counter 0, an empty trace, an empty queue and no pending timers. |
| Sound.Sound.Send | sound.c:223 | Every call is appended to the trace. It succeeds exactly when its position is not a rejected one. |
| Sound.Sound.PlayImpl | sound.c:210-236 | The counter advances even when the note-on fails. The note-on `NoteOn(channel, NoteFor(counter), 127)` is sent. Exactly one note-off with the same status and note is scheduled when the send succeeds, and none when it fails. The counter stays `plays mod 7`. |
| Sound.Sound.Play | sound.c:249-257 | `play` only appends a PlayTask for the channel to the serial queue. |
| Sound.Sound.RunNext | sound.c:253-255 | The oldest queued block runs: a play runs PlayImpl, and a note-off sends `(status, note, 0)`. FIFO order is kept. Nothing runs on an empty queue. |
| Sound.Sound.TimerFires | sound.c:229 | The oldest pending note-off joins the back of the serial queue. |
| Sound.Sound.GetChannel | sound.c:176-179 | `channel(n)` is a new Channel bound to this Sound and n. |
| Sound.Channel.constructor | sound.c:273-277 | A Channel stores its Sound and its channel number. |
| Sound.Channel.SetBank | sound.c:292-312 | There are four cases. A channel outside the C int range raises RangeError and sends nothing. A failed control change ends the call with nothing more sent. Otherwise a bank outside the C int range raises RangeError after the control change. Otherwise the trace gains exactly `[CC(ch, 0, 0), PC(ch, bank)]`, in that order. |
| Sound.Channel.Play | sound.c:325-330 | `Channel#play` queues a play of the channel's own stored number. |
| Sound.BankMessagesWellFormed | sound.c:301-306 | For channels 0..15 and banks 0..127, both messages are well-formed. They are a Control Change and then a Program Change, each carrying only this channel's number. |
| Sound.ElapseNoteOff | sound.c:229-235 | When the queue is idle, a firing note-off timer appends exactly `(status, note, 0)` to the trace. The counter and the play count are unchanged. |
| Sound.TwoChannelsPlay | sound.c:210-257 | Two channels play in turn. The notes arrive in submission order, and channel 1 continues the shared scale (62, then 64). Each successful note-on gets exactly its note-off, and a failed one gets none. |
| RubyValues.Fetch | art.c:37 | A present key gives its value, even nil. A missing key is KeyError. A non-Hash is undefined. |
| RubyValues.StrEquals | art.c:39 | The result is true exactly for the equal string. A non-String first argument is undefined. |
| RubyValues.FixToInt | art.c:69 | An Integer within the C int range gives its value. A non-Integer is TypeError, and anything out of range is RangeError. |
| Art.CollectorVelocity | art.c:69-70 | Levels 0, 1 and 2 give 70, 90 and 110. Every other level gives 127, negative levels included. |
| Art.CollectorVelocityMonotonic | art.c:70 | The velocity never decreases over non-negative levels. Any negative level is louder than levels 0..2. |
| Art.HandleEvent | art.c:36-77 | At most one role plays, with velocity 1..127. Bass means an "Artwork impressions" track event. Bell means a bid track event. Harp means identify. Xylophone at 127 plays exactly for page events. |
| Art.ArtworkImpressions | art.c:39-43 | The bass plays at 80 when `userId` is present and nil, and at 127 otherwise. A missing `userId` raises KeyError and plays nothing. |
| Art.TrackEvents | art.c:44-51 | The three bid events ring the bell at 127. Any other track event is silent. |
| Art.PageEvents | art.c:56-62 | The xylophone always plays at 127. The call raises exactly when `properties.path` cannot be fetched. |
| Art.IdentifyEvents | art.c:65-71 | The harp plays with CollectorVelocity of the level, and a nil level counts as 0. In the error cases nothing plays: a missing `traits` or `collector_level` raises KeyError, a non-Hash `traits` is undefined, a level that is not an Integer raises TypeError, and one outside the C int range raises RangeError. |
| Art.MissingKeys | art.c:37-67 | A track payload without `event`, an "Artwork impressions" payload without `userId`, and an identify payload without `traits` each raise KeyError for that key and play nothing. |
| Art.WrongRubyTypes | art.c:36-53 | A non-Hash payload, a non-String `type` and a non-String track `event` play nothing and end in Undefined. |
| Art.OtherTypes | art.c:36-77 | A missing `type` raises KeyError. Any other type string is silent. |
| Art.Palette | art.c:102-113 | The table `lets_dance` sets up is bass (0, -2, 45), xylophone (1, 0, 12), bell (2, 1, 14) and harp (3, 0, 46). Every channel is in 0..3, every bank in 0..127, and every octave argument in -2..1. |
| Art.PaletteChannelsDistinct | art.c:98-113 | The roles have pairwise distinct MIDI channels, each in 0..15, and banks in 0..127. |
| Art.ServerReachesOnlyXylophone | art.c:119 | Behind server.c's `app`, track and identify payloads never reach the handler. A forwarded page plays the xylophone at 127. |
| Server.RouteStatus | server.c:17-25 | The status is 405 exactly for methods other than POST. It is 200 exactly for a POST to `/webhooks/analytics`, and 404 otherwise. |
| Server.App | server.c:16-53 | The response is always `[status, {}, ["OK"]]`. Non-200 requests never look at the body or call the handler. A 200 with any other `type` string is answered without the handler. A missing `type` raises KeyError. The handler is called exactly for 200 with type "page", and its exception propagates. |
| Prototype.Script | main.c:98-124 | The full trace has 2 + 2·13 messages. |
| Prototype.ScriptShape | main.c:98-124 | The trace is CC `(0xB0, 0, 0)`, then PC `(0xC0, 0, 0)`, then 13 notes from 60 to 72. Each note-on at 127 is immediately followed by its note-off. Every message is well-formed. |
| Prototype.ScriptStart | main.c:98-104 | The bank select and program change come first. |
| Prototype.NextInScript | main.c:111-124 | Loop step k sends script position 2 + k. |
| Prototype.Send | main.c:119 | Every call is appended to the trace. It fails exactly at a rejected position. |
| Prototype.PlaySound | main.c:60-135 | The trace is always a prefix of the script. A graph that cannot be set up sends nothing. A graph that does not start sends at most the two setup messages and no note. Otherwise the trace stops right after the first failing call. With no failure it is the whole script. |
| Prototype.PlayNotes | main.c:110-125 | The loop extends the setup by script messages. No earlier call failed, and a short trace ends at a rejected call. |
| Prototype.App | main.c:140-178 | Same status and response as the server. The melody plays exactly for a 200 POST of a "page" payload. |

## Left out

- The CoreAudio graph is not modelled: `CreateAUGraph`, `AUGraphInitialize`, `AUGraphStart`, `AUGraphStop`, `DisposeAUGraph`, and `sound_alloc`, `sound_initialize` and `sound_free`. These are platform calls. `PlaySound` takes their outcome as the booleans `graphReady` and `started`.
- `MusicDeviceMIDIEvent` is modelled only as an append to a trace. Which calls fail is fixed in advance by `rejects`, and the sample-offset argument (always 0) is not modelled.
- Timing is not modelled: the 0.1 s `dispatch_after` delay, `usleep` and real concurrency are absent. What remains:
  - the serial queue is a FIFO sequence;
  - every note-off has the same delay, so pending note-offs are a FIFO sequence too;
  - a timer firing and the worker running a block are separate steps the caller chooses to take.
- `last_note_played` is a file-level static. The model keeps it in the `Sound` object, and a program is assumed to hold one `Sound`. Sounds created side by side would share the C counter but not the modelled one.
- The Ruby bootstrap, `Init_ArtC_*` method registration, `load_encoding_ext`, TypedData wrapping and `rb_struct_define` are interpreter plumbing and are not modelled.
- A non-Integer channel or bank is not modelled, because `Sound.Channel`'s channel and `SetBank`'s bank are `int`s. `FIX2INT` truncates a Float and raises TypeError for other non-numeric values. For the bank, that error would come after the control change was sent. In `play`, `FIX2ULONG` converts without any check and raises nothing. The wrap-around of a negative channel under `FIX2ULONG` is modelled: it is reduced modulo 2^32, as the UInt32 status computation does.
- The arity mismatches between art.c and sound.c are not modelled. `lets_dance` passes two arguments to `Sound#channel`, which takes one. `handle_event` passes a velocity to `Channel#play`, which takes none. The dispatcher's result is therefore kept abstract as a role and a velocity, and `lets_dance` is modelled as its table (`Art.Palette`).
- Rack and WEBrick startup, reading `rack.input` and `JSON.parse` are not modelled. The body is a parsed `Json` value, and JSON numbers are integers only.
- The request method and path are taken as strings. A Rack env without `REQUEST_METHOD` or `PATH_INFO` is not modelled.
- `printf`, `rb_p` and `rb_inspect` trace lines are free-form logging and are not modelled. Only the lookups those lines depend on are kept, because they can raise.
- `rb_str_equal` with a non-String first argument and `rb_hash_fetch` on a non-Hash have no defined result. The model gives them the error `Undefined`.
