/**
 * The event handler of the art prototype: a decision table from a parsed
 * analytics payload to at most one `play` call on a member of the sound
 * palette, and the fixed palette the prototype sets up at start.
 */
module Art {
  import opened Wrappers
  import opened RubyValues
  import Server

  /** The members of the sound palette. */
  datatype Role = Bass | Xylophone | Bell | Harp

  /** One `sound_palette.<role>.play(velocity)` call. */
  datatype Play = Play(role: Role, velocity: int)

  /** What one handler call does: at most one `play` call, and the exception
      the call ends with, if any. A lookup that is only needed for the trace
      line can raise after the note has been played. */
  datatype Outcome = Outcome(played: Option<Play>, raised: Option<Error>)

  const Silent: Outcome := Outcome(None, None)

  function Raised(e: Error): Outcome
  {
    Outcome(None, Some(e))
  }

  /** The track events that ring the bell. */
  const BidEvents: seq<string> := ["Clicked \"Bid\"", "Clicked buy now", "Clicked make offer"]

  /** Velocity for a collector level: louder for higher levels, and full
      velocity for every level other than 0, 1 and 2, negative ones included. */
  function CollectorVelocity(level: int): (velocity: int)
    ensures velocity in {70, 90, 110, 127}
    ensures velocity == 127 <==> level !in {0, 1, 2}
    ensures 0 <= level ==> velocity == if level < 3 then 70 + 20 * level else 127
  {
    if level == 0 then 70
    else if level == 1 then 90
    else if level == 2 then 110
    else 127
  }

  /** Among non-negative levels the velocity never decreases; a negative
      level breaks that order, as it is played louder than levels 0..2. */
  lemma CollectorVelocityMonotonic(a: int, b: int)
    ensures 0 <= a <= b ==> CollectorVelocity(a) <= CollectorVelocity(b)
    ensures a < 0 <= b < 3 ==> CollectorVelocity(a) > CollectorVelocity(b)
  {
  }

  /** handle_event. At most one role plays, and which one tells what kind
      of event came in; every velocity is a valid MIDI velocity. */
  function HandleEvent(payload: Json): (out: Outcome)
    ensures out.played.Some? ==> 0 < out.played.value.velocity <= 127
    ensures out.played.Some? && out.played.value.role == Bass ==>
              HasType(payload, "track") && "event" in payload.fields
              && Field(payload, "event") == Str("Artwork impressions")
    ensures out.played.Some? && out.played.value.role == Bell ==>
              HasType(payload, "track") && "event" in payload.fields
              && Field(payload, "event").Str? && Field(payload, "event").s in BidEvents
    ensures out.played.Some? && out.played.value.role == Harp ==> HasType(payload, "identify")
    ensures out.played == Some(Play(Xylophone, 127)) <==> HasType(payload, "page")
    ensures out.played.Some? && out.played.value.role == Xylophone ==> out.played.value.velocity == 127
  {
    match Fetch(payload, "type")
    case Err(e) => Raised(e)
    case Ok(ty) =>
      if !ty.Str? then Raised(Undefined)
      else if ty.s == "track" then HandleTrack(payload)
      else if ty.s == "page" then HandlePage(payload)
      else if ty.s == "identify" then HandleIdentify(payload)
      else Silent
  }

  function HandleTrack(payload: Json): Outcome
  {
    match Fetch(payload, "event")
    case Err(e) => Raised(e)
    case Ok(event) =>
      if !event.Str? then Raised(Undefined)
      else if event.s == "Artwork impressions" then
        match Fetch(payload, "userId")
        case Err(e) => Raised(e)
        case Ok(user) => Outcome(Some(Play(Bass, if user == Null then 80 else 127)), None)
      else if event.s in BidEvents then Outcome(Some(Play(Bell, 127)), None)
      else Silent
  }

  /** The xylophone plays first; `properties.path` is looked up afterwards,
      for the trace line only. */
  function HandlePage(payload: Json): Outcome
  {
    var played := Some(Play(Xylophone, 127));
    match Fetch(payload, "properties")
    case Err(e) => Outcome(played, Some(e))
    case Ok(properties) =>
      match Fetch(properties, "path")
      case Err(e) => Outcome(played, Some(e))
      case Ok(_) => Outcome(played, None)
  }

  function HandleIdentify(payload: Json): Outcome
  {
    match Fetch(payload, "traits")
    case Err(e) => Raised(e)
    case Ok(traits) =>
      match Fetch(traits, "collector_level")
      case Err(e) => Raised(e)
      case Ok(level) =>
        match (if level == Null then Ok(0) else FixToInt(level))
        case Err(e) => Raised(e)
        case Ok(cl) => Outcome(Some(Play(Harp, CollectorVelocity(cl))), None)
  }

  /** "Artwork impressions" plays the bass: 80 when userId is present and
      null, 127 for any other userId value; a payload without the key raises
      KeyError and plays nothing. */
  lemma ArtworkImpressions(payload: Json)
    requires HasType(payload, "track") && "event" in payload.fields
    requires Field(payload, "event") == Str("Artwork impressions")
    ensures "userId" in payload.fields ==>
              HandleEvent(payload) == Outcome(Some(Play(Bass, if Field(payload, "userId") == Null then 80 else 127)), None)
    ensures "userId" !in payload.fields ==> HandleEvent(payload) == Raised(KeyError("userId"))
  {
  }

  /** A track event in the bid list rings the bell at full velocity; any
      other track event plays nothing. */
  lemma TrackEvents(payload: Json, name: string)
    requires HasType(payload, "track") && "event" in payload.fields
    requires Field(payload, "event") == Str(name) && name != "Artwork impressions"
    ensures name in BidEvents ==> HandleEvent(payload) == Outcome(Some(Play(Bell, 127)), None)
    ensures name !in BidEvents ==> HandleEvent(payload) == Silent
  {
  }

  /** A page event always plays the xylophone at full velocity, even when
      the later lookup of `properties.path` raises. */
  lemma PageEvents(payload: Json)
    requires HasType(payload, "page")
    ensures HandleEvent(payload).played == Some(Play(Xylophone, 127))
    ensures HandleEvent(payload).raised == None <==>
              "properties" in payload.fields && Field(payload, "properties").Hash?
              && "path" in Field(payload, "properties").fields
  {
  }

  /** An identify event plays the harp, with a velocity given by
      `traits.collector_level` (nil counts as level 0). A missing `traits`
      or `collector_level` raises KeyError, and FIX2INT raises TypeError
      for a level that is not an Integer and RangeError for one outside the
      C `int` range; then nothing plays. */
  lemma IdentifyEvents(payload: Json)
    requires HasType(payload, "identify")
    ensures "traits" !in payload.fields ==> HandleEvent(payload) == Raised(KeyError("traits"))
    ensures "traits" in payload.fields && !Field(payload, "traits").Hash? ==> HandleEvent(payload) == Raised(Undefined)
    ensures "traits" in payload.fields && Field(payload, "traits").Hash? ==>
              var traits := Field(payload, "traits").fields;
              && ("collector_level" !in traits ==> HandleEvent(payload) == Raised(KeyError("collector_level")))
              && ("collector_level" in traits && traits["collector_level"] == Null ==>
                    HandleEvent(payload) == Outcome(Some(Play(Harp, 70)), None))
              && ("collector_level" in traits && traits["collector_level"].Int? && IsCInt(traits["collector_level"].i) ==>
                    HandleEvent(payload) == Outcome(Some(Play(Harp, CollectorVelocity(traits["collector_level"].i))), None))
              && ("collector_level" in traits && traits["collector_level"].Int? && !IsCInt(traits["collector_level"].i) ==>
                    HandleEvent(payload) == Raised(RangeError))
              && ("collector_level" in traits && traits["collector_level"] != Null && !traits["collector_level"].Int? ==>
                    HandleEvent(payload) == Raised(TypeError))
  {
  }

  /** The keys handle_event fetches are required: a track payload without
      `event` and an identify payload without `traits` raise KeyError and
      play nothing; so does a track "Artwork impressions" without `userId`. */
  lemma MissingKeys(payload: Json)
    requires payload.Hash?
    ensures HasType(payload, "track") && "event" !in payload.fields ==> HandleEvent(payload) == Raised(KeyError("event"))
    ensures HasType(payload, "identify") && "traits" !in payload.fields ==> HandleEvent(payload) == Raised(KeyError("traits"))
    ensures (HasType(payload, "track") && "event" in payload.fields && Field(payload, "event") == Str("Artwork impressions")
             && "userId" !in payload.fields) ==> HandleEvent(payload) == Raised(KeyError("userId"))
  {
  }

  /** The C-API calls applied to a value of the wrong Ruby type: a payload
      that is not a Hash, a `type` that is not a String, and a track `event`
      that is not a String play nothing and end in Undefined. */
  lemma WrongRubyTypes(payload: Json)
    ensures !payload.Hash? ==> HandleEvent(payload) == Raised(Undefined)
    ensures payload.Hash? && "type" in payload.fields && !Field(payload, "type").Str? ==>
              HandleEvent(payload) == Raised(Undefined)
    ensures (HasType(payload, "track") && "event" in payload.fields && !Field(payload, "event").Str?) ==>
              HandleEvent(payload) == Raised(Undefined)
  {
  }

  /** A missing `type` is a KeyError; any `type` string other than track,
      page and identify plays nothing and raises nothing. */
  lemma OtherTypes(payload: Json)
    requires payload.Hash?
    ensures "type" !in payload.fields ==> HandleEvent(payload) == Raised(KeyError("type"))
    ensures ("type" in payload.fields && Field(payload, "type").Str?
             && Field(payload, "type").s !in {"track", "page", "identify"}) ==> HandleEvent(payload) == Silent
  {
  }

  /** One channel of the palette: its MIDI channel, the octave argument it
      is created with, and the bank (program) it is set to. */
  datatype ChannelConfig = ChannelConfig(channel: int, octave: int, bank: int)

  /** The palette lets_dance assembles. */
  function Palette(role: Role): (c: ChannelConfig)
    ensures 0 <= c.channel < 4 && 0 <= c.bank < 128 && -2 <= c.octave <= 1
  {
    match role
    case Bass => ChannelConfig(0, -2, 45)
    case Xylophone => ChannelConfig(1, 0, 12)
    case Bell => ChannelConfig(2, 1, 14)
    case Harp => ChannelConfig(3, 0, 46)
  }

  /** Every role has its own MIDI channel, a channel number 0..15 and a bank
      that is a 7-bit MIDI program number. */
  lemma PaletteChannelsDistinct(r1: Role, r2: Role)
    ensures r1 != r2 ==> Palette(r1).channel != Palette(r2).channel
    ensures 0 <= Palette(r1).channel < 16 && 0 <= Palette(r1).bank < 128
  {
  }

  /** The block lets_dance hands to start_server: handle_event with the
      palette, seen from the server as the exception it raises, if any. */
  function ArtHandler(payload: Json): Option<Error>
  {
    HandleEvent(payload).raised
  }

  /** With the server forwarding only page events, the dispatcher's track and
      identify rows are never reached: a track or identify payload is
      answered without calling the handler, and a forwarded payload always
      plays the xylophone at full velocity. */
  lemma ServerReachesOnlyXylophone(requestMethod: string, path: string, body: Json)
    ensures HasType(body, "track") || HasType(body, "identify") ==>
              Server.App(requestMethod, path, body, ArtHandler).Ok?
              && !Server.App(requestMethod, path, body, ArtHandler).value.forwarded
    ensures Server.RouteStatus(requestMethod, path) == Server.StatusOk && HasType(body, "page") ==>
              HandleEvent(body).played == Some(Play(Xylophone, 127))
              && (Server.App(requestMethod, path, body, ArtHandler).Ok? <==> HandleEvent(body).raised == None)
  {
    if HasType(body, "page") {
      PageEvents(body);
    }
  }
}
