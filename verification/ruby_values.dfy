/**
 * The parsed JSON payloads the webhook receives, and the Ruby C-API lookups the
 * handlers apply to them, with the errors those lookups raise.
 */
module RubyValues {
  import opened Wrappers

  /** A value produced by JSON.parse (numbers are integers only). */
  datatype Json =
    | Null
    | Bool(b: bool)
    | Int(i: int)
    | Str(s: string)
    | Arr(items: seq<Json>)
    | Hash(fields: map<string, Json>)

  /** How a lookup ends abnormally:
      KeyError   -- rb_hash_fetch of a key the hash does not have;
      TypeError  -- FIX2INT of a value that is not an Integer;
      RangeError -- FIX2INT of an Integer outside the C `int` range;
      Undefined  -- a C-API call applied to a value of the wrong Ruby type
                    (rb_hash_fetch on a non-Hash, rb_str_equal whose first
                    argument is not a String), whose behaviour C leaves undefined. */
  datatype Error = KeyError(key: string) | TypeError | RangeError | Undefined

  /** `rb_hash_fetch(hash, key)`: unlike `hash[key]`, a missing key is an
      error, distinct from a key that is present with value nil. */
  function Fetch(hash: Json, key: string): (r: Result<Json, Error>)
    ensures r.Ok? <==> hash.Hash? && key in hash.fields
    ensures r.Ok? ==> r.value == hash.fields[key]
    ensures hash.Hash? && key !in hash.fields ==> r == Err(KeyError(key))
    ensures !hash.Hash? ==> r == Err(Undefined)
  {
    if !hash.Hash? then Err(Undefined)
    else if key in hash.fields then Ok(hash.fields[key])
    else Err(KeyError(key))
  }

  /** `rb_str_equal(v, rb_str_new_cstr(literal)) == Qtrue`. */
  function StrEquals(v: Json, literal: string): (r: Result<bool, Error>)
    ensures r.Ok? <==> v.Str?
    ensures r == Ok(true) <==> v == Str(literal)
    ensures !v.Str? ==> r == Err(Undefined)
  {
    if v.Str? then Ok(v.s == literal) else Err(Undefined)
  }

  const IntMin: int := -0x8000_0000
  const IntMax: int := 0x7FFF_FFFF

  predicate IsCInt(x: int)
  {
    IntMin <= x <= IntMax
  }

  /** `FIX2INT(v)`: the Integer's value when it fits a C `int`. */
  function FixToInt(v: Json): (r: Result<int, Error>)
    ensures r.Ok? <==> v.Int? && IsCInt(v.i)
    ensures r.Ok? ==> r.value == v.i
    ensures r.Err? ==> r.error == if v.Int? then RangeError else TypeError
  {
    if !v.Int? then Err(TypeError)
    else if IsCInt(v.i) then Ok(v.i)
    else Err(RangeError)
  }

  /** The payload is a hash whose `type` is the string `ty`. */
  predicate HasType(payload: Json, ty: string)
  {
    payload.Hash? && "type" in payload.fields && payload.fields["type"] == Str(ty)
  }

  function Field(payload: Json, key: string): Json
    requires payload.Hash? && key in payload.fields
  {
    payload.fields[key]
  }
}
