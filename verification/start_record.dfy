/**
 The eight-byte record in which a child tells its parent why it could not be started: two
 32-bit integers in two's complement, least significant byte first.
 */
module StartRecord {
  import opened Common

  newtype int32 = x: int | -0x8000_0000 <= x < 0x8000_0000

  datatype Stage =
    | CreateProcessGroup
    | ChangeDirectory
    | OpenNullDevice
    | RedirectStandardOutput
    | RedirectStandardError
    | Execute

  datatype ChildStartError = ChildStartError(stage: Stage, errorNumber: int32)

  const RECORD_SIZE := 8

  // The record

  function StageNumber(s: Stage): int32 {
    match s
    case CreateProcessGroup => 1
    case ChangeDirectory => 2
    case OpenNullDevice => 3
    case RedirectStandardOutput => 4
    case RedirectStandardError => 5
    case Execute => 6
  }

  function StageOf(n: int32): Option<Stage> {
    if n == 1 then Some(CreateProcessGroup)
    else if n == 2 then Some(ChangeDirectory)
    else if n == 3 then Some(OpenNullDevice)
    else if n == 4 then Some(RedirectStandardOutput)
    else if n == 5 then Some(RedirectStandardError)
    else if n == 6 then Some(Execute)
    else None
  }

  function EncodeInt(n: int32): (b: seq<byte>)
    ensures |b| == 4
  {
    var u := if n < 0 then n as int + 0x1_0000_0000 else n as int;
    var v := u / 256;
    var w := v / 256;
    [(u % 256) as byte, (v % 256) as byte, (w % 256) as byte, (w / 256) as byte]
  }

  function DecodeInt(b: seq<byte>): int32
    requires |b| == 4
  {
    var u := b[0] as int + 256 * (b[1] as int + 256 * (b[2] as int + 256 * b[3] as int));
    (if u < 0x8000_0000 then u else u - 0x1_0000_0000) as int32
  }

  function Encode(e: ChildStartError): (b: seq<byte>)
    ensures |b| == RECORD_SIZE
  {
    EncodeInt(StageNumber(e.stage)) + EncodeInt(e.errorNumber)
  }

  function Decode(b: seq<byte>): Option<ChildStartError>
    requires |b| == RECORD_SIZE
  {
    match StageOf(DecodeInt(b[..4]))
    case None => None
    case Some(stage) => Some(ChildStartError(stage, DecodeInt(b[4..])))
  }

  lemma IntRoundTrip(n: int32)
    ensures DecodeInt(EncodeInt(n)) == n
  {
  }

  lemma BytesRoundTrip(b: seq<byte>)
    requires |b| == 4
    ensures EncodeInt(DecodeInt(b)) == b
  {
    var w := b[2] as int + 256 * b[3] as int;
    var v := b[1] as int + 256 * w;
    assert (b[0] as int + 256 * v) / 256 == v && v / 256 == w;
  }

  /** Records and byte strings determine each other: what is decoded from eight bytes is the
      one error whose record they are. */
  lemma RecordRoundTrip(e: ChildStartError, b: seq<byte>)
    requires |b| == RECORD_SIZE
    ensures Decode(b) == Some(e) <==> b == Encode(e)
  {
    IntRoundTrip(StageNumber(e.stage));
    IntRoundTrip(e.errorNumber);
    assert Encode(e)[..4] == EncodeInt(StageNumber(e.stage)) && Encode(e)[4..] == EncodeInt(e.errorNumber);
    BytesRoundTrip(b[..4]);
    BytesRoundTrip(b[4..]);
    assert b == b[..4] + b[4..];
  }
}
