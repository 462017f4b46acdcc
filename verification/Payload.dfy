/** The payload header of the many-socket peers: magic, logical connection, message number, patterned body. */
module Payload {
  import opened Common

  type Byte = b: nat | b < 256

  const MAGIC: seq<Byte> := [0x52, 0x57, 0x58, 0x53]
  const HEADER_SIZE: nat := 16

  function Power(width: nat): (p: nat)
    ensures p > 0
  {
    if width == 0 then 1 else 256 * Power(width - 1)
  }

  /** `width` bytes, most significant first. */
  function BigEndian(value: nat, width: nat): (bytes: seq<Byte>)
    ensures |bytes| == width
  {
    if width == 0 then [] else BigEndian(value / 256, width - 1) + [value % 256]
  }

  function FromBigEndian(bytes: seq<Byte>): nat {
    if bytes == [] then 0 else FromBigEndian(bytes[..|bytes| - 1]) * 256 + bytes[|bytes| - 1]
  }

  lemma {:induction false} LoadAfterStore(value: nat, width: nat)
    requires value < Power(width)
    ensures FromBigEndian(BigEndian(value, width)) == value
  {
    if width > 0 {
      assert value / 256 < Power(width - 1);
      LoadAfterStore(value / 256, width - 1);
      assert BigEndian(value, width)[..width - 1] == BigEndian(value / 256, width - 1);
    }
  }

  lemma {:induction false} StoreAfterLoad(bytes: seq<Byte>)
    ensures FromBigEndian(bytes) < Power(|bytes|)
    ensures BigEndian(FromBigEndian(bytes), |bytes|) == bytes
  {
    if bytes != [] {
      var n := |bytes| - 1;
      StoreAfterLoad(bytes[..n]);
      assert (FromBigEndian(bytes[..n]) * 256 + bytes[n]) / 256 == FromBigEndian(bytes[..n]);
      assert bytes == bytes[..n] + [bytes[n]];
    }
  }

  lemma ShiftTwice(value: nat, b: nat)
    requires b > 0
    ensures value / 256 / b == value / (256 * b)
  {
    var q := value / 256;
    var s, t := q / b, q % b;
    assert q == b * s + t;
    assert (256 * b) * s == 256 * (b * s);
    Quotient(value, 256 * b, s, 256 * t + value % 256);
  }

  lemma {:induction false} ByteAt(value: nat, width: nat, i: nat)
    requires i < width
    ensures BigEndian(value, width)[i] == value / Power(width - 1 - i) % 256
  {
    if i < width - 1 {
      ByteAt(value / 256, width - 1, i);
      ShiftTwice(value, Power(width - 2 - i));
    }
  }

  /** store_u64: byte `index` is the value shifted right by 8 * (7 - index). */
  method StoreU64(value: nat) returns (output: seq<Byte>)
    ensures output == BigEndian(value, 8)
  {
    output := [];
    for index := 0 to 8
      invariant output == BigEndian(value, 8)[..index]
    {
      ByteAt(value, 8, index);
      output := output + [value / Power(7 - index) % 256];
    }
  }

  /** load_u64: shift in one byte after another. */
  method LoadU64(input: seq<Byte>) returns (value: nat)
    requires |input| == 8
    ensures value == FromBigEndian(input) < Power(8)
  {
    value := 0;
    for index := 0 to 8
      invariant value == FromBigEndian(input[..index])
    {
      assert input[..index + 1][..index] == input[..index];
      value := value * 256 + input[index];
    }
    assert input[..8] == input;
    StoreAfterLoad(input);
  }

  function LoadU32(input: seq<Byte>): (value: nat)
    requires |input| == 4
  {
    input[0] as int * 0x100_0000 + input[1] as int * 0x1_0000 + input[2] as int * 0x100 + input[3] as int
  }

  lemma LoadU32IsBigEndian(input: seq<Byte>)
    requires |input| == 4
    ensures LoadU32(input) == FromBigEndian(input)
  {
    assert input[..1][..0] == [];
    assert input[..2][..1] == input[..1];
    assert input[..3][..2] == input[..2];
    assert FromBigEndian(input[..1][..0]) == 0;
    var one, two, three := FromBigEndian(input[..1]), FromBigEndian(input[..2]), FromBigEndian(input[..3]);
    assert one == input[0] && two == one * 256 + input[1] && three == two * 256 + input[2];
  }

  function Pattern(index: nat): Byte {
    (index * 131 + 17) % 256
  }

  /** The pattern that base_payload writes behind the header. */
  function Body(size: nat): (p: seq<Byte>)
    requires size >= HEADER_SIZE
    ensures |p| == size - HEADER_SIZE
    ensures forall i :: 0 <= i < |p| ==> p[i] == Pattern(HEADER_SIZE + i)
  {
    if size == HEADER_SIZE then [] else Body(size - 1) + [Pattern(size - 1)]
  }

  /** base_payload followed by prepare_payload. */
  function Prepared(size: nat, connection: nat, message: nat): (p: seq<Byte>)
    requires size >= HEADER_SIZE
    ensures |p| == size
  {
    MAGIC + BigEndian(connection, 4) + BigEndian(message, 8) + Body(size)
  }

  /** validate_payload_body. */
  ghost predicate ValidBody(p: seq<Byte>) {
    && |p| >= HEADER_SIZE && p[..4] == MAGIC
    && forall i :: HEADER_SIZE <= i < |p| ==> p[i] == Pattern(i)
  }

  method ValidateBody(p: seq<Byte>) returns (ok: bool)
    requires |p| >= HEADER_SIZE
    ensures ok <==> ValidBody(p)
  {
    if p[..4] != MAGIC {
      return false;
    }
    for i := HEADER_SIZE to |p|
      invariant forall k :: HEADER_SIZE <= k < i ==> p[k] == Pattern(k)
    {
      if p[i] != Pattern(i) {
        return false;
      }
    }
    ok := true;
  }

  /** What is prepared is what validates and decodes, and nothing else does. */
  lemma DecodePrepared(p: seq<Byte>, connection: nat, message: nat)
    requires |p| >= HEADER_SIZE && connection < Power(4) && message < Power(8)
    ensures p == Prepared(|p|, connection, message) <==>
      ValidBody(p) && FromBigEndian(p[4..8]) == connection && FromBigEndian(p[8..16]) == message
  {
    LoadAfterStore(connection, 4);
    LoadAfterStore(message, 8);
    StoreAfterLoad(p[4..8]);
    StoreAfterLoad(p[8..16]);
    var q := Prepared(|p|, connection, message);
    assert q[..4] == MAGIC && q[4..8] == BigEndian(connection, 4) && q[8..16] == BigEndian(message, 8);
    assert forall i :: HEADER_SIZE <= i < |q| ==> q[i] == Pattern(i);
    assert p == p[..4] + p[4..8] + p[8..16] + p[16..];
    assert q == q[..4] + q[4..8] + q[8..16] + q[16..];
    if ValidBody(p) {
      assert p[16..] == q[16..];
    }
  }
}
