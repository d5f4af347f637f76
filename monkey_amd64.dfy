/** The amd64 machine-code builders of the gomonkey patcher
    (vendor/github.com/1pkg/gomonkey/monkey_amd64.go): a jump through a
    function value, a call to a function body wrapped in caller-supplied
    code, and padding with NOP instructions. */
module Gomonkey {

  type uintptr = bv64
  type byte = bv8

  /** Go's `byte(x)`: the low eight bits. */
  function Low(x: uintptr): byte {
    (x & 0xFF) as byte
  }

  /** `movabs rdx, to`: opcode 0x48 0xBA and the address, least significant
      byte first. Both builders start with it. */
  function MovabsRdx(to: uintptr): seq<byte> {
    [0x48, 0xBA,
     Low(to), Low(to >> 8), Low(to >> 16), Low(to >> 24),
     Low(to >> 32), Low(to >> 40), Low(to >> 48), Low(to >> 56)]
  }

  /** The address stored little-endian in eight bytes. */
  function LittleEndian(s: seq<byte>): uintptr
    requires |s| == 8
  {
    (s[0] as uintptr) | ((s[1] as uintptr) << 8) | ((s[2] as uintptr) << 16) | ((s[3] as uintptr) << 24) |
    ((s[4] as uintptr) << 32) | ((s[5] as uintptr) << 40) | ((s[6] as uintptr) << 48) | ((s[7] as uintptr) << 56)
  }

  /** `movabs rdx, to; jmp QWORD PTR [rdx]`. */
  function JmpToFunctionValue(to: uintptr): (r: seq<byte>)
    ensures |r| == 12
    ensures r[0] == 0x48 && r[1] == 0xBA && r[10] == 0xFF && r[11] == 0x22
  {
    MovabsRdx(to) + [0xFF, 0x22]
  }

  /** Bytes 2 to 9 of the jump are the address shifted right by 8k, truncated
      to a byte, for k = 0 to 7. */
  lemma JmpAddressBytes(to: uintptr, k: bv64)
    requires k < 8
    ensures JmpToFunctionValue(to)[2 + k as int] == Low(to >> (8 * k))
  {
    if k == 0 {
    } else if k == 1 {
    } else if k == 2 {
    } else if k == 3 {
    } else if k == 4 {
    } else if k == 5 {
    } else if k == 6 {
    } else {
    }
  }

  /** The load, the caller's `before` bytes, `call QWORD PTR [rdx]`, then
      the caller's `after` bytes. `join` (not part of this model) is taken
      to concatenate its arguments in order. */
  function CallFunctionBody(to: uintptr, before: seq<byte>, after: seq<byte>): (r: seq<byte>)
    ensures |r| == 12 + |before| + |after|
    ensures r[..10] == JmpToFunctionValue(to)[..10]
    ensures r[10..10 + |before|] == before
    ensures r[10 + |before|] == 0xFF && r[11 + |before|] == 0x12
    ensures r[12 + |before|..] == after
  {
    MovabsRdx(to) + before + [0xFF, 0x12] + after
  }

  /** The jump's ten-byte load decodes back to the target address. */
  lemma JmpAddressRoundTrip(to: uintptr)
    ensures LittleEndian(JmpToFunctionValue(to)[2..10]) == to
  {
    var s := JmpToFunctionValue(to)[2..10];
    assert s == MovabsRdx(to)[2..];
  }

  /** Different targets give different jumps. */
  lemma JmpInjective(a: uintptr, b: uintptr)
    requires JmpToFunctionValue(a) == JmpToFunctionValue(b)
    ensures a == b
  {
    JmpAddressRoundTrip(a);
    JmpAddressRoundTrip(b);
  }

  /** The call's load decodes back to the target address too, whatever the
      caller's bytes are. */
  lemma CallAddressRoundTrip(to: uintptr, before: seq<byte>, after: seq<byte>)
    ensures LittleEndian(CallFunctionBody(to, before, after)[2..10]) == to
  {
    var r := CallFunctionBody(to, before, after);
    assert r[2..10] == r[..10][2..10] == JmpToFunctionValue(to)[..10][2..10];
    assert JmpToFunctionValue(to)[..10][2..10] == JmpToFunctionValue(to)[2..10];
    JmpAddressRoundTrip(to);
  }

  const Nop: byte := 0x90

  /** A buffer of exactly `size` bytes: `body` copied in as far as it fits
      (Go's `copy`), the rest filled with NOP. */
  method PadWithNope(body: seq<byte>, size: nat) returns (padBody: array<byte>)
    ensures fresh(padBody)
    ensures padBody.Length == size
    ensures forall i :: 0 <= i < size && i < |body| ==> padBody[i] == body[i]
    ensures forall i :: |body| <= i < size ==> padBody[i] == Nop
    ensures |body| >= size ==> padBody[..] == body[..size]
  {
    padBody := new byte[size];
    var n := if |body| < size then |body| else size;
    forall i | 0 <= i < n {
      padBody[i] := body[i];
    }
    var i := |body|;
    while i < size
      invariant |body| <= i
      invariant |body| <= size ==> i <= size
      invariant forall k :: 0 <= k < n ==> padBody[k] == body[k]
      invariant forall k :: |body| <= k < i && k < size ==> padBody[k] == Nop
    {
      padBody[i] := Nop;
      i := i + 1;
    }
  }
}
