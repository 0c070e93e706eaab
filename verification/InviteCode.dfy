/** The invite-code encoder: bytes pushed through a 32-bit accumulator, five bits taken out at a time. */
module InviteCode {

  /** The digits' alphabet: 0 to 9, then A to Z without I, L, O and U. */
  function Symbol(d: nat): char
    requires d < 32
  {
    if d < 10 then '0' + d as char
    else if d < 18 then 'A' + (d - 10) as char
    else if d < 20 then 'J' + (d - 18) as char
    else if d < 22 then 'M' + (d - 20) as char
    else if d < 27 then 'P' + (d - 22) as char
    else 'V' + (d - 27) as char
  }

  lemma SymbolsSpellTheAlphabet()
    ensures seq(32, d requires 0 <= d < 32 => Symbol(d)) == "0123456789ABCDEFGHJKMNPQRSTVWXYZ"
  {
  }

  type Byte = b: int | 0 <= b < 256

  /** The big-endian number that the bytes spell. */
  function Number(bytes: seq<Byte>): nat {
    if bytes == [] then 0 else Number(bytes[..|bytes| - 1]) * 256 + bytes[|bytes| - 1]
  }

  predicate InAlphabet(c: char) {
    '0' <= c <= '9' || 'A' <= c <= 'H' || 'J' <= c <= 'K' || 'M' <= c <= 'N' || 'P' <= c <= 'T' || 'V' <= c <= 'Z'
  }

  /** The digit that a character of the alphabet stands for. */
  function Digit(c: char): (d: nat)
    requires InAlphabet(c)
    ensures d < 32 && Symbol(d) == c
  {
    if c <= '9' then (c - '0') as nat
    else if c <= 'H' then (c - 'A') as nat + 10
    else if c <= 'K' then (c - 'J') as nat + 18
    else if c <= 'N' then (c - 'M') as nat + 20
    else if c <= 'T' then (c - 'P') as nat + 22
    else (c - 'V') as nat + 27
  }

  lemma SymbolIsRead(d: nat)
    requires d < 32
    ensures InAlphabet(Symbol(d)) && Digit(Symbol(d)) == d
  {
  }

  predicate IsCode(code: string) {
    forall k :: 0 <= k < |code| ==> InAlphabet(code[k])
  }

  /** The big-endian base-32 number that a code spells. */
  function Value(code: string): nat
    requires IsCode(code)
  {
    if code == "" then 0 else Value(code[..|code| - 1]) * 32 + Digit(code[|code| - 1])
  }

  const WORD: int := 0x1_0000_0000

  function ShiftRight(x: nat, bits: nat): nat {
    if bits == 0 then x else ShiftRight(x, bits - 1) / 2
  }

  function PowerOfTwo(bits: nat): (p: nat)
    ensures p > 0
  {
    if bits == 0 then 1 else 2 * PowerOfTwo(bits - 1)
  }

  /** The accumulator `word` holds the last 32 bits of `number`, of which all but the lowest `bits`
      have been written out as `prefix`. */
  predicate Pending(number: nat, prefix: nat, bits: nat, word: nat) {
    ShiftRight(number, bits) == prefix && word == number % WORD
  }

  lemma {:induction false} ShiftTwice(x: nat, a: nat, b: nat)
    ensures ShiftRight(x, a + b) == ShiftRight(ShiftRight(x, a), b)
  {
    if b > 0 {
      ShiftTwice(x, a, b - 1);
    }
  }

  lemma ShiftByFive(x: nat)
    ensures ShiftRight(x, 5) == x / 32
  {
    assert ShiftRight(x, 1) == x / 2;
    assert ShiftRight(x, 3) == x / 8;
  }

  lemma ShiftByEight(x: nat)
    ensures ShiftRight(x, 8) == x / 256
  {
    ShiftByFive(x);
    assert ShiftRight(x, 7) == x / 128;
  }

  lemma RemainderOf(x: nat, m: nat, q: nat, r: nat)
    requires m > 0 && x == m * q + r && r < m
    ensures x % m == r
  {
    var k := q - x / m;
    assert m * k == x % m - r;
    assert k >= 1 ==> m * k >= m;
    assert k <= -1 ==> m * k + m <= 0;
  }

  lemma Regroup(c: nat, m: nat, q: nat)
    ensures (c * m) * q == c * (m * q)
  {
  }

  lemma Divide(x: nat, n: nat) returns (q: nat, r: nat)
    requires n > 0
    ensures x == n * q + r && r < n && x % n == r
  {
    q, r := x / n, x % n;
  }

  lemma HalfOf(t: nat, r: nat)
    ensures (2 * t + r) / 2 == t + r / 2
  {
  }

  lemma HalfOfRemainder(x: nat, m: nat)
    requires m > 0
    ensures (x % (2 * m)) / 2 == (x / 2) % m
  {
    var q, r := Divide(x, 2 * m);
    Regroup(2, m, q);
    HalfOf(m * q, r);
    RemainderOf(x / 2, m, q, r / 2);
  }

  lemma WordIsPower()
    ensures PowerOfTwo(32) == WORD
  {
    assert PowerOfTwo(8) == 256;
    assert PowerOfTwo(16) == 65536;
    assert PowerOfTwo(24) == 16777216;
  }

  /** Wrapping at 32 bits leaves the low bits: shifted right, the word and the number agree on as
      many bits as the word has left. */
  lemma {:induction false} WordAgrees(number: nat, bits: nat)
    requires bits <= 32
    ensures ShiftRight(number % WORD, bits) == ShiftRight(number, bits) % PowerOfTwo(32 - bits)
  {
    if bits == 0 {
      WordIsPower();
    } else {
      WordAgrees(number, bits - 1);
      HalfOfRemainder(ShiftRight(number, bits - 1), PowerOfTwo(32 - bits));
    }
  }

  lemma LastFiveOf(t: nat, r: nat)
    ensures (32 * t + r) % 32 == r % 32
  {
  }

  lemma LastFiveBits(x: nat, m: nat)
    requires m > 0
    ensures (x % (32 * m)) % 32 == x % 32
  {
    var q, r := Divide(x, 32 * m);
    Regroup(32, m, q);
    LastFiveOf(m * q, r);
  }

  /** Taking five more bits off the wrapped word gives the true digit. */
  lemma NextDigit(number: nat, prefix: nat, bits: nat, word: nat)
    requires 5 <= bits <= 12 && Pending(number, prefix, bits, word)
    ensures Pending(number, prefix * 32 + ShiftRight(word, bits - 5) % 32, bits - 5, word)
  {
    var k := bits - 5;
    WordAgrees(number, k);
    ShiftTwice(number, k, 5);
    ShiftByFive(ShiftRight(number, k));
    var m := PowerOfTwo(27 - k);
    assert PowerOfTwo(29 - k) == 4 * m;
    assert PowerOfTwo(31 - k) == 16 * m;
    LastFiveBits(ShiftRight(number, k), m);
  }

  lemma WrapsTo(over: nat, low: nat)
    requires low < WORD
    ensures (WORD * over + low) % WORD == low
  {
  }

  lemma WordShifts(q: nat, word: nat, b: Byte)
    requires word < WORD
    ensures ((WORD * q + word) * 256 + b) % WORD == word * 256 % WORD + b
  {
    var lost, kept := word / 16777216, word % 16777216;
    assert word == 16777216 * lost + kept;
    WrapsTo(lost, kept * 256);
    WrapsTo(256 * q + lost, kept * 256 + b);
  }

  /** Shifting in a byte drops the top eight bits of the word and nothing that is still pending. */
  lemma PushByte(number: nat, prefix: nat, bits: nat, word: nat, b: Byte)
    requires Pending(number, prefix, bits, word)
    ensures Pending(number * 256 + b, prefix, bits + 8, word * 256 % WORD + b)
  {
    ShiftTwice(number * 256 + b, 8, bits);
    ShiftByEight(number * 256 + b);
    WordShifts(number / WORD, word, b);
  }

  lemma AppendDigit(code: string, d: nat)
    requires IsCode(code) && d < 32
    ensures IsCode(code + [Symbol(d)]) && Value(code + [Symbol(d)]) == Value(code) * 32 + d
  {
    SymbolIsRead(d);
    assert (code + [Symbol(d)])[..|code|] == code;
  }

  /** Any number of bytes: the code spells their number in base 32, less the bits that do not fill a
      last digit. `value` is a 32-bit word: the left shift wraps. */
  method GenerateInviteCode(bytes: seq<Byte>) returns (out: string)
    ensures IsCode(out) && |out| == 8 * |bytes| / 5
    ensures Value(out) == ShiftRight(Number(bytes), 8 * |bytes| % 5)
  {
    var bits := 0;
    var value := 0;
    out := "";
    for k := 0 to |bytes|
      invariant 0 <= bits < 5 && 5 * |out| + bits == 8 * k
      invariant IsCode(out) && value >= 0
      invariant Pending(Number(bytes[..k]), Value(out), bits, value)
    {
      assert bytes[..k + 1][..k] == bytes[..k];
      PushByte(Number(bytes[..k]), Value(out), bits, value, bytes[k]);
      value := value * 256 % WORD + bytes[k];
      bits := bits + 8;
      while bits >= 5
        invariant 0 <= bits <= 12 && 5 * |out| + bits == 8 * (k + 1)
        invariant IsCode(out) && value >= 0
        invariant Pending(Number(bytes[..k + 1]), Value(out), bits, value)
      {
        NextDigit(Number(bytes[..k + 1]), Value(out), bits, value);
        bits := bits - 5;
        AppendDigit(out, ShiftRight(value, bits) % 32);
        out := out + [Symbol(ShiftRight(value, bits) % 32)];
      }
    }
    assert bytes[..|bytes|] == bytes;
  }

  // ---- decoding -------------------------------------------------------------------------------------

  /** The bytes of a number, most significant first. */
  function Bytes(number: nat, count: nat): (bytes: seq<Byte>)
    ensures |bytes| == count
  {
    if count == 0 then [] else Bytes(number / 256, count - 1) + [number % 256]
  }

  lemma {:induction false} BytesOfNumber(bytes: seq<Byte>)
    ensures Bytes(Number(bytes), |bytes|) == bytes
  {
    if bytes != [] {
      BytesOfNumber(bytes[..|bytes| - 1]);
    }
  }

  /** The five random bytes can be read back from the eight characters. */
  method InviteCodeOfFive(bytes: seq<Byte>) returns (code: string)
    requires |bytes| == 5
    ensures |code| == 8 && IsCode(code) && Bytes(Value(code), 5) == bytes
  {
    code := GenerateInviteCode(bytes);
    BytesOfNumber(bytes);
  }
}
