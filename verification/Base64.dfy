/** Base 64 of section 4 of RFC 4648: the encoding by groups of three octets, its inverse, and the encoder that
    works bit by bit on a 32-bit accumulator. */
module Base64 {
  import opened Wrappers

  type Octet = x: int | 0 <= x < 256

  const UPPER := "ABCDEFGHIJKLMNOPQRSTUVWXYZ"
  const LOWER := "abcdefghijklmnopqrstuvwxyz"
  const TABLE := UPPER + LOWER + "0123456789+/"

  const PAD := '='

  const UINT32 := 0x1_0000_0000

  /** Table 1 of the RFC, by ranges. */
  function Letter(k: nat): (c: char)
    requires k < 64
    ensures c != PAD
  {
    if k < 26 then 'A' + k as char
    else if k < 52 then 'a' + (k - 26) as char
    else if k < 62 then '0' + (k - 52) as char
    else if k == 62 then '+' else '/'
  }

  function Digit(c: char): Option<nat> {
    if 'A' <= c <= 'Z' then Some((c - 'A') as nat)
    else if 'a' <= c <= 'z' then Some((c - 'a') as nat + 26)
    else if '0' <= c <= '9' then Some((c - '0') as nat + 52)
    else if c == '+' then Some(62)
    else if c == '/' then Some(63)
    else None
  }

  lemma DigitInvertsLetter(k: nat)
    requires k < 64
    ensures Digit(Letter(k)) == Some(k)
  {
  }

  lemma LetterInvertsDigit(c: char)
    requires Digit(c).Some?
    ensures Digit(c).value < 64 && Letter(Digit(c).value) == c
  {
  }

  lemma TableIsTable1(k: nat)
    requires k < 64
    ensures |TABLE| == 64 && TABLE[k] == Letter(k)
  {
    if k < 26 { assert UPPER[k] == Letter(k); } else if k < 52 { assert LOWER[k - 26] == Letter(k); }
  }

  /** Three octets as four sextets. */
  function Group(a: Octet, b: Octet, c: Octet): string {
    [Letter(a / 4), Letter(a % 4 * 16 + b / 16), Letter(b % 16 * 4 + c / 64), Letter(c % 64)]
  }

  /** The final group of one or two octets is padded with zero bits, and the output with `=`. */
  function Encode(s: seq<Octet>): string
    decreases |s|
  {
    if |s| == 0 then []
    else if |s| == 1 then Group(s[0], 0, 0)[..2] + [PAD, PAD]
    else if |s| == 2 then Group(s[0], s[1], 0)[..3] + [PAD]
    else Group(s[0], s[1], s[2]) + Encode(s[3..])
  }

  function Octets(w: nat, x: nat, y: nat, z: nat): seq<Octet>
    requires w < 64 && x < 64 && y < 64 && z < 64
  {
    [w * 4 + x / 16, x % 16 * 16 + y / 4, y % 4 * 64 + z]
  }

  /** The strict decoder: any other character, length or stray padding bit is an error. */
  function Decode(t: string): Option<seq<Octet>>
    decreases |t|
  {
    if |t| == 0 then Some([])
    else if |t| < 4 || Digit(t[0]).None? || Digit(t[1]).None? then None
    else
      var w, x := Digit(t[0]).value, Digit(t[1]).value;
      if t[2..] == [PAD, PAD] then
        if x % 16 == 0 then Some(Octets(w, x, 0, 0)[..1]) else None
      else if Digit(t[2]).None? then None
      else
        var y := Digit(t[2]).value;
        if t[3..] == [PAD] then
          if y % 4 == 0 then Some(Octets(w, x, y, 0)[..2]) else None
        else if Digit(t[3]).None? then None
        else
          var rest := Decode(t[4..]);
          if rest.None? then None else Some(Octets(w, x, y, Digit(t[3]).value) + rest.value)
  }

  lemma OctetsOfSextets(a: Octet, b: Octet, c: Octet)
    ensures Octets(a / 4, a % 4 * 16 + b / 16, b % 16 * 4 + c / 64, c % 64) == [a, b, c]
  {
    var x, y := a % 4 * 16 + b / 16, b % 16 * 4 + c / 64;
    assert x / 16 == a % 4 && x % 16 == b / 16;
    assert y / 4 == b % 16 && y % 4 == c / 64;
  }

  lemma SextetsOfOctets(w: nat, x: nat, y: nat, z: nat)
    requires w < 64 && x < 64 && y < 64 && z < 64
    ensures var o := Octets(w, x, y, z);
            Group(o[0], o[1], o[2]) == [Letter(w), Letter(x), Letter(y), Letter(z)]
  {
    var a, b, c := w * 4 + x / 16, x % 16 * 16 + y / 4, y % 4 * 64 + z;
    assert a / 4 == w && a % 4 == x / 16 && b / 16 == x % 16;
    assert b % 16 == y / 4 && c / 64 == y % 4 && c % 64 == z;
  }

  lemma GroupDigits(a: Octet, b: Octet, c: Octet)
    ensures var g := Group(a, b, c);
            && Digit(g[0]) == Some(a / 4) && Digit(g[1]) == Some(a % 4 * 16 + b / 16)
            && Digit(g[2]) == Some(b % 16 * 4 + c / 64) && Digit(g[3]) == Some(c % 64)
  {
    DigitInvertsLetter(a / 4);
    DigitInvertsLetter(a % 4 * 16 + b / 16);
    DigitInvertsLetter(b % 16 * 4 + c / 64);
    DigitInvertsLetter(c % 64);
  }

  lemma DecodeOne(a: Octet)
    ensures Decode(Encode([a])) == Some([a])
  {
    GroupDigits(a, 0, 0);
    OctetsOfSextets(a, 0, 0);
    var t, x := Encode([a]), a % 4 * 16;
    assert t == [Letter(a / 4), Letter(x), PAD, PAD];
    assert t[2..] == [PAD, PAD] && x % 16 == 0;
    assert Octets(a / 4, x, 0, 0)[..1] == [a];
  }

  lemma DecodeTwo(a: Octet, b: Octet)
    ensures Decode(Encode([a, b])) == Some([a, b])
  {
    GroupDigits(a, b, 0);
    OctetsOfSextets(a, b, 0);
    var t, x, y := Encode([a, b]), a % 4 * 16 + b / 16, b % 16 * 4;
    assert t == [Letter(a / 4), Letter(x), Letter(y), PAD];
    assert t[2] != PAD && t[3..] == [PAD] && y % 4 == 0;
    assert Octets(a / 4, x, y, 0)[..2] == [a, b];
  }

  lemma DecodeGroup(a: Octet, b: Octet, c: Octet, t: string)
    requires Decode(t).Some?
    ensures Decode(Group(a, b, c) + t) == Some([a, b, c] + Decode(t).value)
  {
    GroupDigits(a, b, c);
    OctetsOfSextets(a, b, c);
    var whole := Group(a, b, c) + t;
    assert whole[4..] == t && whole[2] != PAD && whole[3] != PAD;
  }

  /** Decoding undoes encoding, for every sequence of octets. */
  lemma {:induction false} DecodeInvertsEncode(s: seq<Octet>)
    ensures Decode(Encode(s)) == Some(s)
    decreases |s|
  {
    if |s| == 1 {
      assert s == [s[0]];
      DecodeOne(s[0]);
    } else if |s| == 2 {
      assert s == [s[0], s[1]];
      DecodeTwo(s[0], s[1]);
    } else if |s| > 2 {
      var rest := s[3..];
      DecodeInvertsEncode(rest);
      DecodeGroup(s[0], s[1], s[2], Encode(rest));
      assert Encode(s) == Group(s[0], s[1], s[2]) + Encode(rest);
      assert s == [s[0], s[1], s[2]] + rest;
    }
  }

  lemma EncodeOne(t: string)
    requires Decode(t).Some? && |t| >= 4 && t[2..] == [PAD, PAD]
    ensures Encode(Decode(t).value) == t
  {
    var w, x := Digit(t[0]).value, Digit(t[1]).value;
    LetterInvertsDigit(t[0]);
    LetterInvertsDigit(t[1]);
    SextetsOfOctets(w, x, 0, 0);
    var o := Decode(t).value;
    assert o == [Octets(w, x, 0, 0)[0]];
    assert Group(o[0], 0, 0)[..2] == [t[0], t[1]];
    assert t == [t[0], t[1]] + t[2..];
  }

  lemma EncodeTwo(t: string)
    requires Decode(t).Some? && |t| >= 4 && t[2..] != [PAD, PAD] && t[3..] == [PAD]
    ensures Encode(Decode(t).value) == t
  {
    var w, x, y := Digit(t[0]).value, Digit(t[1]).value, Digit(t[2]).value;
    LetterInvertsDigit(t[0]);
    LetterInvertsDigit(t[1]);
    LetterInvertsDigit(t[2]);
    SextetsOfOctets(w, x, y, 0);
    var o := Decode(t).value;
    assert o == [Octets(w, x, y, 0)[0], Octets(w, x, y, 0)[1]];
    assert Group(o[0], o[1], 0)[..3] == [t[0], t[1], t[2]];
    assert t == [t[0], t[1], t[2]] + t[3..];
  }

  lemma EncodeGroup(o: seq<Octet>, rest: seq<Octet>)
    requires |o| == 3
    ensures Encode(o + rest) == Group(o[0], o[1], o[2]) + Encode(rest)
  {
    assert (o + rest)[3..] == rest;
  }

  /** The encoding is canonical: whatever decodes is the encoding of what it decodes to. */
  lemma {:induction false} EncodeInvertsDecode(t: string)
    requires Decode(t).Some?
    ensures Encode(Decode(t).value) == t
    decreases |t|
  {
    if |t| > 0 {
      if t[2..] == [PAD, PAD] {
        EncodeOne(t);
      } else if t[3..] == [PAD] {
        EncodeTwo(t);
      } else {
        var rest := t[4..];
        WholeGroup(t);
        EncodeInvertsDecode(rest);
        var o := Decode(t).value[..3];
        EncodeGroup(o, Decode(rest).value);
        assert Decode(t).value == o + Decode(rest).value;
      }
    }
  }

  lemma WholeGroup(t: string)
    requires Decode(t).Some? && |t| >= 4 && t[2..] != [PAD, PAD] && t[3..] != [PAD]
    ensures Decode(t[4..]).Some? && |Decode(t).value| >= 3
    ensures var o := Decode(t).value;
            t == Group(o[0], o[1], o[2]) + t[4..] && o[3..] == Decode(t[4..]).value
  {
    var w, x, y, z := Digit(t[0]).value, Digit(t[1]).value, Digit(t[2]).value, Digit(t[3]).value;
    LetterInvertsDigit(t[0]);
    LetterInvertsDigit(t[1]);
    LetterInvertsDigit(t[2]);
    LetterInvertsDigit(t[3]);
    SextetsOfOctets(w, x, y, z);
    assert Decode(t).value == Octets(w, x, y, z) + Decode(t[4..]).value;
    assert t == [t[0], t[1], t[2], t[3]] + t[4..];
  }

  /** Four characters for each group of three octets begun. */
  lemma {:induction false} EncodedLength(s: seq<Octet>)
    ensures |Encode(s)| == (|s| + 2) / 3 * 4
    decreases |s|
  {
    if |s| > 2 {
      var rest := s[3..];
      EncodedLength(rest);
      assert |Encode(s)| == 4 + |Encode(rest)|;
      assert (|s| + 2) / 3 == (|rest| + 2) / 3 + 1;
    }
  }

  lemma {:induction false} EncodedInFours(s: seq<Octet>)
    ensures |Encode(s)| % 4 == 0
    decreases |s|
  {
    if |s| > 2 {
      EncodedInFours(s[3..]);
      assert |Encode(s)| == 4 + |Encode(s[3..])|;
    }
  }

  function Pow2(n: nat): (r: nat)
    ensures r > 0
  {
    if n == 0 then 1 else 2 * Pow2(n - 1)
  }

  // The accumulator after another octet: high bits are dropped by the 32-bit width, never masked.
  function Accumulate(value: nat, c: Octet): (r: nat) {
    (value * 256 % UINT32 + c) % UINT32
  }

  // The low octets of the accumulator that the current group still needs.
  predicate Remembers(value: nat, input: seq<Octet>, i: nat, n: nat)
    requires n <= i <= |input| && n <= 3
  {
    && value < UINT32
    && (n == 1 ==> value % 256 == input[i - 1] as int)
    && (n == 2 ==> value % 65536 == Join(input[i - 2], input[i - 1]))
    && (n == 3 ==> value % 16777216 == Join(input[i - 3], input[i - 2]) * 256 + input[i - 1] as int)
  }

  function Join(a: Octet, b: Octet): int { a as int * 256 + b as int }

  lemma Multiple(d: int, m: int)
    requires m > 0
    ensures (d > 0 ==> d * m >= m) && (d < 0 ==> d * m <= -m)
  {
  }

  lemma Unique(x: int, q: int, r: int, m: int)
    requires m > 0 && x == q * m + r && 0 <= r < m
    ensures x % m == r && x / m == q
  {
    var d := x / m - q;
    assert x == x / m * m + x % m;
    assert d * m == r - x % m;
    Multiple(d, m);
  }

  // The 32-bit width drops a multiple of 2^32, and nothing carries into it.
  lemma Kept(value: nat, c: Octet)
    ensures var lost := value * 256 / UINT32;
            Accumulate(value, c) == value * 256 + c - lost * UINT32
  {
    var lost := value * 256 / UINT32;
    var kept := value * 256 - lost * UINT32;
    assert kept == 256 * (value - lost * 16777216);
    assert kept < UINT32;
  }

  // So the low octets survive.
  lemma AccumulateRemembers(value: nat, input: seq<Octet>, i: nat, n: nat)
    requires n <= i < |input| && n <= 2 && Remembers(value, input, i, n)
    ensures Remembers(Accumulate(value, input[i]), input, i + 1, n + 1)
  {
    var c, lost := input[i], value * 256 / UINT32;
    var next := Accumulate(value, c);
    Kept(value, c);
    if n == 0 {
      Unique(next, value - lost * 16777216, c, 256);
    } else if n == 1 {
      Unique(next, value / 256 - lost * 65536, Join(input[i - 1], c), 65536);
    } else {
      Unique(next, value / 65536 - lost * 256, Join(input[i - 2], input[i - 1]) * 256 + c as int, 16777216);
    }
  }

  // What is still to be written when `emitted` characters of the group that starts at `start` are out.
  function Remaining(input: seq<Octet>, start: nat, emitted: nat): string
    requires start <= |input|
  {
    if emitted <= |Encode(input[start..])| then Encode(input[start..])[emitted..] else []
  }

  lemma FirstSextet(value: nat, a: Octet)
    requires value % 256 == a as int
    ensures value / 4 % 64 == a / 4
  {
    var q := value / 256;
    assert value / 4 == 64 * q + a / 4;
  }

  lemma SecondSextet(value: nat, a: Octet, b: Octet)
    requires value % 65536 == Join(a, b)
    ensures value / 16 % 64 == a % 4 * 16 + b / 16
  {
    var q := value / 65536;
    assert value / 16 == 4096 * q + 16 * a + b / 16;
    Unique(value / 16, 64 * q + a / 4, a % 4 * 16 + b / 16, 64);
  }

  lemma ThirdSextet(value: nat, a: Octet, b: Octet, c: Octet)
    requires value % 16777216 == Join(a, b) * 256 + c as int
    ensures value / 64 % 64 == b % 16 * 4 + c / 64
  {
    var q := value / 16777216;
    assert value / 64 == 262144 * q + 1024 * a + 4 * b + c / 64;
    Unique(value / 64, 4096 * q + 16 * a + b / 16, b % 16 * 4 + c / 64, 64);
  }

  lemma FourthSextet(value: nat, a: Octet, b: Octet, c: Octet)
    requires value % 16777216 == Join(a, b) * 256 + c as int
    ensures value % 64 == c % 64
  {
    var q := value / 16777216;
    Unique(value, 262144 * q + 1024 * a + 4 * b + c / 64, c % 64, 64);
  }

  lemma Next(input: seq<Octet>, start: nat, emitted: nat)
    requires start <= |input| && emitted < |Encode(input[start..])|
    ensures Remaining(input, start, emitted) == [Encode(input[start..])[emitted]] + Remaining(input, start, emitted + 1)
  {
  }

  lemma GroupLetters(s: seq<Octet>)
    requires |s| > 0
    ensures |Encode(s)| >= 4 && Encode(s)[0] == Letter(s[0] / 4)
    ensures |s| > 1 ==> Encode(s)[1] == Letter(s[0] % 4 * 16 + s[1] / 16)
    ensures |s| > 2 ==> Encode(s)[2] == Letter(s[1] % 16 * 4 + s[2] / 64) && Encode(s)[3] == Letter(s[2] % 64)
  {
  }

  // The sextet a group of octets determines once its newest octet is in the accumulator.
  lemma Sextet(value: nat, s: seq<Octet>, n: nat, emitted: nat)
    requires n < |s| && n <= emitted && n < 3 && emitted <= (if n == 2 then 3 else n)
    requires Remembers(value, s, n + 1, n + 1)
    ensures |Encode(s)| >= 4
    ensures Encode(s)[emitted] == Letter(value / Pow2(2 + 2 * n - 6 * (emitted - n)) % 64)
  {
    GroupLetters(s);
    Widths();
    if n == 0 {
      FirstSextet(value, s[0]);
    } else if n == 1 {
      SecondSextet(value, s[0], s[1]);
    } else if emitted == 2 {
      ThirdSextet(value, s[0], s[1], s[2]);
    } else {
      FourthSextet(value, s[0], s[1], s[2]);
    }
  }

  // Shifting by `bits` is dividing by this.
  function Shift(bits: int): (r: nat)
    ensures r > 0
  {
    if bits < 0 then 1 else Pow2(bits)
  }

  // The table's character for the six bits of the accumulator above the lowest `bits`.
  function Character(value: nat, bits: int): char {
    TABLE[value / Shift(bits) % 64]
  }

  // The next character of the group that starts at `start`, once n + 1 of its octets are in.
  lemma Emits(value: nat, input: seq<Octet>, start: nat, n: nat, emitted: nat)
    requires start + n < |input| && n < 3 && n <= emitted <= (if n == 2 then 3 else n)
    requires Remembers(value, input, start + n + 1, n + 1)
    ensures Remaining(input, start, emitted) ==
            [Character(value, 2 + 2 * n - 6 * (emitted - n))] + Remaining(input, start, emitted + 1)
  {
    var rest := input[start..];
    assert forall j | start <= j < |input| :: input[j] == rest[j - start];
    Sextet(value, rest, n, emitted);
    Next(input, start, emitted);
    TableIsTable1(value / Shift(2 + 2 * n - 6 * (emitted - n)) % 64);
  }

  lemma Widths()
    ensures Pow2(0) == 1 && Pow2(2) == 4 && Pow2(4) == 16 && Pow2(6) == 64
  {
  }

  lemma GroupDone(input: seq<Octet>, start: nat)
    requires start + 3 <= |input|
    ensures Remaining(input, start, 4) == Remaining(input, start + 3, 0)
  {
    assert input[start..][3..] == input[start + 3..];
    assert Encode(input[start..])[4..] == Encode(input[start + 3..]);
  }

  // The sextet that zero bits complete, and the padding after it.
  lemma Flushes(value: nat, input: seq<Octet>, start: nat, n: nat)
    requires |input| == start + n && 0 < n < 3 && Remembers(value, input, |input|, n)
    ensures Remaining(input, start, n) ==
            [Character(value * 256 % UINT32, 2 * n + 2)] + (if n == 1 then [PAD, PAD] else [PAD])
  {
    var rest := input[start..];
    Widths();
    assert |Encode(rest)| == 4;
    Next(input, start, n);
    assert value * 256 % UINT32 == Accumulate(value, 0);
    AccumulateRemembers(value, input + [0], |input|, n);
    if n == 1 {
      SecondSextet(value * 256 % UINT32, rest[0], 0);
    } else {
      ThirdSextet(value * 256 % UINT32, rest[0], rest[1], 0);
    }
    TableIsTable1(value * 256 % UINT32 / Shift(2 * n + 2) % 64);
  }

  lemma Moved(written: string, c: char, left: string)
    ensures written + ([c] + left) == written + [c] + left
  {
  }

  // The inner loop: all sextets that the newest octet completes.
  method EmitSextets(value: nat, pending: int, output: string, ghost input: seq<Octet>, ghost start: nat, ghost n: nat)
    returns (longer: string, bits: int)
    requires start + n < |input| && n < 3 && pending == 2 + 2 * n && Remembers(value, input, start + n + 1, n + 1)
    ensures bits == if n == 2 then -6 else 2 * n - 4
    ensures longer + (if n == 2 then Remaining(input, start + 3, 0) else Remaining(input, start, n + 1))
            == output + Remaining(input, start, n)
  {
    longer, bits := output, pending;
    ghost var emitted, left := n, Remaining(input, start, n);
    ghost var whole := output + left;
    while bits >= 0
      invariant n <= emitted <= (if n == 2 then 4 else n + 1) && bits == 2 + 2 * n - 6 * (emitted - n)
      invariant left == Remaining(input, start, emitted) && longer + left == whole
      decreases bits
    {
      Emits(value, input, start, n, emitted);
      left := Remaining(input, start, emitted + 1);
      Moved(longer, Character(value, bits), left);
      longer := longer + [Character(value, bits)];
      bits, emitted := bits - 6, emitted + 1;
    }
    if n == 2 { GroupDone(input, start); }
  }

  // The sextet that zero bits complete, and the padding.
  method Flush(value: nat, bits: int, output: string, ghost input: seq<Octet>, ghost start: nat, ghost n: nat)
    returns (whole: string)
    requires |input| == start + n && n < 3 && bits == 2 * n - 6 && Remembers(value, input, |input|, n)
    requires (|output| + |Remaining(input, start, n)|) % 4 == 0
    ensures whole == output + Remaining(input, start, n)
  {
    whole := output;
    ghost var left := Remaining(input, start, n);
    ghost var all := output + left;
    if bits > -6 {
      Flushes(value, input, start, n);
      left := if n == 1 then [PAD, PAD] else [PAD];
      Moved(whole, Character(value * 256 % UINT32, bits + 8), left);
      whole := whole + [Character(value * 256 % UINT32, bits + 8)];
    }
    while |whole| % 4 != 0
      invariant whole + left == all && |left| < 3 && forall j | 0 <= j < |left| :: left[j] == PAD
      decreases |left|
    {
      ghost var fewer := left[1..];
      assert left == [PAD] + fewer;
      Moved(whole, PAD, fewer);
      whole, left := whole + [PAD], fewer;
    }
    assert left == [];
  }

  /** The encoder: a 32-bit accumulator takes eight bits and gives six at a time. */
  method Base64Encode(input: seq<Octet>) returns (output: string)
    ensures output == Encode(input)
  {
    output := [];
    var value: nat, bits := 0, -6;
    ghost var start, n, whole := 0, 0, Encode(input);
    assert input[0..] == input;
    for i := 0 to |input|
      invariant i == start + n && n < 3 && Remembers(value, input, i, n) && bits == 2 * n - 6
      invariant output + Remaining(input, start, n) == whole
    {
      AccumulateRemembers(value, input, i, n);
      value := Accumulate(value, input[i]);
      output, bits := EmitSextets(value, bits + 8, output, input, start, n);
      if n == 2 {
        assert output + Remaining(input, start + 3, 0) == whole;
        start, n := start + 3, 0;
      } else {
        assert output + Remaining(input, start, n + 1) == whole;
        n := n + 1;
      }
    }
    EncodedInFours(input);
    output := Flush(value, bits, output, input, start, n);
  }
}
