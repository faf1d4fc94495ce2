/** The unpadded base64url alphabet of section 5 of RFC 4648, and the Browser's strict decoder. */
module Base64 {
  import opened Common
  import opened Tmux

  predicate IsSymbol(c: Byte)
  {
    'A' <= c <= 'Z' || 'a' <= c <= 'z' || '0' <= c <= '9' || c == '-' || c == '_'
  }

  function Symbol(n: nat): (c: Byte)
    requires n < 64
    ensures IsSymbol(c)
  {
    if n < 26 then ('A' as int + n) as char
    else if n < 52 then ('a' as int + (n - 26)) as char
    else if n < 62 then ('0' as int + (n - 52)) as char
    else if n == 62 then '-' else '_'
  }

  function Sextet(c: Byte): (n: nat)
    requires IsSymbol(c)
    ensures n < 64 && Symbol(n) == c
  {
    if 'A' <= c <= 'Z' then c as int - 'A' as int
    else if 'a' <= c <= 'z' then c as int - 'a' as int + 26
    else if '0' <= c <= '9' then c as int - '0' as int + 52
    else if c == '-' then 62 else 63
  }

  lemma SextetOfSymbol(n: nat)
    requires n < 64
    ensures Sextet(Symbol(n)) == n
  {
  }

  // The bits of one octet or sextet, split and put together.

  function Top6(a: Byte): (n: nat)
    ensures n < 64
  {
    a as int / 4
  }

  function Mid4(a: Byte, b: Byte): (n: nat)
    ensures n < 64
  {
    a as int % 4 * 16 + b as int / 16
  }

  function Mid2(b: Byte, c: Byte): (n: nat)
    ensures n < 64
  {
    b as int % 16 * 4 + c as int / 64
  }

  function Low6(c: Byte): (n: nat)
    ensures n < 64
  {
    c as int % 64
  }

  const ZERO: Byte := 0 as char

  function First(x: nat, y: nat): Byte
    requires x < 64 && y < 64
  {
    (x * 4 + y / 16) as char
  }

  function Second(y: nat, z: nat): Byte
    requires y < 64 && z < 64
  {
    (y % 16 * 16 + z / 4) as char
  }

  function Third(z: nat, w: nat): Byte
    requires z < 64 && w < 64
  {
    (z % 4 * 64 + w) as char
  }

  lemma FirstJoins(a: Byte, b: Byte)
    ensures First(Top6(a), Mid4(a, b)) == a
  {
    var n := a as int;
    assert (n % 4 * 16 + b as int / 16) / 16 == n % 4;
    assert n / 4 * 4 + n % 4 == n;
  }

  lemma SecondJoins(a: Byte, b: Byte, c: Byte)
    ensures Second(Mid4(a, b), Mid2(b, c)) == b
  {
    var n := b as int;
    assert (a as int % 4 * 16 + n / 16) % 16 == n / 16;
    assert (n % 16 * 4 + c as int / 64) / 4 == n % 16;
  }

  lemma ThirdJoins(b: Byte, c: Byte)
    ensures Third(Mid2(b, c), Low6(c)) == c
  {
    var n := c as int;
    assert (b as int % 16 * 4 + n / 64) % 4 == n / 64;
  }

  function Encode(data: Bytes): (s: Bytes)
    ensures forall i :: 0 <= i < |s| ==> IsSymbol(s[i])
  {
    if |data| == 0 then []
    else if |data| == 1 then [Symbol(Top6(data[0])), Symbol(Mid4(data[0], ZERO))]
    else if |data| == 2 then [Symbol(Top6(data[0])), Symbol(Mid4(data[0], data[1])), Symbol(Mid2(data[1], ZERO))]
    else
      [Symbol(Top6(data[0])), Symbol(Mid4(data[0], data[1])), Symbol(Mid2(data[1], data[2])), Symbol(Low6(data[2]))]
      + Encode(data[3..])
  }

  lemma {:induction false} EncodeLength(data: Bytes)
    ensures |Encode(data)| % 4 != 1 && 3 * |Encode(data)| <= 4 * |data| + 2
  {
    hide Symbol, Top6, Mid4, Mid2, Low6;
    if |data| >= 3 {
      EncodeLength(data[3..]);
    }
  }

  /** Decoding that forgives non-zero trailing bits, as the platform's decoder does. */
  function Forgiving(s: Bytes): Bytes
    requires (forall i :: 0 <= i < |s| ==> IsSymbol(s[i])) && |s| % 4 != 1
  {
    if |s| == 0 then []
    else if |s| == 2 then [First(Sextet(s[0]), Sextet(s[1]))]
    else if |s| == 3 then [First(Sextet(s[0]), Sextet(s[1])), Second(Sextet(s[1]), Sextet(s[2]))]
    else
      [First(Sextet(s[0]), Sextet(s[1])), Second(Sextet(s[1]), Sextet(s[2])), Third(Sextet(s[2]), Sextet(s[3]))]
      + Forgiving(s[4..])
  }

  /** Every check of the Browser's decoder; the last one re-encodes. */
  function Decode(s: Bytes, maximum: nat, allowEmpty: bool): (r: Option<Bytes>)
    ensures r.Some? ==> Encode(r.value) == s && |r.value| <= maximum
  {
    if (!allowEmpty && |s| == 0) || |s| > (maximum * 4 + 2) / 3
       || !(forall i :: 0 <= i < |s| ==> IsSymbol(s[i])) || |s| % 4 == 1 then None
    else
      var data := Forgiving(s);
      if |data| > maximum || Encode(data) != s then None else Some(data)
  }

  lemma {:induction false} ForgivingInvertsEncode(data: Bytes)
    ensures |Encode(data)| % 4 != 1 && Forgiving(Encode(data)) == data
  {
    EncodeLength(data);
    hide Symbol, Sextet, Top6, Mid4, Mid2, Low6, First, Second, Third;
    if |data| == 1 {
      Group(data[0], ZERO, ZERO);
      assert Forgiving(Encode(data)) == [data[0]];
    } else if |data| == 2 {
      Group(data[0], data[1], ZERO);
      assert Forgiving(Encode(data)) == [data[0], data[1]];
    } else if |data| >= 3 {
      Group(data[0], data[1], data[2]);
      ForgivingInvertsEncode(data[3..]);
      assert Encode(data)[4..] == Encode(data[3..]);
      assert data == [data[0], data[1], data[2]] + data[3..];
    }
  }

  /** The bits of three octets survive their four sextets. */
  lemma Group(a: Byte, b: Byte, c: Byte)
    ensures Sextet(Symbol(Top6(a))) == Top6(a) && Sextet(Symbol(Mid4(a, b))) == Mid4(a, b)
    ensures Sextet(Symbol(Mid2(b, c))) == Mid2(b, c) && Sextet(Symbol(Low6(c))) == Low6(c)
    ensures First(Top6(a), Mid4(a, b)) == a && Second(Mid4(a, b), Mid2(b, c)) == b && Third(Mid2(b, c), Low6(c)) == c
  {
    hide Symbol, Sextet, Top6, Mid4, Mid2, Low6, First, Second, Third;
    SextetOfSymbol(Top6(a));
    SextetOfSymbol(Mid4(a, b));
    SextetOfSymbol(Mid2(b, c));
    SextetOfSymbol(Low6(c));
    FirstJoins(a, b);
    SecondJoins(a, b, c);
    ThirdJoins(b, c);
  }

  /** The Browser decodes exactly what was encoded, and accepts nothing but such encodings. */
  lemma DecodeIffEncoded(s: Bytes, data: Bytes, maximum: nat, allowEmpty: bool)
    ensures Decode(s, maximum, allowEmpty) == Some(data)
            <==> s == Encode(data) && |data| <= maximum && (allowEmpty || data != [])
  {
    if s == Encode(data) && |data| <= maximum && (allowEmpty || data != []) {
      EncodeLength(data);
      ForgivingInvertsEncode(data);
    }
    if Decode(s, maximum, allowEmpty) == Some(data) {
      assert Encode(data) == s;
    }
  }

  // ---- The alphabet of Table 2, and the test vectors of section 10, of RFC 4648 ----

  const UPPER: Bytes := "ABCDEFGHIJKLMNOPQRSTUVWXYZ"
  const LOWER: Bytes := "abcdefghijklmnopqrstuvwxyz"
  const DIGITS: Bytes := "0123456789"
  const LAST: Bytes := "-_"

  lemma LettersInOrder(n: nat)
    requires n < 26
    ensures UPPER[n] as int == 'A' as int + n && LOWER[n] as int == 'a' as int + n
  {
  }

  lemma DigitsInOrder(n: nat)
    requires n < 10
    ensures DIGITS[n] as int == '0' as int + n
  {
  }

  lemma AlphabetSizes()
    ensures |UPPER| == 26 && |LOWER| == 26 && |DIGITS| == 10
  {
  }

  /** A sextet is written as the letter of the alphabet at its place. */
  lemma SymbolIsAlphabet(n: nat)
    requires n < 64
    ensures |UPPER + LOWER + DIGITS + LAST| == 64 && Symbol(n) == (UPPER + LOWER + DIGITS + LAST)[n]
  {
    hide UPPER, LOWER, DIGITS;
    AlphabetSizes();
    if n < 26 {
      LettersInOrder(n);
    } else if n < 52 {
      LettersInOrder(n - 26);
    } else if n < 62 {
      DigitsInOrder(n - 52);
    }
  }

  lemma ShortVectors()
    ensures Encode("") == "" && Encode("f") == "Zg" && Encode("fo") == "Zm8"
    ensures Encode("foo") == "Zm9v" && Encode("bar") == "YmFy" && Encode("b") == "Yg" && Encode("ba") == "YmE"
    ensures Encode([251 as char, 255 as char]) == "-_8"
  {
    var foo: Bytes, bar: Bytes := "foo", "bar";
    assert foo[3..] == [] && bar[3..] == [];
  }

  /** The test vectors of section 10 of RFC 4648, without padding, and the two last letters of the alphabet. */
  lemma TestVectors()
    ensures Encode("") == "" && Encode("f") == "Zg" && Encode("fo") == "Zm8" && Encode("foo") == "Zm9v"
    ensures Encode("foob") == "Zm9vYg" && Encode("fooba") == "Zm9vYmE" && Encode("foobar") == "Zm9vYmFy"
    ensures Encode([251 as char, 255 as char]) == "-_8"
  {
    ShortVectors();
    AfterFoo("b");
    AfterFoo("ba");
    AfterFoo("bar");
    hide Encode;
  }

  lemma AfterFoo(rest: Bytes)
    ensures Encode("foo" + rest) == "Zm9v" + Encode(rest)
  {
    var all: Bytes := "foo" + rest;
    assert all[0] == 'f' && all[1] == 'o' && all[2] == 'o' && all[3..] == rest;
  }
}
