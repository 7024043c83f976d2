/** The base64 encoding of section 4 of RFC 4648, as the host writes it and the guest reads it. */
module Base64 {
  import opened Values
  import opened Wrappers

  function Symbol(d: int): char
    requires 0 <= d < 64
  {
    if d < 26 then ('A' as int + d) as char
    else if d < 52 then ('a' as int + d - 26) as char
    else if d < 62 then ('0' as int + d - 52) as char
    else if d == 62 then '+' else '/'
  }

  function Digit(c: char): Option<int> {
    if 'A' <= c <= 'Z' then Some(c as int - 'A' as int)
    else if 'a' <= c <= 'z' then Some(c as int - 'a' as int + 26)
    else if '0' <= c <= '9' then Some(c as int - '0' as int + 52)
    else if c == '+' then Some(62)
    else if c == '/' then Some(63)
    else None
  }

  function Join3(a: Byte, b: Byte, c: Byte): int {
    (a as int * 256 + b as int) * 256 + c as int
  }

  /** Three bytes as four digits, most significant first. */
  function Group(a: Byte, b: Byte, c: Byte): string {
    var n := Join3(a, b, c);
    Top(n);
    [Symbol(n / 64 / 64 / 64), Symbol(n / 64 / 64 % 64), Symbol(n / 64 % 64), Symbol(n % 64)]
  }

  lemma Top(n: int)
    requires 0 <= n < 0x100_0000
    ensures 0 <= n / 64 / 64 / 64 < 64
  {
    assert n / 64 < 0x40000;
    assert n / 64 / 64 < 0x1000;
  }

  function Encode(bytes: Bytes): string {
    if bytes == [] then ""
    else if |bytes| == 1 then Group(bytes[0], 0, 0)[..2] + "=="
    else if |bytes| == 2 then Group(bytes[0], bytes[1], 0)[..3] + "="
    else Group(bytes[0], bytes[1], bytes[2]) + Encode(bytes[3..])
  }

  /** Four digits back to three bytes; `keep` of them are real. */
  function Ungroup(w: char, x: char, y: char, z: char, keep: nat): Option<Bytes>
    requires 1 <= keep <= 3
  {
    var a :- Digit(w);
    var b :- Digit(x);
    var c :- Digit(y);
    var d :- Digit(z);
    Bytes3(a, b, c, d, keep)
  }

  function Bytes3(a: int, b: int, c: int, d: int, keep: nat): Option<Bytes>
    requires 1 <= keep <= 3
  {
    var n := ((a * 64 + b) * 64 + c) * 64 + d;
    if 0 <= n < 0x100_0000 then Some(Split3(n)[..keep]) else None
  }

  function Split3(n: int): (r: Bytes)
    requires 0 <= n < 0x100_0000
    ensures |r| == 3
  {
    assert n / 256 < 0x10000;
    [(n / 256 / 256) as Byte, (n / 256 % 256) as Byte, (n % 256) as Byte]
  }

  /** Strict decoding: only the alphabet, in groups of four, padded at the end alone. */
  function Decode(s: string): Option<Bytes> {
    if s == "" then Some([])
    else if |s| < 4 then None
    else if |s| == 4 && s[2] == '=' && s[3] == '=' then Ungroup(s[0], s[1], 'A', 'A', 1)
    else if |s| == 4 && s[3] == '=' then Ungroup(s[0], s[1], s[2], 'A', 2)
    else
      var first :- Ungroup(s[0], s[1], s[2], s[3], 3);
      var rest :- Decode(s[4..]);
      Some(first + rest)
  }

  lemma DigitOfSymbol(d: int)
    requires 0 <= d < 64
    ensures Digit(Symbol(d)) == Some(d) && Symbol(d) != '='
  {
  }

  lemma Digits(n: int)
    ensures ((n / 64 / 64 / 64 * 64 + n / 64 / 64 % 64) * 64 + n / 64 % 64) * 64 + n % 64 == n
  {
    assert n / 64 / 64 / 64 * 64 + n / 64 / 64 % 64 == n / 64 / 64;
    assert n / 64 / 64 * 64 + n / 64 % 64 == n / 64;
  }

  lemma SplitUndoesJoin(a: Byte, b: Byte, c: Byte)
    ensures Split3(Join3(a, b, c)) == [a, b, c]
  {
    var n := Join3(a, b, c);
    assert n / 256 == a as int * 256 + b as int && n % 256 == c as int;
  }

  lemma UngroupSymbols(a: int, b: int, c: int, d: int, keep: nat)
    requires 0 <= a < 64 && 0 <= b < 64 && 0 <= c < 64 && 0 <= d < 64 && 1 <= keep <= 3
    ensures Ungroup(Symbol(a), Symbol(b), Symbol(c), Symbol(d), keep) == Bytes3(a, b, c, d, keep)
    ensures Symbol(c) != '=' && Symbol(d) != '='
  {
    DigitOfSymbol(a);
    DigitOfSymbol(b);
    DigitOfSymbol(c);
    DigitOfSymbol(d);
  }

  lemma GroupRoundTrip(a: Byte, b: Byte, c: Byte, keep: nat)
    requires 1 <= keep <= 3
    ensures var g := Group(a, b, c);
      && Ungroup(g[0], g[1], g[2], g[3], keep) == Some([a, b, c][..keep])
      && g[2] != '=' && g[3] != '='
  {
    var n := Join3(a, b, c);
    Top(n);
    Digits(n);
    SplitUndoesJoin(a, b, c);
    UngroupSymbols(n / 64 / 64 / 64, n / 64 / 64 % 64, n / 64 % 64, n % 64, keep);
  }

  /** Missing low bytes are zero digits, so padding loses nothing. */
  lemma PaddingDigits(a: Byte, b: Byte)
    ensures Group(a, 0, 0)[2] == 'A' && Group(a, 0, 0)[3] == 'A' && Group(a, b, 0)[3] == 'A'
  {
    assert Join3(a, b, 0) == 64 * (a as int * 1024 + b as int * 4) && Join3(a, 0, 0) == 64 * (a as int * 1024);
    MultipleOf64(a as int * 1024 + b as int * 4);
    MultipleOf64(a as int * 1024);
    assert a as int * 1024 == 64 * (a as int * 16);
    MultipleOf64(a as int * 16);
  }

  lemma MultipleOf64(k: int)
    ensures (64 * k) % 64 == 0 && (64 * k) / 64 == k
  {
  }

  lemma DecodePadded(w: char, x: char, y: char)
    requires y != '='
    ensures Decode([w, x, '=', '=']) == Ungroup(w, x, 'A', 'A', 1)
    ensures Decode([w, x, y, '=']) == Ungroup(w, x, y, 'A', 2)
  {
  }

  lemma OneByte(a: Byte)
    ensures Decode(Encode([a])) == Some([a])
  {
    GroupRoundTrip(a, 0, 0, 1);
    PaddingDigits(a, 0);
    var g := Group(a, 0, 0);
    assert Encode([a]) == [g[0], g[1], '=', '='];
    DecodePadded(g[0], g[1], g[2]);
    assert [a, 0, 0][..1] == [a];
  }

  lemma TwoBytes(a: Byte, b: Byte)
    ensures Decode(Encode([a, b])) == Some([a, b])
  {
    GroupRoundTrip(a, b, 0, 2);
    PaddingDigits(a, b);
    var g := Group(a, b, 0);
    assert Encode([a, b]) == [g[0], g[1], g[2], '='];
    DecodePadded(g[0], g[1], g[2]);
    assert [a, b, 0][..2] == [a, b];
  }

  lemma ThreeBytesMore(a: Byte, b: Byte, c: Byte, rest: Bytes)
    requires Decode(Encode(rest)) == Some(rest)
    ensures Decode(Encode([a, b, c] + rest)) == Some([a, b, c] + rest)
  {
    var bytes := [a, b, c] + rest;
    GroupRoundTrip(a, b, c, 3);
    assert bytes[3..] == rest;
    assert Encode(bytes) == Group(a, b, c) + Encode(rest);
    DecodeGroup(Group(a, b, c), Encode(rest));
    assert [a, b, c][..3] == [a, b, c];
  }

  /** Decoding undoes encoding for every byte string. */
  lemma {:induction false} DecodeUndoesEncode(bytes: Bytes)
    ensures Decode(Encode(bytes)) == Some(bytes)
  {
    if |bytes| == 1 {
      OneByte(bytes[0]);
      assert bytes == [bytes[0]];
    } else if |bytes| == 2 {
      TwoBytes(bytes[0], bytes[1]);
      assert bytes == [bytes[0], bytes[1]];
    } else if |bytes| >= 3 {
      DecodeUndoesEncode(bytes[3..]);
      ThreeBytesMore(bytes[0], bytes[1], bytes[2], bytes[3..]);
      assert [bytes[0], bytes[1], bytes[2]] + bytes[3..] == bytes;
    }
  }

  lemma DecodeGroup(g: string, rest: string)
    requires |g| == 4 && g[2] != '=' && g[3] != '='
    requires Ungroup(g[0], g[1], g[2], g[3], 3).Some? && Decode(rest).Some?
    ensures Decode(g + rest) == Some(Ungroup(g[0], g[1], g[2], g[3], 3).value + Decode(rest).value)
  {
    assert (g + rest)[4..] == rest;
  }
}
