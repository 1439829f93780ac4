/** Base64 of section 4 of RFC 4648: the encoder, and Python's lenient decoder. */
module Base64 {
  import opened Wrappers
  import opened Strings

  type Byte = n: int | 0 <= n < 256

  datatype DecodeError = DataError | PaddingError

  function Symbol(n: int): (c: char)
    requires 0 <= n < 64
    ensures SymbolValue(c) == Some(n) && c != '='
  {
    if n < 26 then 'A' + n as char
    else if n < 52 then 'a' + (n - 26) as char
    else if n < 62 then '0' + (n - 52) as char
    else if n == 62 then '+'
    else '/'
  }

  function SymbolValue(c: char): (n: Option<int>)
    ensures n.Some? ==> 0 <= n.value < 64
  {
    if 'A' <= c <= 'Z' then Some(c as int - 'A' as int)
    else if 'a' <= c <= 'z' then Some(c as int - 'a' as int + 26)
    else if '0' <= c <= '9' then Some(c as int - '0' as int + 52)
    else if c == '+' then Some(62)
    else if c == '/' then Some(63)
    else None
  }

  function FourSymbols(x: int, y: int, z: int, w: int, rest: string): string
    requires 0 <= x < 64 && 0 <= y < 64 && 0 <= z < 64 && 0 <= w < 64
  {
    [Symbol(x)] + ([Symbol(y)] + ([Symbol(z)] + ([Symbol(w)] + rest)))
  }

  /** `b64encode`. */
  function Encode(data: seq<Byte>): string {
    if data == [] then ""
    else
      var a := data[0];
      if |data| == 1 then [Symbol(a / 4)] + ([Symbol(a % 4 * 16)] + "==")
      else
        var b := data[1];
        if |data| == 2 then [Symbol(a / 4)] + ([Symbol(a % 4 * 16 + b / 16)] + ([Symbol(b % 16 * 4)] + "="))
        else
          var c := data[2];
          FourSymbols(a / 4, a % 4 * 16 + b / 16, b % 16 * 4 + c / 64, c % 64, Encode(data[3..]))
  }

  /** How far the decoder is into a group of four: the symbols seen, the bits left over, the pads in a row. */
  datatype Group = Group(seen: int, left: int, pads: nat)

  const START := Group(0, 0, 0)

  ghost predicate IsGroup(g: Group) {
    match g.seen
    case 0 => g.left == 0
    case 1 => 0 <= g.left < 64
    case 2 => 0 <= g.left < 16
    case 3 => 0 <= g.left < 4
    case _ => false
  }

  /** One symbol: the byte it completes, if any, and the group after it. */
  function Take(g: Group, v: int): (seq<Byte>, Group)
    requires IsGroup(g) && 0 <= v < 64
  {
    match g.seen
    case 0 => ([], Group(1, v, 0))
    case 1 => ([(g.left * 4 + v / 16)], Group(2, v % 16, 0))
    case 2 => ([(g.left * 16 + v / 4)], Group(3, v % 4, 0))
    case _ => ([(g.left * 64 + v)], START)
  }

  /** `b64decode`: characters outside the alphabet are skipped, enough pads end the text. */
  function DecodeFrom(s: string, g: Group): Result<seq<Byte>, DecodeError>
    requires IsGroup(g)
    decreases |s|
  {
    if s == "" then
      if g.seen == 0 then Ok([]) else if g.seen == 1 then Err(DataError) else Err(PaddingError)
    else if s[0] == '=' then
      if g.seen >= 2 && g.seen + g.pads + 1 >= 4 then Ok([])
      else DecodeFrom(s[1..], g.(pads := if g.seen >= 2 then g.pads + 1 else g.pads))
    else
      match SymbolValue(s[0])
      case None => DecodeFrom(s[1..], g)
      case Some(v) =>
        var (out, next) := Take(g, v);
        match DecodeFrom(s[1..], next)
        case Err(e) => Err(e)
        case Ok(rest) => Ok(out + rest)
  }

  function Decode(s: string): Result<seq<Byte>, DecodeError> {
    DecodeFrom(s, START)
  }

  /** The text is one symbol and then `rest`. */
  ghost predicate Starts(text: string, v: int, rest: string) {
    0 <= v < 64 && |text| > 0 && text[0] == Symbol(v) && text[1..] == rest
  }

  lemma FirstSymbol(text: string, v: int, rest: string, out: seq<Byte>)
    requires Starts(text, v, rest) && DecodeFrom(rest, Group(1, v, 0)) == Ok(out)
    ensures Decode(text) == Ok(out)
  {
    assert [] + out == out;
  }

  lemma SecondSymbol(text: string, left: int, v: int, a: Byte, rest: string, out: seq<Byte>)
    requires Starts(text, v, rest) && 0 <= left < 64 && a == left * 4 + v / 16
    requires DecodeFrom(rest, Group(2, v % 16, 0)) == Ok(out)
    ensures DecodeFrom(text, Group(1, left, 0)) == Ok([a] + out)
  {
  }

  lemma ThirdSymbol(text: string, left: int, v: int, b: Byte, rest: string, out: seq<Byte>)
    requires Starts(text, v, rest) && 0 <= left < 16 && b == left * 16 + v / 4
    requires DecodeFrom(rest, Group(3, v % 4, 0)) == Ok(out)
    ensures DecodeFrom(text, Group(2, left, 0)) == Ok([b] + out)
  {
  }

  lemma FourthSymbol(text: string, left: int, v: int, c: Byte, rest: string, out: seq<Byte>)
    requires Starts(text, v, rest) && 0 <= left < 4 && c == left * 64 + v
    requires Decode(rest) == Ok(out)
    ensures DecodeFrom(text, Group(3, left, 0)) == Ok([c] + out)
  {
  }

  lemma PadsEnd(left: int)
    ensures 0 <= left < 16 ==> DecodeFrom("==", Group(2, left, 0)) == Ok([])
    ensures 0 <= left < 4 ==> DecodeFrom("=", Group(3, left, 0)) == Ok([])
  {
  }

  lemma OneLeft(text: string, x: int, t1: string, y: int, a: Byte)
    requires Starts(text, x, t1) && Starts(t1, y, "==") && a == x * 4 + y / 16
    ensures Decode(text) == Ok([a])
  {
    PadsEnd(y % 16);
    SecondSymbol(t1, x, y, a, "==", []);
    assert [a] + [] == [a];
    FirstSymbol(text, x, t1, [a]);
  }

  lemma TwoLeft(text: string, x: int, t1: string, y: int, t2: string, z: int, a: Byte, b: Byte)
    requires Starts(text, x, t1) && Starts(t1, y, t2) && Starts(t2, z, "=")
    requires a == x * 4 + y / 16 && b == y % 16 * 16 + z / 4
    ensures Decode(text) == Ok([a, b])
  {
    PadsEnd(z % 4);
    ThirdSymbol(t2, y % 16, z, b, "=", []);
    assert [b] + [] == [b];
    SecondSymbol(t1, x, y, a, t2, [b]);
    assert [a] + [b] == [a, b];
    FirstSymbol(text, x, t1, [a, b]);
  }

  lemma ThreeMore(text: string, x: int, t1: string, y: int, t2: string, z: int, t3: string, w: int, rest: string,
                  a: Byte, b: Byte, c: Byte, out: seq<Byte>)
    requires Starts(text, x, t1) && Starts(t1, y, t2) && Starts(t2, z, t3) && Starts(t3, w, rest)
    requires a == x * 4 + y / 16 && b == y % 16 * 16 + z / 4 && c == z % 4 * 64 + w
    requires Decode(rest) == Ok(out)
    ensures Decode(text) == Ok([a, b, c] + out)
  {
    LastTwo(t2, y % 16, z, t3, w, rest, b, c, out);
    SecondSymbol(t1, x, y, a, t2, [b, c] + out);
    FirstSymbol(text, x, t1, [a] + ([b, c] + out));
    assert [a] + ([b, c] + out) == [a, b, c] + out;
  }

  lemma LastTwo(t2: string, left: int, z: int, t3: string, w: int, rest: string, b: Byte, c: Byte, out: seq<Byte>)
    requires Starts(t2, z, t3) && Starts(t3, w, rest) && 0 <= left < 16
    requires b == left * 16 + z / 4 && c == z % 4 * 64 + w && Decode(rest) == Ok(out)
    ensures DecodeFrom(t2, Group(2, left, 0)) == Ok([b, c] + out)
  {
    FourthSymbol(t3, z % 4, w, c, rest, out);
    ThirdSymbol(t2, left, z, b, t3, [c] + out);
    assert [b] + ([c] + out) == [b, c] + out;
  }

  /** The sextets of three bytes, reassembled. */
  lemma Sextets(a: int, b: int, c: int)
    requires 0 <= a < 256 && 0 <= b < 256 && 0 <= c < 256
    ensures
      var x, y, z, w := a / 4, a % 4 * 16 + b / 16, b % 16 * 4 + c / 64, c % 64;
      && 0 <= x < 64 && 0 <= y < 64 && 0 <= z < 64
      && x * 4 + y / 16 == a && y % 16 * 16 + z / 4 == b && z % 4 * 64 + w == c
  {
  }

  lemma DecodeOne(a: Byte)
    ensures Decode(Encode([a])) == Ok([a])
  {
    var x, y := a / 4, a % 4 * 16;
    Sextets(a, 0, 0);
    OneLeft(Encode([a]), x, [Symbol(y)] + "==", y, a);
  }

  lemma EncodeTwo(a: Byte, b: Byte)
    ensures
      var x, y, z := a / 4, a % 4 * 16 + b / 16, b % 16 * 4;
      && 0 <= y < 64 && 0 <= z < 64
      && Starts(Encode([a, b]), x, [Symbol(y)] + ([Symbol(z)] + "="))
      && Starts([Symbol(y)] + ([Symbol(z)] + "="), y, [Symbol(z)] + "=")
      && Starts([Symbol(z)] + "=", z, "=")
  {
  }

  lemma DecodeTwo(a: Byte, b: Byte, text: string)
    requires text == Encode([a, b])
    ensures Decode(text) == Ok([a, b])
  {
    var x, y, z := a / 4, a % 4 * 16 + b / 16, b % 16 * 4;
    Sextets(a, b, 0);
    EncodeTwo(a, b);
    TwoLeft(text, x, [Symbol(y)] + ([Symbol(z)] + "="), y, [Symbol(z)] + "=", z, a, b);
  }

  lemma FourStart(x: int, y: int, z: int, w: int, rest: string)
    requires 0 <= x < 64 && 0 <= y < 64 && 0 <= z < 64 && 0 <= w < 64
    ensures
      var t3 := [Symbol(w)] + rest;
      var t2 := [Symbol(z)] + t3;
      var t1 := [Symbol(y)] + t2;
      && Starts(FourSymbols(x, y, z, w, rest), x, t1) && Starts(t1, y, t2) && Starts(t2, z, t3) && Starts(t3, w, rest)
  {
  }

  lemma DecodeFour(x: int, y: int, z: int, w: int, rest: string, a: Byte, b: Byte, c: Byte, out: seq<Byte>)
    requires 0 <= x < 64 && 0 <= y < 64 && 0 <= z < 64 && 0 <= w < 64
    requires a == x * 4 + y / 16 && b == y % 16 * 16 + z / 4 && c == z % 4 * 64 + w
    requires Decode(rest) == Ok(out)
    ensures Decode(FourSymbols(x, y, z, w, rest)) == Ok([a, b, c] + out)
  {
    var t3 := [Symbol(w)] + rest;
    var t2 := [Symbol(z)] + t3;
    FourStart(x, y, z, w, rest);
    ThreeMore(FourSymbols(x, y, z, w, rest), x, [Symbol(y)] + t2, y, t2, z, t3, w, rest, a, b, c, out);
  }

  lemma EncodeThree(a: Byte, b: Byte, c: Byte, rest: seq<Byte>)
    ensures Encode([a, b, c] + rest)
            == FourSymbols(a / 4, a % 4 * 16 + b / 16, b % 16 * 4 + c / 64, c % 64, Encode(rest))
  {
    assert ([a, b, c] + rest)[3..] == rest;
  }

  lemma DecodeThree(a: Byte, b: Byte, c: Byte, rest: seq<Byte>, text: string)
    requires Decode(Encode(rest)) == Ok(rest) && text == Encode([a, b, c] + rest)
    ensures Decode(text) == Ok([a, b, c] + rest)
  {
    Sextets(a, b, c);
    EncodeThree(a, b, c, rest);
    DecodeFour(a / 4, a % 4 * 16 + b / 16, b % 16 * 4 + c / 64, c % 64, Encode(rest), a, b, c, rest);
  }

  /** Decoding undoes encoding, for all byte strings. */
  lemma {:induction false} DecodeUndoesEncode(data: seq<Byte>)
    ensures Decode(Encode(data)) == Ok(data)
    decreases |data|
  {
    if |data| == 1 {
      DecodeOne(data[0]);
      assert data == [data[0]];
    } else if |data| == 2 {
      assert data == [data[0], data[1]];
      DecodeTwo(data[0], data[1], Encode(data));
    } else if |data| > 2 {
      DecodeUndoesEncode(data[3..]);
      assert data == [data[0], data[1], data[2]] + data[3..];
      DecodeThree(data[0], data[1], data[2], data[3..], Encode(data));
    }
  }

  /** Encoded text uses the alphabet and the pad only, so no separator and no white space. */
  lemma {:induction false} EncodedAlphabet(data: seq<Byte>, i: nat)
    requires i < |Encode(data)|
    ensures Encode(data)[i] == '=' || SymbolValue(Encode(data)[i]).Some?
    decreases |data|
  {
    if |data| > 2 && i >= 4 {
      EncodedAlphabet(data[3..], i - 4);
    }
  }

  lemma EncodedWithout(data: seq<Byte>, c: char)
    requires c != '=' && SymbolValue(c).None?
    ensures Without(c, Encode(data))
  {
  }

  lemma EncodedStrips(data: seq<Byte>)
    ensures Strip(Encode(data)) == Encode(data)
  {
    if Encode(data) != "" {
      EncodedAlphabet(data, 0);
      EncodedAlphabet(data, |Encode(data)| - 1);
    }
  }

  // -------- other texts

  /** A character that is neither a symbol nor a pad makes no difference, wherever it stands. */
  lemma {:induction false} OtherCharsSkipped(a: string, c: char, b: string, g: Group)
    requires IsGroup(g) && SymbolValue(c).None? && c != '='
    ensures DecodeFrom(a + [c] + b, g) == DecodeFrom(a + b, g)
    decreases |a|
  {
    var s, t := a + [c] + b, a + b;
    if a == "" {
      assert s[0] == c && s[1..] == b && t == b;
    } else {
      assert s[0] == a[0] && t[0] == a[0] && s[1..] == a[1..] + [c] + b && t[1..] == a[1..] + b;
      if a[0] == '=' {
        OtherCharsSkipped(a[1..], c, b, g.(pads := if g.seen >= 2 then g.pads + 1 else g.pads));
      } else if SymbolValue(a[0]).None? {
        OtherCharsSkipped(a[1..], c, b, g);
      } else {
        OtherCharsSkipped(a[1..], c, b, Take(g, SymbolValue(a[0]).value).1);
      }
    }
  }

  /** Symbols without pads decode exactly in groups of four; one symbol over is bad data, two or three lack pads. */
  lemma {:induction false} SymbolsWithoutPads(s: string, g: Group)
    requires IsGroup(g) && forall i :: 0 <= i < |s| ==> SymbolValue(s[i]).Some?
    ensures
      var r, over := DecodeFrom(s, g), (g.seen + |s|) % 4;
      && (r.Ok? <==> over == 0) && (r == Err(DataError) <==> over == 1)
      && (r == Err(PaddingError) <==> over == 2 || over == 3)
    decreases |s|
  {
    if s != "" {
      assert SymbolValue(s[0]).Some? && s[0] != '=';
      var next := Take(g, SymbolValue(s[0]).value).1;
      OneMoreSymbol(s, g);
      SymbolsWithoutPads(s[1..], next);
      OneMoreSeen(g, SymbolValue(s[0]).value, |s| - 1);
    }
  }

  lemma OneMoreSymbol(s: string, g: Group)
    requires IsGroup(g) && s != "" && SymbolValue(s[0]).Some?
    ensures
      var r, rest := DecodeFrom(s, g), DecodeFrom(s[1..], Take(g, SymbolValue(s[0]).value).1);
      && (r.Ok? <==> rest.Ok?) && (r.Err? ==> rest == Err(r.error))
  {
  }

  lemma OneMoreSeen(g: Group, v: int, more: nat)
    requires IsGroup(g) && 0 <= v < 64
    ensures (Take(g, v).1.seen + more) % 4 == (g.seen + more + 1) % 4
  {
  }

  /** Test vectors of section 10 of RFC 4648, and the last two symbols of the alphabet. */
  lemma EncodeExamples()
    ensures Encode([0x66]) == "Zg==" && Encode([0x66, 0x6f]) == "Zm8="
    ensures Encode([0xfb, 0xff]) == "+/8="
  {
    assert "Zg==" == [Symbol(25)] + ([Symbol(32)] + "==");
    assert "Zm8=" == [Symbol(25)] + ([Symbol(38)] + ([Symbol(60)] + "="));
    assert "+/8=" == [Symbol(62)] + ([Symbol(63)] + ([Symbol(60)] + "="));
  }
}
