/** The two separator-joined credential records: encrypted values, and password hashes. The cipher, the
    key derivation and the text encoding are parameters. */
module Secrets {
  import opened Wrappers
  import opened Strings
  import opened Base64

  // -------- encrypted values

  datatype SecretError = BadFormat | BadKey | CodingError

  datatype Message = Message(nonce: seq<Byte>, body: seq<Byte>, tag: seq<Byte>)

  /** AES-EAX and UTF-8. `seal` and `open` fail on a key that does not fit, `open` on a wrong tag. */
  datatype Cipher = Cipher(
    seal: (string, seq<Byte>, seq<Byte>) -> Option<(seq<Byte>, seq<Byte>)>,
    open: (string, Message) -> Option<seq<Byte>>,
    utf8: string -> Option<seq<Byte>>,
    text: seq<Byte> -> Option<string>)

  /** Opening undoes sealing under the same key and nonce, and UTF-8 decoding undoes encoding. */
  ghost predicate Lawful(c: Cipher) {
    && (forall key, nonce, data :: c.seal(key, nonce, data).Some? ==>
          c.open(key, Message(nonce, c.seal(key, nonce, data).value.0, c.seal(key, nonce, data).value.1)) == Some(data))
    && (forall s :: c.utf8(s).Some? ==> c.text(c.utf8(s).value) == Some(s))
  }

  const PREFIX := "AES256"
  const KEY_LENGTH := 32

  /** `_cast_encrypt_key`. */
  function CastKey(value: string): Result<string, SecretError> {
    if |value| < KEY_LENGTH then Err(BadKey) else Ok(value[..KEY_LENGTH])
  }

  function PrintMessage(m: Message): string {
    JoinWith([PREFIX, Encode(m.nonce), Encode(m.body), Encode(m.tag)], ';')
  }

  /** `_get_struct_message`. */
  function ParseMessage(text: string): Result<Message, SecretError> {
    var parts := Split(text, ';');
    if |parts| != 4 || parts[0] != PREFIX then Err(BadFormat)
    else
      var nonce, body, tag := Decode(parts[1]), Decode(parts[2]), Decode(parts[3]);
      if nonce.Err? || body.Err? || tag.Err? then Err(BadFormat)
      else Ok(Message(nonce.value, body.value, tag.value))
  }

  /** `encrypt`; the cipher draws the nonce. */
  function Encrypt(c: Cipher, key: string, nonce: seq<Byte>, data: string): Result<string, SecretError> {
    match CastKey(key)
    case Err(e) => Err(e)
    case Ok(k) =>
      match c.utf8(data)
      case None => Err(CodingError)
      case Some(bytes) =>
        match c.seal(k, nonce, bytes)
        case None => Err(CodingError)
        case Some((body, tag)) => Ok(PrintMessage(Message(nonce, body, tag)))
  }

  /** `decrypt`. */
  function Decrypt(c: Cipher, key: string, text: string): Result<string, SecretError> {
    match CastKey(key)
    case Err(e) => Err(e)
    case Ok(k) =>
      match ParseMessage(text)
      case Err(e) => Err(e)
      case Ok(m) =>
        match c.open(k, m)
        case None => Err(CodingError)
        case Some(bytes) =>
          match c.text(bytes)
          case None => Err(CodingError)
          case Some(data) => Ok(data)
  }

  lemma MessageSplits(m: Message)
    ensures Split(PrintMessage(m), ';') == [PREFIX, Encode(m.nonce), Encode(m.body), Encode(m.tag)]
  {
    EncodedWithout(m.nonce, ';');
    EncodedWithout(m.body, ';');
    EncodedWithout(m.tag, ';');
    assert Without(';', PREFIX);
    SplitAfterJoin([PREFIX, Encode(m.nonce), Encode(m.body), Encode(m.tag)], ';');
  }

  /** The parser undoes the printer, for all byte strings. */
  lemma ParseUndoesPrint(m: Message)
    ensures ParseMessage(PrintMessage(m)) == Ok(m)
  {
    MessageSplits(m);
    DecodeUndoesEncode(m.nonce);
    DecodeUndoesEncode(m.body);
    DecodeUndoesEncode(m.tag);
  }

  /** Decryption undoes encryption, under any two key settings that share the first 32 characters. */
  lemma DecryptUndoesEncrypt(c: Cipher, key: string, key2: string, nonce: seq<Byte>, data: string)
    requires Lawful(c) && Encrypt(c, key, nonce, data).Ok?
    requires |key2| >= KEY_LENGTH && key2[..KEY_LENGTH] == key[..KEY_LENGTH]
    ensures Decrypt(c, key2, Encrypt(c, key, nonce, data).value) == Ok(data)
  {
    var sealed := c.seal(key[..KEY_LENGTH], nonce, c.utf8(data).value).value;
    ParseUndoesPrint(Message(nonce, sealed.0, sealed.1));
  }

  /** A key setting serves from 32 characters on, and its first 32 are the key. The text names the algorithm and carries
      the nonce, the sealed data and the tag. */
  lemma EncryptMeans(c: Cipher, key: string, nonce: seq<Byte>, data: string)
    ensures
      var r := Encrypt(c, key, nonce, data);
      && (r == Err(BadKey) <==> |key| < 32)
      && (r.Ok? <==> |key| >= 32 && c.utf8(data).Some? && c.seal(key[..32], nonce, c.utf8(data).value).Some?)
      && (r.Ok? ==>
            var (body, tag) := c.seal(key[..32], nonce, c.utf8(data).value).value;
            r.value == "AES256" + ";" + Encode(nonce) + ";" + Encode(body) + ";" + Encode(tag))
  {
    if Encrypt(c, key, nonce, data).Ok? {
      var (body, tag) := c.seal(key[..32], nonce, c.utf8(data).value).value;
      JoinFour(PREFIX, Encode(nonce), Encode(body), Encode(tag), ';');
    }
  }

  lemma JoinFour(a: string, b: string, c: string, d: string, sep: char)
    ensures JoinWith([a, b, c, d], sep) == a + [sep] + b + [sep] + c + [sep] + d
  {
    assert [a, b, c, d][1..] == [b, c, d] && [b, c, d][1..] == [c, d] && [c, d][1..] == [d];
    assert JoinWith([c, d], sep) == c + [sep] + d;
    assert JoinWith([b, c, d], sep) == b + [sep] + (c + [sep] + d);
  }

  /** Decryption fails on a short key first, and on every text that has not four parts or another prefix. */
  lemma DecryptRefuses(c: Cipher, key: string, text: string)
    ensures Decrypt(c, key, text) == Err(BadKey) <==> |key| < 32
    ensures |key| >= 32 && (|Split(text, ';')| != 4 || Split(text, ';')[0] != "AES256") ==>
              Decrypt(c, key, text) == Err(BadFormat)
  {
  }

  // -------- password hashes

  datatype HashError = ValueError | TypeError

  /** The two settings; empty and zero fall back to the hasher's own. `kdf` is PBKDF2 with the hasher's own
      digest and iteration count. */
  datatype Hasher = Hasher(algorithm: string, iterations: nat, kdf: (string, string) -> seq<Byte>)

  const ALGORITHM := "pbkdf2_sha256"
  const ITERATIONS := 180_000

  function AlgorithmOf(h: Hasher): string {
    if h.algorithm == "" then ALGORITHM else h.algorithm
  }

  function IterationsOf(h: Hasher): nat {
    if h.iterations == 0 then ITERATIONS else h.iterations
  }

  predicate IsValidInput(password: string, salt: string) {
    password != "" && salt != "" && Without('$', salt)
  }

  function Record(algorithm: string, iterations: string, salt: string, hash: string): string {
    JoinWith([algorithm, iterations, salt, hash], '$')
  }

  /** `encode`; an empty salt is replaced by a generated one. */
  function HashPassword(h: Hasher, password: string, salt: string, generated: string): Result<string, HashError> {
    var used := if salt == "" then generated else salt;
    if !IsValidInput(password, used) then Err(ValueError)
    else Ok(Record(AlgorithmOf(h), Decimal(IterationsOf(h)), used, Strip(Encode(h.kdf(password, used)))))
  }

  predicate IsAscii(s: string) {
    forall i :: 0 <= i < |s| ==> s[i] < '\U{80}'
  }

  /** `verify`: the constant-time comparison accepts ASCII texts only. */
  function VerifyPassword(h: Hasher, password: string, encoded: string, generated: string): Result<bool, HashError> {
    var parts := Split(encoded, '$');
    if |parts| != 4 || !IsValidInput(password, parts[2]) || parts[0] != ALGORITHM then Ok(false)
    else
      match HashPassword(h, password, parts[2], generated)
      case Err(e) => Err(e)
      case Ok(again) => if IsAscii(encoded) && IsAscii(again) then Ok(encoded == again) else Err(TypeError)
  }

  // -------- what a record splits into

  lemma DecimalWithout(n: nat, c: char)
    requires !IsDigit(c)
    ensures Without(c, Decimal(n))
  {
  }

  lemma HashWithout(data: seq<Byte>)
    ensures Without('$', Strip(Encode(data))) && Strip(Encode(data)) == Encode(data)
  {
    EncodedStrips(data);
    EncodedWithout(data, '$');
  }

  lemma RecordSplits(algorithm: string, iterations: nat, salt: string, data: seq<Byte>)
    requires Without('$', algorithm) && Without('$', salt)
    ensures Split(Record(algorithm, Decimal(iterations), salt, Strip(Encode(data))), '$')
            == [algorithm, Decimal(iterations), salt, Encode(data)]
  {
    DecimalWithout(iterations, '$');
    HashWithout(data);
    SplitAfterJoin([algorithm, Decimal(iterations), salt, Encode(data)], '$');
  }

  /** A separator inside the first field adds parts. */
  lemma {:induction false} SplitCounts(a: string, rest: string, sep: char)
    ensures |Split(a + [sep] + rest, sep)| == |Split(a, sep)| + |Split(rest, sep)|
    ensures !Without(sep, a) ==> |Split(a, sep)| >= 2
  {
    var s := a + [sep] + rest;
    if a == "" {
      assert s[1..] == rest;
    } else {
      assert s[1..] == a[1..] + [sep] + rest;
      SplitCounts(a[1..], rest, sep);
      assert a == [a[0]] + a[1..];
    }
  }

  /** A record has four parts exactly when its first field has no separator. */
  lemma FourPartsIff(a: string, b: string, c: string, d: string)
    requires Without('$', b) && Without('$', c) && Without('$', d)
    ensures |Split(Record(a, b, c, d), '$')| == 4 <==> Without('$', a)
    ensures Without('$', a) ==> Split(Record(a, b, c, d), '$') == [a, b, c, d]
  {
    if Without('$', a) {
      SplitAfterJoin([a, b, c, d], '$');
    } else {
      assert [a, b, c, d][1..] == [b, c, d];
      SplitAfterJoin([b, c, d], '$');
      SplitCounts(a, JoinWith([b, c, d], '$'), '$');
    }
  }

  lemma ForeignAlgorithm(algorithm: string, iterations: nat, salt: string, data: seq<Byte>)
    requires algorithm != ALGORITHM && Without('$', salt)
    ensures
      var parts := Split(Record(algorithm, Decimal(iterations), salt, Strip(Encode(data))), '$');
      |parts| != 4 || parts[0] != ALGORITHM
  {
    DecimalWithout(iterations, '$');
    HashWithout(data);
    FourPartsIff(algorithm, Decimal(iterations), salt, Strip(Encode(data)));
  }

  lemma {:induction false} AsciiJoin(parts: seq<string>)
    requires |parts| > 0
    ensures IsAscii(JoinWith(parts, '$')) <==> forall k :: 0 <= k < |parts| ==> IsAscii(parts[k])
  {
    if |parts| > 1 {
      AsciiJoin(parts[1..]);
      AsciiJoins(parts[0], ['$']);
      AsciiJoins(parts[0] + ['$'], JoinWith(parts[1..], '$'));
      assert parts == [parts[0]] + parts[1..];
    }
  }

  lemma AsciiRecord(iterations: nat, salt: string, data: seq<Byte>)
    ensures IsAscii(Record(ALGORITHM, Decimal(iterations), salt, Strip(Encode(data)))) <==> IsAscii(salt)
  {
    EncodedStrips(data);
    AsciiDecimal(iterations);
    AsciiHash(data);
    AsciiFields(ALGORITHM, Decimal(iterations), salt, Encode(data));
  }

  lemma AsciiDecimal(n: nat)
    ensures IsAscii(Decimal(n)) && IsAscii(ALGORITHM)
  {
  }

  lemma AsciiFields(a: string, b: string, c: string, d: string)
    requires IsAscii(a) && IsAscii(b) && IsAscii(d)
    ensures IsAscii(Record(a, b, c, d)) <==> IsAscii(c)
  {
    var parts := [a, b, c, d];
    AsciiJoin(parts);
    assert parts[2] == c;
  }

  lemma AsciiHash(data: seq<Byte>)
    ensures IsAscii(Encode(data))
  {
    forall i | 0 <= i < |Encode(data)| ensures Encode(data)[i] < '\U{80}' {
      EncodedAlphabet(data, i);
    }
  }

  lemma AsciiJoins(a: string, b: string)
    ensures IsAscii(a + b) <==> IsAscii(a) && IsAscii(b)
  {
    if IsAscii(a + b) {
      forall i | 0 <= i < |a| ensures a[i] < '\U{80}' {
        assert (a + b)[i] == a[i];
      }
      forall i | 0 <= i < |b| ensures b[i] < '\U{80}' {
        assert (a + b)[|a| + i] == b[i];
      }
    }
  }

  lemma EncodingsEqual(x: seq<Byte>, y: seq<Byte>)
    ensures Strip(Encode(x)) == Strip(Encode(y)) <==> x == y
  {
    EncodedStrips(x);
    EncodedStrips(y);
    DecodeUndoesEncode(x);
    DecodeUndoesEncode(y);
  }

  lemma DecimalsEqual(i: nat, j: nat)
    ensures Decimal(i) == Decimal(j) <==> i == j
  {
    DecimalIsNumeral(i);
    DecimalIsNumeral(j);
  }

  lemma FieldsEqual(i: nat, j: nat, salt: string, x: seq<Byte>, y: seq<Byte>)
    requires Without('$', salt)
    ensures
      var a, b := Strip(Encode(x)), Strip(Encode(y));
      Record(ALGORITHM, Decimal(i), salt, a) == Record(ALGORITHM, Decimal(j), salt, b) <==>
          Decimal(i) == Decimal(j) && a == b
  {
    assert Without('$', ALGORITHM);
    RecordSplits(ALGORITHM, i, salt, x);
    RecordSplits(ALGORITHM, j, salt, y);
  }

  lemma RecordsEqual(i: nat, j: nat, salt: string, x: seq<Byte>, y: seq<Byte>)
    requires Without('$', salt)
    ensures
      var a, b := Strip(Encode(x)), Strip(Encode(y));
      Record(ALGORITHM, Decimal(i), salt, a) == Record(ALGORITHM, Decimal(j), salt, b) <==> i == j && x == y
  {
    FieldsEqual(i, j, salt, x, y);
    DecimalsEqual(i, j);
    EncodingsEqual(x, y);
  }

  /** What `verify` sees in a record that `encode` wrote under the hasher's own algorithm. */
  lemma OwnRecord(iterations: nat, salt: string, data: seq<Byte>, h2: Hasher, q: string, generated: string)
    requires salt != "" && Without('$', salt)
    ensures
      var encoded := Record(ALGORITHM, Decimal(iterations), salt, Strip(Encode(data)));
      var again := Record(AlgorithmOf(h2), Decimal(IterationsOf(h2)), salt, Strip(Encode(h2.kdf(q, salt))));
      VerifyPassword(h2, q, encoded, generated)
      == if q == "" then Ok(false) else if IsAscii(encoded) && IsAscii(again) then Ok(encoded == again)
          else Err(TypeError)
  {
    assert Without('$', ALGORITHM);
    RecordSplits(ALGORITHM, iterations, salt, data);
  }

  /** The first field of a record tells the algorithm. */
  lemma SameAlgorithm(a: string, i: string, salt: string, x: string, j: string, y: string)
    requires Record(ALGORITHM, i, salt, x) == Record(a, j, salt, y)
    requires Without('$', i) && Without('$', j) && Without('$', salt) && Without('$', x) && Without('$', y)
    ensures a == ALGORITHM
  {
    assert Without('$', ALGORITHM);
    FourPartsIff(ALGORITHM, i, salt, x);
    FourPartsIff(a, j, salt, y);
    assert [ALGORITHM, i, salt, x][0] == [a, j, salt, y][0];
  }

  /** The condition under which a stored record verifies. */
  predicate Agrees(h: Hasher, h2: Hasher, password: string, q: string, salt: string) {
    && AlgorithmOf(h) == ALGORITHM && AlgorithmOf(h2) == ALGORITHM && IterationsOf(h) == IterationsOf(h2)
    && q != "" && h2.kdf(q, salt) == h.kdf(password, salt) && IsAscii(salt)
  }

  lemma OwnRecordAgrees(h: Hasher, h2: Hasher, password: string, q: string, salt: string, generated: string)
    requires salt != "" && Without('$', salt) && AlgorithmOf(h) == ALGORITHM
    ensures
      var encoded := Record(ALGORITHM, Decimal(IterationsOf(h)), salt, Strip(Encode(h.kdf(password, salt))));
      VerifyPassword(h2, q, encoded, generated) == Ok(true) <==> Agrees(h, h2, password, q, salt)
  {
    var i, j, x, y := IterationsOf(h), IterationsOf(h2), h.kdf(password, salt), h2.kdf(q, salt);
    OwnRecord(i, salt, x, h2, q, generated);
    AsciiRecord(i, salt, x);
    if AlgorithmOf(h2) == ALGORITHM {
      AsciiRecord(j, salt, y);
      RecordsEqual(i, j, salt, x, y);
    } else if Record(ALGORITHM, Decimal(i), salt, Strip(Encode(x)))
              == Record(AlgorithmOf(h2), Decimal(j), salt, Strip(Encode(y)))
    {
      DecimalWithout(i, '$');
      DecimalWithout(j, '$');
      HashWithout(x);
      HashWithout(y);
      SameAlgorithm(AlgorithmOf(h2), Decimal(i), salt, Strip(Encode(x)), Decimal(j), Strip(Encode(y)));
    }
  }

  /** A record written by `encode` verifies exactly when both settings name the hasher's own algorithm, the
      iteration settings agree, the derived keys agree, the password is not empty, and the salt is ASCII: on
      any other salt the comparison itself raises. */
  lemma VerifyAcceptsIff(h: Hasher, h2: Hasher, password: string, q: string, salt: string, generated: string)
    requires IsValidInput(password, salt)
    ensures
      var encoded := HashPassword(h, password, salt, generated);
      encoded.Ok? && (VerifyPassword(h2, q, encoded.value, generated) == Ok(true) <==> Agrees(h, h2, password, q, salt))
  {
    if AlgorithmOf(h) == ALGORITHM {
      OwnRecordAgrees(h, h2, password, q, salt, generated);
    } else {
      ForeignAlgorithm(AlgorithmOf(h), IterationsOf(h), salt, h.kdf(password, salt));
    }
  }

  /** On a salt that is not ASCII the hasher writes records it cannot compare: verifying the right password under the
      same settings raises. */
  lemma OtherSaltRaises(h: Hasher, password: string, salt: string, generated: string)
    requires IsValidInput(password, salt) && !IsAscii(salt) && AlgorithmOf(h) == ALGORITHM
    ensures VerifyPassword(h, password, HashPassword(h, password, salt, generated).value, generated) == Err(TypeError)
  {
    OwnRecord(IterationsOf(h), salt, h.kdf(password, salt), h, password, generated);
    AsciiRecord(IterationsOf(h), salt, h.kdf(password, salt));
  }

  /** Such as this one. */
  lemma SomeOtherSalt(h: Hasher, password: string, generated: string)
    requires password != "" && AlgorithmOf(h) == ALGORITHM
    ensures VerifyPassword(h, password, HashPassword(h, password, "\U{E9}", generated).value, generated)
        == Err(TypeError)
  {
    assert "\U{E9}"[0] as int == 0xE9;
    OtherSaltRaises(h, password, "\U{E9}", generated);
  }

  /** With the settings fixed, the right password verifies. */
  lemma RightPasswordVerifies(h: Hasher, password: string, salt: string, generated: string)
    requires IsValidInput(password, salt) && IsAscii(salt) && AlgorithmOf(h) == ALGORITHM
    ensures VerifyPassword(h, password, HashPassword(h, password, salt, generated).value, generated) == Ok(true)
  {
    VerifyAcceptsIff(h, h, password, password, salt, generated);
  }

  /** Without a salt of its own a record takes the generated one, and verifies if that is ASCII. */
  lemma GeneratedSaltVerifies(h: Hasher, password: string, generated: string, other: string)
    requires IsValidInput(password, generated) && IsAscii(generated) && AlgorithmOf(h) == ALGORITHM
    ensures HashPassword(h, password, "", generated) == HashPassword(h, password, generated, other)
    ensures VerifyPassword(h, password, HashPassword(h, password, "", generated).value, other) == Ok(true)
  {
    RightPasswordVerifies(h, password, generated, other);
  }

  /** The record that `encode` writes under these settings. */
  function OwnText(h: Hasher, password: string, salt: string): string {
    ALGORITHM + "$" + Decimal(IterationsOf(h)) + "$" + salt + "$" + Encode(h.kdf(password, salt))
  }

  lemma OwnTextIs(h: Hasher, password: string, salt: string)
    requires AlgorithmOf(h) == ALGORITHM
    ensures OwnText(h, password, salt)
            == Record(AlgorithmOf(h), Decimal(IterationsOf(h)), salt, Strip(Encode(h.kdf(password, salt))))
  {
    HashWithout(h.kdf(password, salt));
    JoinFour(ALGORITHM, Decimal(IterationsOf(h)), salt, Encode(h.kdf(password, salt)), '$');
  }

  lemma AcceptedIsOwn(h: Hasher, password: string, text: string, generated: string)
    requires VerifyPassword(h, password, text, generated) == Ok(true)
    ensures AlgorithmOf(h) == ALGORITHM
    ensures exists salt :: IsValidInput(password, salt) && IsAscii(salt) && text == OwnText(h, password, salt)
  {
    var salt := Split(text, '$')[2];
    var x := Strip(Encode(h.kdf(password, salt)));
    DecimalWithout(IterationsOf(h), '$');
    HashWithout(h.kdf(password, salt));
    FourPartsIff(AlgorithmOf(h), Decimal(IterationsOf(h)), salt, x);
    AsciiRecord(IterationsOf(h), salt, h.kdf(password, salt));
    OwnTextIs(h, password, salt);
  }

  /** Of all texts that could be stored, exactly the records that `encode` writes for this password under these
      settings, on some ASCII salt, are accepted. */
  lemma AcceptsOwnRecordsOnly(h: Hasher, password: string, text: string, generated: string)
    ensures VerifyPassword(h, password, text, generated) == Ok(true)
            <==> AlgorithmOf(h) == ALGORITHM
                 && exists salt :: IsValidInput(password, salt) && IsAscii(salt) && text == OwnText(h, password, salt)
  {
    if VerifyPassword(h, password, text, generated) == Ok(true) {
      AcceptedIsOwn(h, password, text, generated);
    }
    if AlgorithmOf(h) == ALGORITHM {
      forall salt | IsValidInput(password, salt) && IsAscii(salt) && text == OwnText(h, password, salt)
        ensures VerifyPassword(h, password, text, generated) == Ok(true)
      {
        OwnTextIs(h, password, salt);
        RightPasswordVerifies(h, password, salt, generated);
      }
    }
  }

  /** With neither setting given, the record names the hasher's own algorithm and iterations. */
  lemma DefaultRecord(h: Hasher, password: string, salt: string, generated: string)
    requires h.algorithm == "" && h.iterations == 0 && IsValidInput(password, salt)
    ensures HashPassword(h, password, salt, generated)
            == Ok("pbkdf2_sha256" + "$" + "180000" + "$" + salt + "$" + Encode(h.kdf(password, salt)))
  {
    DefaultIterations();
    OwnTextIs(h, password, salt);
  }

  lemma DefaultIterations()
    ensures Decimal(180000) == "180000"
  {
    assert Decimal(180) == "180";
    assert Decimal(1800) == "1800" && Decimal(18000) == "18000";
  }
}
