/**
  * The local password verifier string (internal/auth/identity/local.go).
  * Argon2id of RFC 9106 is an arbitrary function from its inputs to a key of the length asked for.
  */
module PasswordVerifier {
  import opened Text
  import opened Base64

  const CURRENT_MEMORY: nat := 64 * 1024
  const CURRENT_ITERATIONS: nat := 3
  const CURRENT_PARALLELISM: nat := 4
  const SALT_BYTES: nat := 16
  const KEY_BYTES: nat := 32
  const MIN_PASSWORD_BYTES: nat := 12
  const MAX_PASSWORD_BYTES: nat := 1024
  const ARGON2_VERSION: nat := 19

  datatype Parameters = Parameters(memory: nat, iterations: nat, parallelism: nat)

  const CURRENT: Parameters := Parameters(CURRENT_MEMORY, CURRENT_ITERATIONS, CURRENT_PARALLELISM)

  /** Password, salt, parameters, key length. */
  type Derivation = (seq<Byte>, seq<Byte>, Parameters, nat) -> seq<Byte>

  ghost predicate Derives(kdf: Derivation) {
    forall password, salt, how, length :: |kdf(password, salt, how, length)| == length
  }

  /** The derivation refuses to run, by a panic, with no rounds or no lanes. */
  predicate Runnable(how: Parameters) {
    how.iterations >= 1 && how.parallelism >= 1
  }

  /** What the parameters' Go types can hold. */
  predicate Representable(how: Parameters) {
    how.memory < 0x1_0000_0000 && how.iterations < 0x1_0000_0000 && how.parallelism < 0x100
  }

  // --- cutting text apart ----------------------------------------------------------------------

  predicate Lacks(s: string, separator: char) {
    forall i :: 0 <= i < |s| ==> s[i] != separator
  }

  predicate AllLack(parts: seq<string>, separator: char) {
    forall k :: 0 <= k < |parts| ==> Lacks(parts[k], separator)
  }

  function Join(parts: seq<string>, separator: char): string
    requires parts != []
  {
    if |parts| == 1 then parts[0] else parts[0] + [separator] + Join(parts[1..], separator)
  }

  function Split(s: string, separator: char): (parts: seq<string>)
    ensures parts != []
  {
    if s == "" then [""]
    else
      var rest := Split(s[1..], separator);
      if s[0] == separator then [""] + rest else [[s[0]] + rest[0]] + rest[1..]
  }

  /** Cutting is the inverse of joining. */
  lemma {:induction false} JoinOfSplit(s: string, separator: char)
    ensures Join(Split(s, separator), separator) == s && AllLack(Split(s, separator), separator)
  {
    if s != "" {
      JoinOfSplit(s[1..], separator);
      var rest := Split(s[1..], separator);
      var parts := Split(s, separator);
      assert s == [s[0]] + s[1..];
      if s[0] == separator {
        assert parts[1..] == rest;
      } else {
        assert parts[0] == [s[0]] + rest[0];
        assert parts[1..] == rest[1..];
      }
    }
  }

  lemma {:induction false} SplitOfLacking(s: string, separator: char)
    requires Lacks(s, separator)
    ensures Split(s, separator) == [s]
  {
    if s != "" {
      SplitOfLacking(s[1..], separator);
      assert s == [s[0]] + s[1..];
    }
  }

  lemma {:induction false} SplitAtFirst(head: string, separator: char, tail: string)
    requires Lacks(head, separator)
    ensures Split(head + [separator] + tail, separator) == [head] + Split(tail, separator)
  {
    var s := head + [separator] + tail;
    if head == "" {
      assert s[1..] == tail;
    } else {
      assert s[1..] == head[1..] + [separator] + tail;
      SplitAtFirst(head[1..], separator, tail);
      assert head == [head[0]] + head[1..];
    }
  }

  lemma {:induction false} SplitOfJoin(parts: seq<string>, separator: char)
    requires parts != [] && AllLack(parts, separator)
    ensures Split(Join(parts, separator), separator) == parts
  {
    if |parts| == 1 {
      SplitOfLacking(parts[0], separator);
    } else {
      SplitOfJoin(parts[1..], separator);
      SplitAtFirst(parts[0], separator, Join(parts[1..], separator));
      assert parts == [parts[0]] + parts[1..];
    }
  }

  // --- numbers ---------------------------------------------------------------------------------

  predicate AllDigits(s: string) {
    forall i :: 0 <= i < |s| ==> '0' <= s[i] <= '9'
  }

  function ValueOf(s: string): nat
    requires AllDigits(s)
  {
    if s == "" then 0 else 10 * ValueOf(s[..|s| - 1]) + (s[|s| - 1] as int - '0' as int)
  }

  /** `strconv.ParseUint` in base ten, for 32 bits: leading zeros are read, signs are not. */
  function ParseUint32(s: string): (r: Option<nat>)
    ensures r.Some? ==> r.value < 0x1_0000_0000
  {
    if s == "" || !AllDigits(s) || ValueOf(s) >= 0x1_0000_0000 then None else Some(ValueOf(s))
  }

  lemma {:induction false} ValueOfDecimal(n: nat)
    ensures AllDigits(Decimal(n)) && ValueOf(Decimal(n)) == n
  {
    var s := Decimal(n);
    if n < 10 {
      assert s[..0] == "";
    } else {
      ValueOfDecimal(n / 10);
      assert s[..|s| - 1] == Decimal(n / 10);
    }
  }

  lemma {:induction false} NumberRoundTrip(n: nat)
    ensures ParseUint32(Decimal(n)) == if n < 0x1_0000_0000 then Some(n) else None
  {
    ValueOfDecimal(n);
  }

  /** A named parameter such as `m=65536`; the source reads the name as text before an equals sign. */
  function ParseParameter(raw: string, name: char): (r: Option<nat>)
    ensures r.Some? <==> exists digits :: raw == [name, '='] + digits && ParseUint32(digits).Some?
    ensures r.Some? ==> raw == [name, '='] + raw[2..] && r == ParseUint32(raw[2..])
  {
    if |raw| < 2 || raw[..2] != [name, '='] then None
    else
      assert raw == [name, '='] + raw[2..];
      assert forall digits :: raw == [name, '='] + digits ==> raw[2..] == digits;
      ParseUint32(raw[2..])
  }

  // --- writing ---------------------------------------------------------------------------------

  function Named(name: char, n: nat): string {
    [name, '='] + Decimal(n)
  }

  function Printed(salt: seq<Byte>, how: Parameters, key: seq<Byte>): string {
    Join(["", "argon2id", Named('v', ARGON2_VERSION),
          Join([Named('m', how.memory), Named('t', how.iterations), Named('p', how.parallelism)], ','),
          Base64.Encode(salt), Base64.Encode(key)], '$')
  }

  function EncodePassword(kdf: Derivation, password: seq<Byte>, salt: seq<Byte>, how: Parameters): string
    requires Representable(how) && Runnable(how)
  {
    Printed(salt, how, kdf(password, salt, how, KEY_BYTES))
  }

  /** The salt is drawn outside. */
  function HashPassword(kdf: Derivation, password: seq<Byte>, salt: seq<Byte>): Option<string>
    requires |salt| == SALT_BYTES
  {
    if |password| < MIN_PASSWORD_BYTES || |password| > MAX_PASSWORD_BYTES then None
    else Some(EncodePassword(kdf, password, salt, CURRENT))
  }

  // --- reading ---------------------------------------------------------------------------------

  datatype Stored = Stored(salt: seq<Byte>, how: Parameters, key: seq<Byte>)

  predicate InRange(v: Stored) {
    && 0 < v.how.memory < 0x1_0000_0000 && 0 < v.how.iterations < 0x1_0000_0000 && v.how.parallelism <= 255
    && 8 <= |v.salt| <= 64 && |v.key| == KEY_BYTES
  }

  function ParseParameters(raw: string): (r: Option<Parameters>) {
    var parameters := Split(raw, ',');
    if |parameters| != 3 then None
    else
      var memory := ParseParameter(parameters[0], 'm');
      var iterations := ParseParameter(parameters[1], 't');
      var parallel := ParseParameter(parameters[2], 'p');
      if memory.None? || iterations.None? || parallel.None? then None
      else Some(Parameters(memory.value, iterations.value, parallel.value))
  }

  function Parse(encoded: string): (r: Option<Stored>)
    ensures r.Some? ==> InRange(r.value)
  {
    var parts := Split(encoded, '$');
    if |parts| != 6 || parts[1] != "argon2id" then None
    else if ParseParameter(parts[2], 'v') != Some(ARGON2_VERSION) then None
    else
      match ParseParameters(parts[3])
      case None => None
      case Some(how) =>
        if how.parallelism > 255 || how.memory == 0 || how.iterations == 0 then None
        else
          var salt := Base64.Decode(parts[4]);
          if salt.None? || |salt.value| < 8 || |salt.value| > 64 then None
          else
            var want := Base64.Decode(parts[5]);
            if want.None? || |want.value| != KEY_BYTES then None else Some(Stored(salt.value, how, want.value))
  }

  datatype Outcome = Unusable | Panics | Checked(valid: bool, needsRehash: bool)

  /** A stored verifier with no lanes gets past the source's checks and into the derivation's panic. */
  function VerifyPassword(kdf: Derivation, encoded: string, password: seq<Byte>): (r: Outcome) {
    match Parse(encoded)
    case None => Unusable
    case Some(v) =>
      if !Runnable(v.how) then Panics
      else Checked(kdf(password, v.salt, v.how, |v.key|) == v.key, v.how != CURRENT)
  }

  // --- which strings are read ------------------------------------------------------------------

  /** The seven free texts in a verifier; what precedes the first `$` is never looked at. */
  datatype Texts = Texts(before: string, version: string, memory: string, iterations: string, parallelism: string,
                         salt: string, key: string)

  function ParameterParts(t: Texts): seq<string> {
    [['m', '='] + t.memory, ['t', '='] + t.iterations, ['p', '='] + t.parallelism]
  }

  function Parts(t: Texts): (parts: seq<string>)
    ensures |parts| == 6
  {
    [t.before, "argon2id", ['v', '='] + t.version, Join(ParameterParts(t), ','), t.salt, t.key]
  }

  function Assembled(t: Texts): string {
    Join(Parts(t), '$')
  }

  predicate DenoteParameters(t: Texts, how: Parameters) {
    && ParseUint32(t.memory) == Some(how.memory)
    && ParseUint32(t.iterations) == Some(how.iterations)
    && ParseUint32(t.parallelism) == Some(how.parallelism)
  }

  predicate Denotes(t: Texts, v: Stored) {
    && Lacks(t.before, '$')
    && ParseUint32(t.version) == Some(ARGON2_VERSION)
    && DenoteParameters(t, v.how)
    && Base64.Decode(t.salt) == Some(v.salt)
    && Base64.Decode(t.key) == Some(v.key)
  }

  lemma {:induction false} DecodedLacks(s: string)
    requires Base64.Decode(s).Some?
    ensures Lacks(s, '$')
  {
    forall i | 0 <= i < |s| ensures s[i] != '$' {
      DecodedHolds(s, i);
    }
  }

  lemma {:induction false} ParametersLack(t: Texts, how: Parameters)
    requires DenoteParameters(t, how)
    ensures AllLack(ParameterParts(t), ',') && Lacks(Join(ParameterParts(t), ','), '$')
  {
    var parts := ParameterParts(t);
    assert parts[1..][1..] == [parts[2]];
    assert Join(parts[1..], ',') == parts[1] + [','] + Join([parts[2]], ',');
    assert Join(parts, ',') == parts[0] + [','] + (parts[1] + [','] + parts[2]);
    forall k | 0 <= k < 3 ensures Lacks(parts[k], ',') && Lacks(parts[k], '$') {
      var digits := if k == 0 then t.memory else if k == 1 then t.iterations else t.parallelism;
      assert AllDigits(digits);
    }
  }

  lemma {:induction false} ParametersAreRead(t: Texts, how: Parameters)
    requires DenoteParameters(t, how)
    ensures ParseParameters(Join(ParameterParts(t), ',')) == Some(how)
  {
    ParametersLack(t, how);
    SplitOfJoin(ParameterParts(t), ',');
    ParameterIsRead('m', t.memory);
    ParameterIsRead('t', t.iterations);
    ParameterIsRead('p', t.parallelism);
  }

  lemma {:induction false} ParameterIsRead(name: char, digits: string)
    ensures ParseParameter([name, '='] + digits, name) == ParseUint32(digits)
  {
    assert ([name, '='] + digits)[2..] == digits;
  }

  lemma {:induction false} DenotedLack(t: Texts, v: Stored)
    requires Denotes(t, v)
    ensures AllLack(Parts(t), '$')
  {
    ParametersLack(t, v.how);
    DecodedLacks(t.salt);
    DecodedLacks(t.key);
    assert AllDigits(t.version);
  }

  /** Every text that denotes an in-range verifier is read as that verifier. */
  lemma {:induction false} DenotedIsRead(t: Texts, v: Stored)
    requires Denotes(t, v)
    ensures Parse(Assembled(t)) == if InRange(v) then Some(v) else None
  {
    DenotedLack(t, v);
    SplitOfJoin(Parts(t), '$');
    ParameterIsRead('v', t.version);
    ParametersAreRead(t, v.how);
  }

  /** Nothing else is read. */
  lemma {:induction false} ReadIsDenoted(encoded: string) returns (t: Texts)
    requires Parse(encoded).Some?
    ensures encoded == Assembled(t) && Denotes(t, Parse(encoded).value)
  {
    var parts := Split(encoded, '$');
    JoinOfSplit(encoded, '$');
    var parameters := Split(parts[3], ',');
    JoinOfSplit(parts[3], ',');
    t := Texts(parts[0], parts[2][2..], parameters[0][2..], parameters[1][2..], parameters[2][2..], parts[4], parts[5]);
    assert parameters == ParameterParts(t);
    assert parts == Parts(t);
  }

  // --- what was written is read back -----------------------------------------------------------

  lemma {:induction false} PrintedIsRead(salt: seq<Byte>, how: Parameters, key: seq<Byte>)
    requires Representable(how)
    ensures var v := Stored(salt, how, key);
            Parse(Printed(salt, how, key)) == if InRange(v) then Some(v) else None
  {
    var t := Texts("", Decimal(ARGON2_VERSION), Decimal(how.memory), Decimal(how.iterations),
                   Decimal(how.parallelism), Base64.Encode(salt), Base64.Encode(key));
    NumberRoundTrip(ARGON2_VERSION);
    NumberRoundTrip(how.memory);
    NumberRoundTrip(how.iterations);
    NumberRoundTrip(how.parallelism);
    Base64.RoundTrip(salt);
    Base64.RoundTrip(key);
    assert Printed(salt, how, key) == Assembled(t);
    DenotedIsRead(t, Stored(salt, how, key));
  }

  /**
    * A password checked against what another was written as: usable exactly when the salt has 8 to 64 bytes and
    * memory is positive; then it passes exactly when the derived keys match, and asks for a rehash exactly when the
    * parameters are not the current ones.
    */
  lemma {:induction false} VerifyOfEncode(
      kdf: Derivation, written: seq<Byte>, given: seq<Byte>, salt: seq<Byte>, how: Parameters)
    requires Derives(kdf) && Representable(how) && Runnable(how)
    ensures VerifyPassword(kdf, EncodePassword(kdf, written, salt, how), given)
            == if 8 <= |salt| <= 64 && how.memory > 0
               then Checked(kdf(given, salt, how, KEY_BYTES) == kdf(written, salt, how, KEY_BYTES), how != CURRENT)
               else Unusable
  {
    PrintedIsRead(salt, how, kdf(written, salt, how, KEY_BYTES));
  }

  /** The password just hashed is accepted, with nothing to rehash. */
  lemma {:induction false} HashThenVerify(kdf: Derivation, password: seq<Byte>, salt: seq<Byte>)
    requires Derives(kdf) && |salt| == SALT_BYTES
    ensures HashPassword(kdf, password, salt).Some? <==> 12 <= |password| <= 1024
    ensures HashPassword(kdf, password, salt).Some? ==>
              VerifyPassword(kdf, HashPassword(kdf, password, salt).value, password) == Checked(true, false)
  {
    if 12 <= |password| <= 1024 {
      VerifyOfEncode(kdf, password, password, salt, CURRENT);
    }
  }

  /** Every string that is not refused outright, and which of those reach the panic. */
  lemma {:induction false} OutcomeOfAnyString(kdf: Derivation, encoded: string, password: seq<Byte>)
    ensures VerifyPassword(kdf, encoded, password) != Unusable
            <==> exists t, v :: encoded == Assembled(t) && Denotes(t, v) && InRange(v)
    ensures forall t, v :: encoded == Assembled(t) && Denotes(t, v) && InRange(v) ==>
              VerifyPassword(kdf, encoded, password)
              == if v.how.parallelism == 0 then Panics
                 else Checked(kdf(password, v.salt, v.how, KEY_BYTES) == v.key, v.how != CURRENT)
  {
    forall t, v | encoded == Assembled(t) && Denotes(t, v) && InRange(v)
      ensures Parse(encoded) == Some(v)
    {
      DenotedIsRead(t, v);
    }
    if Parse(encoded).Some? {
      var t := ReadIsDenoted(encoded);
    }
  }

  // --- one verifier without lanes --------------------------------------------------------------

  function Letters(n: nat): string {
    seq(n, _ => 'A')
  }

  /** Eight zero bytes of salt and thirty-two of key. */
  const NO_LANES := "$argon2id$v=19$m=1,t=1,p=0$" + Letters(11) + "$" + Letters(43)

  lemma {:induction false} JoinMore(part: string, rest: seq<string>, separator: char)
    requires rest != []
    ensures Join([part] + rest, separator) == part + [separator] + Join(rest, separator)
  {
    assert ([part] + rest)[1..] == rest;
  }

  lemma {:induction false} JoinThree(a: string, b: string, c: string, separator: char)
    ensures Join([a, b, c], separator) == a + [separator] + (b + [separator] + c)
  {
    JoinMore(b, [c], separator);
    JoinMore(a, [b] + [c], separator);
    assert [a] + ([b] + [c]) == [a, b, c];
  }

  lemma {:induction false} JoinSix(a: string, b: string, c: string, d: string, e: string, f: string, separator: char)
    ensures Join([a, b, c, d, e, f], separator)
            == (a + [separator] + (b + [separator] + (c + [separator] + (d + [separator])))) + e + [separator] + f
  {
    JoinThree(d, e, f, separator);
    JoinMore(c, [d, e, f], separator);
    JoinMore(b, [c] + [d, e, f], separator);
    JoinMore(a, [b] + ([c] + [d, e, f]), separator);
    assert [a] + ([b] + ([c] + [d, e, f])) == [a, b, c, d, e, f];
  }

  lemma NoLanesHead()
    ensures "" + "$" + ("argon2id" + "$" + ("v=19" + "$" + ("m=1,t=1,p=0" + "$"))) == "$argon2id$v=19$m=1,t=1,p=0$"
  {
  }

  lemma {:induction false} NoLanesParameters(t: Texts)
    requires t.memory == "1" && t.iterations == "1" && t.parallelism == "0"
    ensures Join(ParameterParts(t), ',') == "m=1,t=1,p=0"
  {
    JoinThree(['m', '='] + t.memory, ['t', '='] + t.iterations, ['p', '='] + t.parallelism, ',');
    assert Join(ParameterParts(t), ',') == "m=1" + "," + ("t=1" + "," + "p=0");
  }

  lemma {:induction false} NoLanesAssembled(t: Texts)
    requires t == Texts("", "19", "1", "1", "0", Letters(11), Letters(43))
    ensures Assembled(t) == NO_LANES
  {
    NoLanesParameters(t);
    JoinSix("", "argon2id", "v=19", "m=1,t=1,p=0", t.salt, t.key, '$');
    NoLanesHead();
    assert ['v', '='] + t.version == "v=19";
    assert Parts(t) == ["", "argon2id", "v=19", "m=1,t=1,p=0", t.salt, t.key];
  }

  lemma {:induction false} SmallNumbers()
    ensures ParseUint32("19") == Some(19) && ParseUint32("1") == Some(1) && ParseUint32("0") == Some(0)
  {
    NumberRoundTrip(19);
    NumberRoundTrip(1);
    NumberRoundTrip(0);
    assert Decimal(19) == "19" && Decimal(1) == "1" && Decimal(0) == "0";
  }

  lemma {:induction false} NoLanesDenotes(t: Texts) returns (v: Stored)
    requires t == Texts("", "19", "1", "1", "0", Letters(11), Letters(43))
    ensures Denotes(t, v) && InRange(v) && v.how == Parameters(1, 1, 0)
  {
    DecodeLength(t.salt);
    DecodeLength(t.key);
    SmallNumbers();
    v := Stored(Base64.Decode(t.salt).value, Parameters(1, 1, 0), Base64.Decode(t.key).value);
  }

  /** The source's checks let this one through to the derivation. */
  lemma {:induction false} NoLanesPanics(kdf: Derivation, password: seq<Byte>)
    ensures VerifyPassword(kdf, NO_LANES, password) == Panics
  {
    var t := Texts("", "19", "1", "1", "0", Letters(11), Letters(43));
    NoLanesAssembled(t);
    var v := NoLanesDenotes(t);
    DenotedIsRead(t, v);
  }
}
