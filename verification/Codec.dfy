/** The length-prefixed field codec (pkg/mtg/encode.go, pkg/mtg/scan.go) and the market request
    built on it (core/proposal/market.go). */
module Codec {

  type Byte = x: int | 0 <= x < 256

  datatype Result<T> = Ok(value: T) | Err

  // ---- Varints ------------------------------------------------------------------------------------

  const TWO64: nat := 0x1_0000_0000_0000_0000

  /** binary.PutUvarint: seven bits a byte, least significant first. */
  function PutUvarint(x: nat): seq<Byte>
  {
    if x < 128 then [x] else [x % 128 + 128] + PutUvarint(x / 128)
  }

  /** binary.Uvarint from byte i on, with acc read so far and the next byte worth unit. An
      unfinished or overlong number reads as 0, and Scan does not look at the byte count. */
  function Uvarint(buf: seq<Byte>, i: nat, acc: nat, unit: nat): nat
  {
    if buf == [] || i == 10 then 0
    else if buf[0] < 128 then (if i == 9 && buf[0] > 1 then 0 else acc + buf[0] * unit)
    else Uvarint(buf[1..], i + 1, acc + (buf[0] - 128) * unit, unit * 128)
  }

  /** Zigzag: the sign goes to the lowest bit. */
  function ZigZag(x: int): nat { if x >= 0 then 2 * x else -2 * x - 1 }

  function UnZigZag(u: nat): int { if u % 2 == 0 then u / 2 else -(u / 2) - 1 }

  /** How large a number can still be at byte i of an unsigned 64-bit number. */
  function Room(i: nat): nat { if i == 0 then TWO64 else Room(i - 1) / 128 }

  lemma {:induction false} RoomPositive(i: nat)
    requires i <= 9
    ensures Room(i) >= 2 && (i == 9 ==> Room(i) == 2)
  {
    assert Room(3) == 8796093022208 && Room(6) == 4194304 && Room(9) == 2;
    if i != 3 && i != 6 && i != 9 { assert Room(i + 1) == Room(i) / 128 || i == 0; }
  }

  lemma RoomShrinks(x: nat, i: nat)
    requires i <= 9 && 128 <= x < Room(i)
    ensures i < 9 && x / 128 < Room(i + 1)
  {
    assert Room(3) == 8796093022208 && Room(6) == 4194304 && Room(9) == 2;
    assert Room(i + 1) == Room(i) / 128;
    assert Room(i) % 128 == 0 || i == 9;
  }

  lemma Digits(x: nat, acc: nat, unit: nat)
    ensures (acc + (x % 128) * unit) + (x / 128) * (unit * 128) == acc + x * unit
  {
    var q, b := x / 128, x % 128;
    assert x == q * 128 + b;
    assert (q * 128 + b) * unit == q * (unit * 128) + b * unit;
  }

  lemma {:induction false} UvarintReadsBack(x: nat, i: nat, acc: nat, unit: nat)
    requires i <= 9 && x < Room(i)
    ensures Uvarint(PutUvarint(x), i, acc, unit) == acc + x * unit
    ensures 1 <= |PutUvarint(x)| <= 10 - i
    decreases x
  {
    if x >= 128 {
      RoomShrinks(x, i);
      assert PutUvarint(x)[1..] == PutUvarint(x / 128);
      UvarintReadsBack(x / 128, i + 1, acc + (x % 128) * unit, unit * 128);
      Digits(x, acc, unit);
    } else {
      RoomPositive(i);
    }
  }

  /** The number that groups of seven bits stand for, least significant first. */
  function Groups(b: seq<Byte>): nat { if b == [] then 0 else b[0] % 128 + 128 * Groups(b[1..]) }

  /** The wire form of a varint: every byte but the last has its high bit set, and no group is wasted. */
  lemma {:induction false} VarintForm(x: nat)
    ensures var b := PutUvarint(x);
      && b != [] && Groups(b) == x && b[|b| - 1] < 128 && (|b| > 1 ==> b[|b| - 1] > 0)
      && (forall k :: 0 <= k < |b| - 1 ==> b[k] >= 128)
    decreases x
  {
    var b := PutUvarint(x);
    if x >= 128 {
      var rest := PutUvarint(x / 128);
      VarintForm(x / 128);
      assert b[1..] == rest;
      forall k | 0 <= k < |b| - 1
        ensures b[k] >= 128
      {
        if k > 0 { assert b[k] == rest[k - 1]; }
      }
      assert b[|b| - 1] == rest[|rest| - 1];
      if |rest| == 1 { assert Groups(rest) == rest[0] + 128 * Groups(rest[1..]); }
    }
  }

  // ---- Fields ---------------------------------------------------------------------------------------

  /** What can be put in a field. Identifiers and decimals carry their marshalled bytes, which
      determine them; any other Go type is refused. A decimal is four bytes of exponent and, unless it
      is the bare zero value, a byte for version and sign and the coefficient without leading zeros. */
  datatype Value =
    | Int(bits: nat, i: int)
    | Uint(bits: nat, u: nat)
    | Text(text: seq<Byte>)
    | Uuid(id: seq<Byte>)
    | Dec(dec: seq<Byte>)
    | Unsupported

  function Pow2(n: nat): nat { if n == 0 then 1 else 2 * Pow2(n - 1) }

  /** What the decimal decoder accepts: an exponent, then nothing or a known version. */
  predicate DecimalBytes(d: seq<Byte>) { |d| >= 4 && (|d| == 4 || d[4] == 2 || d[4] == 3) }

  function StripZeros(d: seq<Byte>): seq<Byte> { if d != [] && d[0] == 0 then StripZeros(d[1..]) else d }

  /** The decimal it then holds. */
  function ReadDecimal(d: seq<Byte>): seq<Byte>
    requires DecimalBytes(d)
  {
    if |d| == 4 then d + [2] else d[..5] + StripZeros(d[5..])
  }

  /** The bare zero value reads back as an explicit zero with its exponent; all else as itself. */
  function Normal(v: Value): Value { if v.Dec? && |v.dec| == 4 then Dec(v.dec + [2]) else v }

  /** A value its Go type can hold. */
  predicate Fits(v: Value)
  {
    match v
    case Int(bits, i) => 0 < bits <= 64 && 0 <= i + Pow2(bits - 1) < 2 * Pow2(bits - 1)
    case Uint(bits, u) => bits <= 64 && u < Pow2(bits)
    case Text(_) => true
    case Uuid(id) => |id| == 16
    case Dec(dec) => DecimalBytes(dec) && (|dec| > 5 ==> dec[5] != 0)
    case Unsupported => true
  }

  function EncodeValue(v: Value): Result<seq<Byte>>
  {
    match v
    case Int(_, i) => Ok(PutUvarint(ZigZag(i)))
    case Uint(_, u) => Ok(PutUvarint(u))
    case Text(text) => Ok(text)
    case Uuid(id) => Ok(id)
    case Dec(dec) => Ok(dec)
    case Unsupported => Err
  }

  /** Decodes into a destination of the given type. */
  function ScanValue(data: seq<Byte>, dest: Value): Result<Value>
  {
    match dest
    case Int(bits, _) =>
      var v := Int(bits, UnZigZag(Uvarint(data, 0, 0, 1)));
      if Fits(v) then Ok(v) else Err
    case Uint(bits, _) =>
      var v := Uint(bits, Uvarint(data, 0, 0, 1));
      if Fits(v) then Ok(v) else Err
    case Text(_) => Ok(Text(data))
    case Uuid(_) => if |data| == 16 then Ok(Uuid(data)) else Err
    case Dec(_) => if DecimalBytes(data) then Ok(Dec(ReadDecimal(data))) else Err
    case Unsupported => Err
  }

  predicate SameType(v: Value, dest: Value)
  {
    match v
    case Int(bits, _) => dest.Int? && dest.bits == bits
    case Uint(bits, _) => dest.Uint? && dest.bits == bits
    case Text(_) => dest.Text?
    case Uuid(_) => dest.Uuid?
    case Dec(_) => dest.Dec?
    case Unsupported => dest.Unsupported?
  }

  lemma {:induction false} Pow2Monotone(m: nat, n: nat)
    requires m <= n
    ensures 0 < Pow2(m) <= Pow2(n)
    decreases n
  {
    if m < n { Pow2Monotone(m, n - 1); } else if n > 0 { Pow2Monotone(m - 1, n - 1); }
  }

  lemma Pow2Of64()
    ensures Pow2(64) == TWO64
  {
    assert Pow2(8) == 256;
    assert Pow2(16) == 256 * Pow2(8) by { Pow2Eight(8); }
    assert Pow2(24) == 256 * Pow2(16) by { Pow2Eight(16); }
    assert Pow2(32) == 256 * Pow2(24) by { Pow2Eight(24); }
    assert Pow2(40) == 256 * Pow2(32) by { Pow2Eight(32); }
    assert Pow2(48) == 256 * Pow2(40) by { Pow2Eight(40); }
    assert Pow2(56) == 256 * Pow2(48) by { Pow2Eight(48); }
    assert Pow2(64) == 256 * Pow2(56) by { Pow2Eight(56); }
  }

  lemma Pow2Eight(n: nat)
    ensures Pow2(n + 8) == 256 * Pow2(n)
  {
    assert Pow2(n + 2) == 4 * Pow2(n);
    assert Pow2(n + 4) == 4 * Pow2(n + 2);
    assert Pow2(n + 6) == 4 * Pow2(n + 4);
    assert Pow2(n + 8) == 4 * Pow2(n + 6);
  }

  lemma SignedReadsBack(bits: nat, i: int)
    requires Fits(Int(bits, i))
    ensures UnZigZag(Uvarint(PutUvarint(ZigZag(i)), 0, 0, 1)) == i && PutUvarint(ZigZag(i)) != []
  {
    Pow2Monotone(bits - 1, 63);
    Pow2Of64();
    assert Pow2(64) == 2 * Pow2(63);
    UvarintReadsBack(ZigZag(i), 0, 0, 1);
    ZigZagBack(i);
  }

  lemma ZigZagBack(i: int)
    ensures UnZigZag(ZigZag(i)) == i
  {
  }

  /** A field read back is the value it was written from. */
  lemma ValueRoundTrip(v: Value, dest: Value)
    requires Fits(v) && !v.Unsupported? && SameType(v, dest)
    ensures ScanValue(EncodeValue(v).value, dest) == Ok(Normal(v))
    ensures EncodeValue(v).value == [] ==> v == Text([])
  {
    match v
    case Int(bits, i) => SignedReadsBack(bits, i);
    case Uint(bits, u) =>
      Pow2Monotone(bits, 64);
      Pow2Of64();
      UvarintReadsBack(u, 0, 0, 1);
    case Text(_) =>
    case Uuid(_) =>
    case Dec(dec) => DecimalReadsBack(dec);
  }

  lemma DecimalReadsBack(d: seq<Byte>)
    requires DecimalBytes(d) && (|d| > 5 ==> d[5] != 0)
    ensures ReadDecimal(d) == Normal(Dec(d)).dec
  {
    if |d| > 4 {
      assert d[..5] + d[5..] == d;
      assert StripZeros(d[5..]) == d[5..];
    }
  }

  // ---- Records -----------------------------------------------------------------------------------------

  /** One field: its length in a byte, then its bytes. */
  function EncodeField(v: Value): Result<seq<Byte>>
  {
    match EncodeValue(v)
    case Ok(b) => if |b| > 255 then Err else Ok([|b|] + b)
    case Err => Err
  }

  function Encoded(values: seq<Value>): Result<seq<Byte>>
  {
    if values == [] then Ok([])
    else
      match (EncodeField(values[0]), Encoded(values[1..]))
      case (Ok(b), Ok(rest)) => Ok(b + rest)
      case _ => Err
  }

  function After(buf: seq<Byte>, r: Result<seq<Byte>>): Result<seq<Byte>> { if r.Ok? then Ok(buf + r.value) else Err }

  lemma AfterBoth(buf: seq<Byte>, b: seq<Byte>, r: Result<seq<Byte>>)
    ensures After(buf, After(b, r)) == After(buf + b, r)
    ensures After([], r) == r && After(buf, Ok([])) == Ok(buf)
  {
    if r.Ok? {
      assert buf + (b + r.value) == (buf + b) + r.value;
      assert [] + r.value == r.value;
    }
    assert buf + [] == buf;
  }

  lemma NextField(values: seq<Value>, k: nat)
    requires k < |values|
    ensures var b, rest := EncodeField(values[k]), Encoded(values[k + 1..]);
      Encoded(values[k..]) == if b.Ok? then After(b.value, rest) else Err
  {
    assert values[k..][0] == values[k] && values[k..][1..] == values[k + 1..];
  }

  /** Encode, appending to a buffer until a field fails. */
  method Encode(values: seq<Value>) returns (r: Result<seq<Byte>>)
    ensures r == Encoded(values)
  {
    var buf: seq<Byte> := [];
    assert values[0..] == values;
    AfterBoth([], [], Encoded(values));
    for k := 0 to |values|
      invariant Encoded(values) == After(buf, Encoded(values[k..]))
    {
      var b := EncodeValue(values[k]);
      NextField(values, k);
      if b.Err? { return Err; }
      if |b.value| > 255 { return Err; }
      AfterBoth(buf, [|b.value|] + b.value, Encoded(values[k + 1..]));
      assert buf + [|b.value|] + b.value == buf + ([|b.value|] + b.value);
      buf := buf + [|b.value|];
      buf := buf + b.value;
    }
    AfterBoth(buf, [], Ok([]));
    return Ok(buf);
  }

  /** The destinations after a scan, and what is left of the body or the failure. */
  datatype Outcome = Outcome(dest: seq<Value>, rest: Result<seq<Byte>>)

  function Put(v: Value, o: Outcome): Outcome { Outcome([v] + o.dest, o.rest) }

  /** One field at the head of a body: the value for its destination and what is left to read. */
  datatype Field = Good(value: Value, rest: seq<Byte>) | Bad

  function ReadField(body: seq<Byte>, dest: Value): Field
  {
    if body == [] then Bad
    else if body[0] == 0 then Good(dest, body[1..])
    else if |body| - 1 < body[0] then Bad
    else
      var v := ScanValue(body[1..body[0] + 1], dest);
      if v.Ok? then Good(v.value, body[body[0] + 1..]) else Bad
  }

  function Scanned(body: seq<Byte>, dest: seq<Value>): Outcome
    decreases |dest|
  {
    if dest == [] then Outcome([], Ok(body))
    else
      match ReadField(body, dest[0])
      case Bad => Outcome(dest, Err)
      case Good(v, rest) => Put(v, Scanned(rest, dest[1..]))
  }

  /** A scan that has filled the first k destinations and will end like o on the others. */
  predicate Filled(total: Outcome, before: seq<Value>, o: Outcome, now: seq<Value>, k: nat)
  {
    k <= |before| == |now| && now[k..] == before[k..] && total == Outcome(now[..k] + o.dest, o.rest)
  }

  lemma FillNext(total: Outcome, before: seq<Value>, o: Outcome, now: seq<Value>, k: nat, v: Value)
    requires Filled(total, before, Put(v, o), now, k) && k < |now|
    ensures Filled(total, before, o, now[k := v], k + 1)
  {
    assert now[k := v][..k + 1] == now[..k] + [v];
    assert now[k := v][k + 1..] == now[k..][1..];
    assert now[..k] + ([v] + o.dest) == (now[..k] + [v]) + o.dest;
  }

  lemma FillFails(total: Outcome, before: seq<Value>, now: seq<Value>, k: nat)
    requires k <= |before| && Filled(total, before, Outcome(before[k..], Err), now, k)
    ensures total == Outcome(now, Err)
  {
    assert now[..k] + now[k..] == now;
  }

  lemma HeadOf(before: seq<Value>, now: seq<Value>, k: nat)
    requires k < |before| == |now| && now[k..] == before[k..]
    ensures before[k..] != [] && before[k..][0] == now[k] && before[k..][1..] == before[k + 1..]
  {
    assert now[k..][0] == now[k];
  }

  /** Reads the length byte and the bytes of one field. */
  method ScanField(body: seq<Byte>, dest: Value) returns (f: Field)
    ensures f == ReadField(body, dest)
  {
    if body == [] { return Bad; }
    var n := body[0];
    var r := body[1..];
    if n == 0 { return Good(dest, r); }
    if |r| < n { return Bad; }
    assert body[1..n + 1] == r[..n] && body[n + 1..] == r[n..];
    var v := ScanValue(r[..n], dest);
    if v.Err? { return Bad; }
    return Good(v.value, r[n..]);
  }

  /** Scan, reading fields into the destinations one by one; on a failure the later destinations
      keep what they held. */
  method Scan(body: seq<Byte>, dest: array<Value>) returns (rest: Result<seq<Byte>>)
    modifies dest
    ensures Outcome(dest[..], rest) == Scanned(body, old(dest[..]))
  {
    var r := body;
    ghost var before := dest[..];
    ghost var total := Scanned(body, before);
    assert before[0..] == before;
    for k := 0 to dest.Length
      invariant Filled(total, before, Scanned(r, before[k..]), dest[..], k)
    {
      ghost var now := dest[..];
      HeadOf(before, now, k);
      var f := ScanField(r, dest[k]);
      if f.Bad? {
        FillFails(total, before, now, k);
        return Err;
      }
      FillNext(total, before, Scanned(f.rest, before[k + 1..]), now, k, f.value);
      dest[k] := f.value;
      r := f.rest;
      assert dest[..] == now[k := f.value];
    }
    FillEnds(total, before, r, dest[..]);
    return Ok(r);
  }

  lemma FillEnds(total: Outcome, before: seq<Value>, r: seq<Byte>, now: seq<Value>)
    requires Filled(total, before, Scanned(r, before[|before|..]), now, |before|)
    ensures total == Outcome(now, Ok(r))
  {
    assert now[..|now|] + [] == now;
  }

  /** Fields whose encoding fits the length byte. */
  predicate Encodable(v: Value) { Fits(v) && !v.Unsupported? && |EncodeValue(v).value| <= 255 }

  /** Destinations ready to receive the values: of their types, and already right where the field
      will be empty. */
  predicate Ready(values: seq<Value>, dest: seq<Value>)
  {
    && |dest| == |values|
    && (forall k :: 0 <= k < |values| ==> SameType(values[k], dest[k]))
    && (forall k :: 0 <= k < |values| ==> values[k] == Text([]) ==> dest[k] == values[k])
  }

  function Zero(v: Value): Value
  {
    match v
    case Int(bits, _) => Int(bits, 0)
    case Uint(bits, _) => Uint(bits, 0)
    case Text(_) => Text([])
    case Uuid(_) => Uuid(seq(16, _ => 0))
    case Dec(_) => ZERO_DECIMAL
    case Unsupported => Unsupported
  }

  /** The zero Decimal: exponent 0 and no coefficient. */
  const ZERO_DECIMAL := Dec([0, 0, 0, 0])

  function Zeros(values: seq<Value>): seq<Value> { seq(|values|, k requires 0 <= k < |values| => Zero(values[k])) }

  function Normals(values: seq<Value>): seq<Value> { seq(|values|, k requires 0 <= k < |values| => Normal(values[k])) }

  lemma ZerosAreReady(values: seq<Value>)
    ensures Ready(values, Zeros(values))
  {
  }

  /** Encoding succeeds exactly on supported fields of at most 255 bytes. */
  lemma {:induction false} EncodesWhenShort(values: seq<Value>)
    ensures Encoded(values).Ok? <==> forall v :: v in values ==> EncodeField(v).Ok?
  {
    if values != [] {
      EncodesWhenShort(values[1..]);
      assert values == [values[0]] + values[1..];
    }
  }

  /** One field at the head of a body: its value lands in the destination. */
  lemma FieldRoundTrip(v: Value, dest: seq<Value>, more: seq<Byte>) returns (head: seq<Byte>)
    requires Encodable(v) && dest != [] && SameType(v, dest[0]) && (v == Text([]) ==> dest[0] == v)
    ensures EncodeField(v) == Ok(head) && Scanned(head + more, dest) == Put(Normal(v), Scanned(more, dest[1..]))
  {
    head := EncodeField(v).value;
    var b := EncodeValue(v).value;
    var body := head + more;
    ValueRoundTrip(v, dest[0]);
    assert body[0] == |b|;
    if b == [] {
      assert body[1..] == more;
    } else {
      assert body[1..|b| + 1] == b && body[|b| + 1..] == more;
    }
  }

  /** Codec round trip: whatever follows, scanning an encoding into ready destinations fills them
      with the values and gives back what follows. */
  lemma {:induction false} RoundTrip(values: seq<Value>, dest: seq<Value>, rest: seq<Byte>)
    requires (forall v :: v in values ==> Encodable(v)) && Ready(values, dest)
    ensures Encoded(values).Ok? && Scanned(Encoded(values).value + rest, dest) == Outcome(Normals(values), Ok(rest))
    decreases |values|
  {
    if values == [] {
      assert [] + rest == rest;
    } else {
      RoundTrip(values[1..], dest[1..], rest);
      RoundTripHead(values, dest, Encoded(values[1..]).value, rest);
    }
  }

  lemma RoundTripHead(values: seq<Value>, dest: seq<Value>, tail: seq<Byte>, rest: seq<Byte>)
    requires values != [] && Encodable(values[0]) && Ready(values, dest) && Encoded(values[1..]) == Ok(tail)
    requires Scanned(tail + rest, dest[1..]) == Outcome(Normals(values[1..]), Ok(rest))
    ensures Encoded(values).Ok? && Scanned(Encoded(values).value + rest, dest) == Outcome(Normals(values), Ok(rest))
  {
    var head := FieldRoundTrip(values[0], dest, tail + rest);
    EncodedHead(values, head, tail);
    Joined(values, head, tail, rest);
    assert Encoded(values).value + rest == head + (tail + rest);
  }

  lemma Joined(values: seq<Value>, head: seq<Byte>, tail: seq<Byte>, rest: seq<Byte>)
    requires values != []
    ensures (head + tail) + rest == head + (tail + rest)
    ensures Put(Normal(values[0]), Outcome(Normals(values[1..]), Ok(rest))) == Outcome(Normals(values), Ok(rest))
  {
    assert [Normal(values[0])] + Normals(values[1..]) == Normals(values);
  }

  lemma EncodedHead(values: seq<Value>, head: seq<Byte>, tail: seq<Byte>)
    requires values != [] && EncodeField(values[0]) == Ok(head) && Encoded(values[1..]) == Ok(tail)
    ensures Encoded(values) == Ok(head + tail) && [values[0]] + values[1..] == values
  {
  }

  /** Scanning into fresh zero destinations. */
  lemma RoundTripIntoZeros(values: seq<Value>, rest: seq<Byte>)
    requires forall v :: v in values ==> Encodable(v)
    ensures Encoded(values).Ok?
    ensures Scanned(Encoded(values).value + rest, Zeros(values)) == Outcome(Normals(values), Ok(rest))
  {
    ZerosAreReady(values);
    RoundTrip(values, Zeros(values), rest);
  }

  /** Why the destinations must be fresh: an empty field leaves its destination alone. */
  lemma EmptyFieldKeepsTheDestination(old': Value, rest: seq<Byte>)
    requires old'.Text?
    ensures Encoded([Text([])]) == Ok([0]) && Scanned([0] + rest, [old']) == Outcome([old'], Ok(rest))
  {
    var f := [Text([])];
    assert [0] + f[0].text == [0];
    assert f[1..] == [] && EncodeField(f[0]) == Ok([0]);
    assert Encoded(f) == Ok([0] + []);
    assert ([0] + rest)[1..] == rest;
    assert [old'][1..] == [];
  }

  // ---- Market requests -------------------------------------------------------------------------------------

  /** An asset id as text: parsed, it has 16 bytes; other spellings of the same id print as the
      canonical one. */
  datatype AssetId = Canonical(id: seq<Byte>) | Respelled(id: seq<Byte>) | Malformed

  datatype MarketReq = MarketReq(
    symbol: seq<Byte>,
    asset: AssetId,
    ctoken: AssetId,
    priceThreshold: int,
    price: Value,
    initExchange: Value,
    reserveFactor: Value,
    liquidationIncentive: Value,
    collateralFactor: Value,
    baseRate: Value,
    borrowCap: Value,
    closeFactor: Value,
    multiplier: Value,
    jumpMultiplier: Value,
    kink: Value,
    maxPledge: Value)

  /** The fields of the older form of a request. */
  function OldFields(w: MarketReq): seq<Value>
    requires !w.asset.Malformed? && !w.ctoken.Malformed?
  {
    [Text(w.symbol), Uuid(w.asset.id), Uuid(w.ctoken.id), w.initExchange, w.reserveFactor, w.liquidationIncentive,
     w.collateralFactor, w.baseRate, w.borrowCap, w.closeFactor, w.multiplier, w.jumpMultiplier, w.kink,
     Int(64, w.priceThreshold), w.price]
  }

  function MarshalBinary(w: MarketReq): Result<seq<Byte>>
  {
    if w.asset.Malformed? || w.ctoken.Malformed? then Err else Encoded(OldFields(w) + [w.maxPledge])
  }

  const ZERO_UUID := Uuid([0, 0, 0, 0, 0, 0, 0, 0, 0, 0, 0, 0, 0, 0, 0, 0])

  /** The zero destinations of the older form. */
  const BLANK: seq<Value> :=
    [Text([]), ZERO_UUID, ZERO_UUID, ZERO_DECIMAL, ZERO_DECIMAL, ZERO_DECIMAL, ZERO_DECIMAL, ZERO_DECIMAL,
     ZERO_DECIMAL, ZERO_DECIMAL, ZERO_DECIMAL, ZERO_DECIMAL, ZERO_DECIMAL, Int(64, 0), ZERO_DECIMAL]

  /** The trailing field is optional, and one that does not scan counts as missing. */
  function TrailingPledge(rest: seq<Byte>): Value
  {
    if rest == [] then ZERO_DECIMAL
    else
      var o := Scanned(rest, [ZERO_DECIMAL]);
      if o.rest.Ok? && |o.dest| == 1 then o.dest[0] else ZERO_DECIMAL
  }

  function FromFields(f: seq<Value>, maxPledge: Value): MarketReq
    requires |f| == 15 && f[0].Text? && f[1].Uuid? && f[2].Uuid? && f[13].Int?
  {
    MarketReq(f[0].text, Canonical(f[1].id), Canonical(f[2].id), f[13].i, f[14], f[3], f[4], f[5], f[6], f[7], f[8],
              f[9], f[10], f[11], f[12], maxPledge)
  }

  function Unmarshaled(data: seq<Byte>): Result<MarketReq>
  {
    var o := Scanned(data, BLANK);
    if o.rest.Err? then Err
    else
      TypesKept(data, BLANK);
      Ok(FromFields(o.dest, TrailingPledge(o.rest.value)))
  }

  lemma FieldKeepsType(body: seq<Byte>, dest: Value)
    ensures ReadField(body, dest).Good? ==> SameType(dest, ReadField(body, dest).value)
  {
  }

  predicate SameTypes(dest: seq<Value>, now: seq<Value>)
  {
    |now| == |dest| && forall k :: 0 <= k < |dest| ==> SameType(dest[k], now[k])
  }

  lemma PutKeepsTypes(dest: seq<Value>, v: Value, o: Outcome)
    requires dest != [] && SameType(dest[0], v) && SameTypes(dest[1..], o.dest)
    ensures SameTypes(dest, Put(v, o).dest)
  {
  }

  lemma SameTypesSelf(dest: seq<Value>)
    ensures SameTypes(dest, dest)
  {
  }

  /** Scanning never changes the type of a destination. */
  lemma {:induction false} TypesKept(body: seq<Byte>, dest: seq<Value>)
    ensures SameTypes(dest, Scanned(body, dest).dest)
    decreases |dest|
  {
    SameTypesSelf(dest);
    if dest != [] {
      var f := ReadField(body, dest[0]);
      FieldKeepsType(body, dest[0]);
      if f.Good? {
        TypesKept(f.rest, dest[1..]);
        PutKeepsTypes(dest, f.value, Scanned(f.rest, dest[1..]));
      }
    }
  }

  /** UnmarshalBinary: scan the older form, then the optional field, into zero destinations. */
  method UnmarshalBinary(data: seq<Byte>) returns (r: Result<MarketReq>)
    ensures r == Unmarshaled(data)
  {
    var fields := new Value[15](i requires 0 <= i < 15 => BLANK[i]);
    assert fields[..] == BLANK;
    var rest := Scan(data, fields);
    if rest.Err? { return Err; }
    TypesKept(data, BLANK);
    var req := FromFields(fields[..], ZERO_DECIMAL);
    if |rest.value| > 0 {
      var pledge := ScanPledge(rest.value);
      req := req.(maxPledge := pledge);
    }
    return Ok(req);
  }

  method ScanPledge(data: seq<Byte>) returns (pledge: Value)
    requires data != []
    ensures pledge == TrailingPledge(data)
  {
    var maxPledge := new Value[1](_ => ZERO_DECIMAL);
    assert maxPledge[..] == [ZERO_DECIMAL];
    var rest := Scan(data, maxPledge);
    assert |maxPledge[..]| == 1;
    if rest.Ok? { return maxPledge[0]; }
    return ZERO_DECIMAL;
  }

  predicate ReqOk(w: MarketReq)
  {
    && w.asset != Malformed && w.ctoken != Malformed && w.maxPledge.Dec? && Encodable(w.maxPledge)
    && (forall v :: v in OldFields(w) ==> Encodable(v))
    && (forall k :: 0 <= k < 15 ==> SameType(OldFields(w)[k], BLANK[k]))
  }

  function Respelt(a: AssetId): AssetId { if a.Malformed? then a else Canonical(a.id) }

  lemma BlankIsReady(w: MarketReq)
    requires ReqOk(w)
    ensures Ready(OldFields(w), BLANK)
  {
  }

  /** A request as it reads back: ids in canonical spelling, bare zeros explicit. */
  function ReadReq(w: MarketReq): MarketReq
  {
    MarketReq(w.symbol, Respelt(w.asset), Respelt(w.ctoken), w.priceThreshold, Normal(w.price), Normal(w.initExchange),
              Normal(w.reserveFactor), Normal(w.liquidationIncentive), Normal(w.collateralFactor), Normal(w.baseRate),
              Normal(w.borrowCap), Normal(w.closeFactor), Normal(w.multiplier), Normal(w.jumpMultiplier),
              Normal(w.kink),
              Normal(w.maxPledge))
  }

  lemma FieldsReadBack(w: MarketReq, pledge: Value)
    requires ReqOk(w)
    ensures FromFields(Normals(OldFields(w)), pledge) == ReadReq(w).(maxPledge := pledge)
  {
  }

  lemma {:induction false} EncodedAppend(f: seq<Value>, v: Value)
    requires Encoded(f).Ok? && EncodeField(v).Ok?
    ensures Encoded(f + [v]) == Ok(Encoded(f).value + EncodeField(v).value)
  {
    if f == [] {
      assert Encoded([v][1..]) == Ok([]) && f + [v] == [v];
      assert EncodeField(v).value + [] == EncodeField(v).value == [] + EncodeField(v).value;
    } else {
      assert (f + [v])[1..] == f[1..] + [v];
      EncodedAppend(f[1..], v);
      assert EncodeField(f[0]).value + (Encoded(f[1..]).value + EncodeField(v).value)
          == Encoded(f).value + EncodeField(v).value;
    }
  }

  lemma PledgeReadBack(v: Value)
    requires v.Dec? && Encodable(v)
    ensures EncodeField(v).Ok? && TrailingPledge(EncodeField(v).value) == Normal(v)
  {
    var head := FieldRoundTrip(v, [ZERO_DECIMAL], []);
    assert EncodeField(v).value + [] == EncodeField(v).value;
  }

  /** The wire form of a record: each field is its length in a byte and then its bytes, one after the
      other; integers are varints, signed ones with the sign in the lowest bit. */
  lemma RecordForm(values: seq<Value>, v: Value)
    requires Encoded(values).Ok? && Encodable(v)
    ensures var b := EncodeValue(v).value;
      && Encoded(values + [v]) == Ok(Encoded(values).value + ([|b|] + b))
      && (v.Int? ==> Groups(b) == if v.i >= 0 then 2 * v.i else -2 * v.i - 1)
      && (v.Uint? ==> Groups(b) == v.u) && (v.Text? ==> b == v.text)
      && (v.Uuid? ==> b == v.id) && (v.Dec? ==> b == v.dec)
  {
    EncodedAppend(values, v);
    if v.Int? { VarintForm(ZigZag(v.i)); }
    if v.Uint? { VarintForm(v.u); }
  }

  /** The fields of a request, in the order they are written. */
  lemma RequestForm(w: MarketReq)
    requires !w.asset.Malformed? && !w.ctoken.Malformed?
    ensures MarshalBinary(w)
         == Encoded([Text(w.symbol), Uuid(w.asset.id), Uuid(w.ctoken.id), w.initExchange, w.reserveFactor,
                     w.liquidationIncentive, w.collateralFactor, w.baseRate, w.borrowCap, w.closeFactor, w.multiplier,
                     w.jumpMultiplier, w.kink, Int(64, w.priceThreshold), w.price, w.maxPledge])
  {
    assert OldFields(w) + [w.maxPledge]
        == [Text(w.symbol), Uuid(w.asset.id), Uuid(w.ctoken.id), w.initExchange, w.reserveFactor,
            w.liquidationIncentive, w.collateralFactor, w.baseRate, w.borrowCap, w.closeFactor, w.multiplier,
            w.jumpMultiplier, w.kink, Int(64, w.priceThreshold), w.price, w.maxPledge];
  }

  /** The older form followed by anything: the rest decides the pledge limit alone. */
  lemma FieldsDecode(w: MarketReq, rest: seq<Byte>, pledge: Value)
    requires ReqOk(w) && TrailingPledge(rest) == pledge
    ensures Encoded(OldFields(w)).Ok?
    ensures Unmarshaled(Encoded(OldFields(w)).value + rest) == Ok(ReadReq(w).(maxPledge := pledge))
  {
    BlankIsReady(w);
    RoundTrip(OldFields(w), BLANK, rest);
    FieldsReadBack(w, pledge);
  }

  /** A market request decodes its own encoding, with the asset ids in canonical spelling and bare
      zero decimals as explicit zeros. */
  lemma MarketReqRoundTrip(w: MarketReq)
    requires ReqOk(w)
    ensures MarshalBinary(w).Ok?
    ensures Unmarshaled(MarshalBinary(w).value) == Ok(ReadReq(w))
  {
    PledgeReadBack(w.maxPledge);
    FieldsDecode(w, EncodeField(w.maxPledge).value, Normal(w.maxPledge));
    EncodedAppend(OldFields(w), w.maxPledge);
  }

  /** The older form, without the trailing field, decodes with a zero pledge limit. */
  lemma OldFormReadsAsZeroPledge(w: MarketReq)
    requires ReqOk(w)
    ensures Encoded(OldFields(w)).Ok?
    ensures Unmarshaled(Encoded(OldFields(w)).value) == Ok(ReadReq(w).(maxPledge := ZERO_DECIMAL))
  {
    FieldsDecode(w, [], ZERO_DECIMAL);
    assert Encoded(OldFields(w)).value + [] == Encoded(OldFields(w)).value;
  }
}
