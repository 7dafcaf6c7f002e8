/** `allocateBridgeSubnet` and its CIDR arithmetic: /24 networks handed out of a pool, compared as text. */
module Subnets {
  import opened Options
  import opened JsBits

  // ---- texts ------------------------------------------------------------------------------------

  predicate IsDigit(c: char)
  {
    '0' <= c <= '9'
  }

  predicate AllDigits(s: string)
  {
    forall i :: 0 <= i < |s| ==> IsDigit(s[i])
  }

  /** `Number` of a text of digits. */
  function Value(s: string): nat
    requires AllDigits(s)
  {
    if s == "" then 0 else Value(s[..|s| - 1]) * 10 + (s[|s| - 1] - '0') as nat
  }

  /** A number as JavaScript prints it. */
  function Decimal(n: nat): string
  {
    if n < 10 then ['0' + n as char] else Decimal(n / 10) + ['0' + (n % 10) as char]
  }

  /** The digits `s` begins with: what `\\d+` matches in front of a separator. */
  function Digits(s: string): (r: string)
    ensures AllDigits(r) && r <= s && (|r| == |s| || !IsDigit(s[|r|]))
  {
    if s == "" || !IsDigit(s[0]) then "" else [s[0]] + Digits(s[1..])
  }

  // ---- parseCidr --------------------------------------------------------------------------------

  datatype Cidr = Cidr(baseInt: nat, prefix: nat)

  /** One `(\\d+)` group and the separator after it ("" at the end of the text). */
  function Group(s: string, separator: string): Option<(nat, string)>
  {
    var digits := Digits(s);
    var rest := s[|digits|..];
    if digits == "" || !(separator <= rest) || (separator == "" && rest != "") then None
    else Some((Value(digits), rest[|separator|..]))
  }

  function Raw(a: nat, b: nat, c: nat, d: nat): nat
  {
    Ushr(Or(Or(Or(Shl(a, 24), Shl(b, 16)), Shl(c, 8)), d), 0)
  }

  function Mask(prefix: nat): nat
    requires prefix <= 32
  {
    if prefix == 0 then 0 else Ushr(Shl(Not(0), 32 - prefix), 0)
  }

  function FromNumbers(a: nat, b: nat, c: nat, d: nat, prefix: nat): Option<Cidr>
  {
    if a > 255 || b > 255 || c > 255 || d > 255 || prefix > 32 then None
    else Some(Cidr(Ushr(And(Raw(a, b, c, d), Mask(prefix)), 0), prefix))
  }

  /** None where the source throws. */
  function ParseCidr(cidr: string): Option<Cidr>
  {
    match Group(cidr, ".")
    case None => None
    case Some((a, rest)) =>
      match Group(rest, ".")
      case None => None
      case Some((b, rest)) =>
        match Group(rest, ".")
        case None => None
        case Some((c, rest)) =>
          match Group(rest, "/")
          case None => None
          case Some((d, rest)) =>
            match Group(rest, "")
            case None => None
            case Some((prefix, _)) => FromNumbers(a, b, c, d, prefix)
  }

  function IntToIp(n: int): string
  {
    Octet(And(Ushr(n, 24), 0xff)) + "." + Octet(And(Ushr(n, 16), 0xff)) + "." + Octet(And(Ushr(n, 8), 0xff)) + "."
    + Octet(And(n, 0xff))
  }

  function Octet(n: int): string
  {
    if n < 0 then "-" + Decimal(-n) else Decimal(n)
  }

  // ---- the arithmetic ---------------------------------------------------------------------------

  /** The four octets give the address they spell. */
  lemma RawIsAddress(a: nat, b: nat, c: nat, d: nat)
    requires a < 256 && b < 256 && c < 256 && d < 256
    ensures Raw(a, b, c, d) == a * 0x100_0000 + b * 0x1_0000 + c * 0x100 + d < Word
  {
    hide Pow2, ToUint32, Or, Shl;
    PowValues();
    var w, x, y := Shl(a, 24), Shl(b, 16), Shl(c, 8);
    ShlIsTimes(a, 24);
    ShlIsTimes(b, 16);
    ShlIsTimes(c, 8);
    SmallIsItself(d);
    Octets(a, b, c, d, w, x, y);
    UshrZero(Or(Or(Or(w, x), y), d));
  }

  lemma Octets(a: nat, b: nat, c: nat, d: nat, w: int, x: int, y: int)
    requires a < 256 && b < 256 && c < 256 && d < 256
    requires ToUint32(w) == a * 0x100_0000 && ToUint32(x) == b * 0x1_0000 && ToUint32(y) == c * 0x100
    requires ToUint32(d) == d
    ensures ToUint32(Or(Or(Or(w, x), y), d)) == a * 0x100_0000 + b * 0x1_0000 + c * 0x100 + d < Word
  {
    hide Pow2, ToUint32, Or;
    PowValues();
    OrAdds(w, x, 24, 0x100_0000);
    OrAdds(Or(w, x), y, 16, 0x1_0000);
    OrAdds(Or(Or(w, x), y), d, 8, 0x100);
  }

  lemma UshrZero(x: int)
    ensures Ushr(x, 0) == ToUint32(x)
  {
  }

  lemma MaskIsHighBits(prefix: nat)
    requires prefix <= 32
    ensures Pow2(32 - prefix) <= Word && Mask(prefix) == Word - Pow2(32 - prefix)
  {
    PowValues();
    PowMonotone(32 - prefix, 32);
    if prefix > 0 {
      PowMonotone(32 - prefix, 31);
      assert 2 * Pow2(31) == Pow2(32);
      AllOnesShifted(32 - prefix);
      hide Pow2, Shl, ToUint32, Ushr;
      UshrZero(Shl(Not(0), 32 - prefix));
    }
  }

  /** Masking rounds down to a multiple of the size of the network. */
  lemma MaskedIsRounded(raw: nat, prefix: nat)
    requires raw < Word && prefix <= 32
    ensures Ushr(And(raw, Mask(prefix)), 0) == Rounded(raw, prefix)
  {
    PowValues();
    hide Pow2, Mask, ToUint32, ToInt32, BitAnd, And, Ushr;
    MaskIsHighBits(prefix);
    AndClears(raw, 32, 32 - prefix);
    AndBelow(raw, Mask(prefix));
    SmallIsItself(raw);
    SmallIsItself(Mask(prefix));
    AndOfBits(raw, Mask(prefix));
    SignedAndBack(BitAnd(raw, Mask(prefix)));
    SmallIsItself(BitAnd(raw, Mask(prefix)));
    UshrZero(And(raw, Mask(prefix)));
  }

  lemma AndOfBits(x: int, y: int)
    ensures And(x, y) == ToInt32(BitAnd(ToUint32(x), ToUint32(y)))
  {
  }

  lemma OctetOf(n: int, k: nat)
    requires 0 <= n < Word && k < 32
    ensures And(Ushr(n, k), 0xff) == Quotient(n, Pow2(k)) % 256
  {
    PowValues();
    UshrIs(n, k);
    var q := Quotient(n, Pow2(k));
    AndLow(q, 8);
    hide Pow2, ToUint32, ToInt32, BitAnd, And, Ushr, Quotient;
    SmallIsItself(q);
    SmallIsItself(0xff);
    AndOfBits(q, 0xff);
    SignedSmall(BitAnd(q, 0xff));
  }

  lemma SignedSmall(x: int)
    requires 0 <= x < 256
    ensures ToInt32(x) == x
  {
  }

  /** Printing takes an address apart again. */
  lemma IntToIpPrints(n: nat)
    requires n < Word
    ensures IntToIp(n) == Decimal(n / 0x100_0000) + "." + Decimal(n / 0x1_0000 % 256) + "." + Decimal(n / 0x100 % 256)
                          + "." + Decimal(n % 256)
  {
    hide Pow2, ToUint32, And, Ushr, Quotient, Decimal;
    PowValues();
    OctetOf(n, 24);
    OctetOf(n, 16);
    OctetOf(n, 8);
    OctetOf(n, 0);
    UshrZero(n);
    SmallIsItself(n);
    QuotientIs(n, 0x100_0000);
    QuotientIs(n, 0x1_0000);
    QuotientIs(n, 0x100);
    QuotientIs(n, 1);
    assert n / 0x100_0000 % 256 == n / 0x100_0000;
  }

  lemma QuotientIs(a: nat, b: nat)
    requires b > 0
    ensures Quotient(a, b) == a / b
  {
  }

  // ---- printing and parsing undo each other -----------------------------------------------------

  lemma {:induction false} DecimalIsRead(n: nat)
    ensures Decimal(n) != "" && AllDigits(Decimal(n)) && Value(Decimal(n)) == n
  {
    if n < 10 {
      assert Value([('0' + n as char)][..0]) == 0;
    } else {
      DecimalIsRead(n / 10);
      assert Decimal(n)[..|Decimal(n)| - 1] == Decimal(n / 10);
    }
  }

  /** ... and it is the shortest such text: no zero in front. */
  lemma {:induction false} DecimalIsShortest(n: nat)
    ensures Decimal(n) != "" && (n > 0 ==> Decimal(n)[0] != '0') && (n == 0 ==> Decimal(n) == "0")
  {
    if n >= 10 {
      DecimalIsShortest(n / 10);
    }
  }

  lemma {:induction false} DigitsEnd(digits: string, rest: string)
    requires AllDigits(digits) && (rest == "" || !IsDigit(rest[0]))
    ensures Digits(digits + rest) == digits
  {
    if digits != "" {
      DigitsEnd(digits[1..], rest);
      assert (digits + rest)[1..] == digits[1..] + rest;
    } else {
      assert digits + rest == rest;
    }
  }

  lemma GroupIsRead(digits: string, separator: string, rest: string)
    requires digits != "" && AllDigits(digits)
    requires separator == "." || separator == "/" || (separator == "" && rest == "")
    ensures Group(digits + separator + rest, separator) == Some((Value(digits), rest))
  {
    assert digits + separator + rest == digits + (separator + rest);
    DigitsEnd(digits, separator + rest);
  }

  /** The text is five runs of digits with three dots and a slash. */
  predicate Spells(cidr: string, a: string, b: string, c: string, d: string, p: string)
  {
    && cidr == a + "." + (b + "." + (c + "." + (d + "/" + p)))
    && a != "" && b != "" && c != "" && d != "" && p != ""
    && AllDigits(a) && AllDigits(b) && AllDigits(c) && AllDigits(d) && AllDigits(p)
  }

  lemma SpelledIsRead(cidr: string, a: string, b: string, c: string, d: string, p: string)
    requires Spells(cidr, a, b, c, d, p)
    ensures ParseCidr(cidr) == FromNumbers(Value(a), Value(b), Value(c), Value(d), Value(p))
  {
    hide Group, FromNumbers, Value;
    GroupIsRead(a, ".", b + "." + (c + "." + (d + "/" + p)));
    GroupIsRead(b, ".", c + "." + (d + "/" + p));
    GroupIsRead(c, ".", d + "/" + p);
    GroupIsRead(d, "/", p);
    GroupIsRead(p, "", "");
    assert p + "" + "" == p;
  }

  lemma GroupSplits(s: string, separator: string)
    requires Group(s, separator).Some?
    ensures
      var digits, rest := Digits(s), Group(s, separator).value.1;
      && digits != "" && AllDigits(digits) && s == digits + separator + rest
      && Group(s, separator).value.0 == Value(digits)
      && (separator == "" ==> rest == "")
  {
    var digits := Digits(s);
    assert s == digits + s[|digits|..];
  }

  lemma ReadIsSpelled(cidr: string)
    requires ParseCidr(cidr).Some?
    ensures exists a, b, c, d, p :: Spells(cidr, a, b, c, d, p)
  {
    hide Group, FromNumbers, Digits, Value;
    GroupSplits(cidr, ".");
    var rest1 := Group(cidr, ".").value.1;
    GroupSplits(rest1, ".");
    var rest2 := Group(rest1, ".").value.1;
    GroupSplits(rest2, ".");
    var rest3 := Group(rest2, ".").value.1;
    GroupSplits(rest3, "/");
    var rest4 := Group(rest3, "/").value.1;
    GroupSplits(rest4, "");
    assert rest4 == Digits(rest4);
    assert Spells(cidr, Digits(cidr), Digits(rest1), Digits(rest2), Digits(rest3), Digits(rest4));
  }

  function Address(a: nat, b: nat, c: nat, d: nat): nat
  {
    a * 0x100_0000 + b * 0x1_0000 + c * 0x100 + d
  }

  /** `address` rounded down to a multiple of 2^(32 - prefix). */
  function Rounded(address: nat, prefix: nat): nat
    requires prefix <= 32
  {
    RoundDown(address, Pow2(32 - prefix))
  }

  function RoundDown(x: nat, m: nat): nat
    requires m > 0
  {
    ModAtMost(x, m);
    x - x % m
  }

  lemma ModAtMost(x: nat, m: nat)
    requires m > 0
    ensures x % m <= x
  {
    if x < m {
      ModUnique(x, m, 0, x);
    }
  }

  lemma NumbersAreRounded(a: nat, b: nat, c: nat, d: nat, prefix: nat)
    ensures FromNumbers(a, b, c, d, prefix) ==
            if a < 256 && b < 256 && c < 256 && d < 256 && prefix <= 32
            then Some(Cidr(Rounded(Address(a, b, c, d), prefix), prefix)) else None
  {
    hide Raw, Mask, Pow2, Ushr, And;
    if a < 256 && b < 256 && c < 256 && d < 256 && prefix <= 32 {
      RawIsAddress(a, b, c, d);
      MaskedIsRounded(Raw(a, b, c, d), prefix);
    }
  }

  /** `a`.`b`.`c`.`d`/`p` within their limits, and the network they denote. */
  predicate Denotes(cidr: string, a: string, b: string, c: string, d: string, p: string, network: Cidr)
  {
    && AllDigits(a) && AllDigits(b) && AllDigits(c) && AllDigits(d) && AllDigits(p) && Spells(cidr, a, b, c, d, p)
    && Value(a) < 256 && Value(b) < 256 && Value(c) < 256 && Value(d) < 256 && Value(p) <= 32
    && network == Cidr(Rounded(Address(Value(a), Value(b), Value(c), Value(d)), Value(p)), Value(p))
  }

  /** What `parseCidr` accepts, and what it makes of it: exactly the texts that spell four numbers up to 255
      and a prefix up to 32, and the address rounded down to its network. */
  lemma ParseCidrMeans(cidr: string, network: Cidr)
    ensures ParseCidr(cidr) == Some(network) <==>
            exists a, b, c, d, p :: Denotes(cidr, a, b, c, d, p, network)
  {
    hide ParseCidr, FromNumbers, Value, Rounded, Address, Spells;
    if ParseCidr(cidr) == Some(network) {
      ReadIsSpelled(cidr);
      var a, b, c, d, p :| Spells(cidr, a, b, c, d, p);
      SpelledIsRead(cidr, a, b, c, d, p);
      SpellsDigits(cidr, a, b, c, d, p);
      NumbersAreRounded(Value(a), Value(b), Value(c), Value(d), Value(p));
      assert Denotes(cidr, a, b, c, d, p, network);
    }
    forall a, b, c, d, p | Spells(cidr, a, b, c, d, p)
      ensures AllDigits(a) && AllDigits(b) && AllDigits(c) && AllDigits(d) && AllDigits(p)
      ensures ParseCidr(cidr) == FromNumbers(Value(a), Value(b), Value(c), Value(d), Value(p))
    {
      SpellsDigits(cidr, a, b, c, d, p);
      SpelledIsRead(cidr, a, b, c, d, p);
    }
    forall a: nat, b: nat, c: nat, d: nat, p: nat
      ensures FromNumbers(a, b, c, d, p) ==
              if a < 256 && b < 256 && c < 256 && d < 256 && p <= 32
              then Some(Cidr(Rounded(Address(a, b, c, d), p), p)) else None
    {
      NumbersAreRounded(a, b, c, d, p);
    }
  }

  lemma SpellsDigits(cidr: string, a: string, b: string, c: string, d: string, p: string)
    requires Spells(cidr, a, b, c, d, p)
    ensures AllDigits(a) && AllDigits(b) && AllDigits(c) && AllDigits(d) && AllDigits(p)
  {
  }

  /** Parsing a printed address gives it back, rounded down to its network: unchanged under /32, and under
      /24 for every multiple of 256. */
  lemma PrintedIsParsed(n: nat, prefix: nat)
    requires n < Word && prefix <= 32
    ensures ParseCidr(IntToIp(n) + "/" + Decimal(prefix)) == Some(Cidr(Rounded(n, prefix), prefix))
    ensures Rounded(n, 32) == n && (n % 256 == 0 ==> Rounded(n, 24) == n)
  {
    hide Pow2, Decimal, Value, IntToIp, ParseCidr, AllDigits, FromNumbers, Rounded, Address;
    IntToIpPrints(n);
    var a, b, c, d := n / 0x100_0000, n / 0x1_0000 % 256, n / 0x100 % 256, n % 256;
    OctetsOf(n);
    DecimalIsRead(a);
    DecimalIsRead(b);
    DecimalIsRead(c);
    DecimalIsRead(d);
    DecimalIsRead(prefix);
    var text := IntToIp(n) + "/" + Decimal(prefix);
    JoinRight(Decimal(a), Decimal(b), Decimal(c), Decimal(d), Decimal(prefix));
    SpelledIsRead(text, Decimal(a), Decimal(b), Decimal(c), Decimal(d), Decimal(prefix));
    NumbersAreRounded(a, b, c, d, prefix);
    RoundedStays(n);
  }

  lemma RoundedStays(n: nat)
    ensures Rounded(n, 32) == n && (n % 256 == 0 ==> Rounded(n, 24) == n)
  {
    PowValues();
    hide Pow2;
  }

  lemma OctetsOf(n: nat)
    requires n < Word
    ensures Address(n / 0x100_0000, n / 0x1_0000 % 256, n / 0x100 % 256, n % 256) == n && n / 0x100_0000 < 256
  {
    var q0, q1, q2 := n / 256, n / 256 / 256, n / 256 / 256 / 256;
    ModUnique(n, 0x1_0000, q1, q0 % 256 * 256 + n % 256);
    ModUnique(n, 0x100_0000, q2, q1 % 256 * 0x1_0000 + q0 % 256 * 256 + n % 256);
  }

  lemma JoinRight(a: string, b: string, c: string, d: string, p: string)
    ensures a + "." + b + "." + c + "." + d + "/" + p == a + "." + (b + "." + (c + "." + (d + "/" + p)))
  {
  }

  /** Different addresses print differently, so comparing texts compares addresses. */
  lemma PrintingIsInjective(n: nat, m: nat)
    requires n < Word && m < Word
    ensures IntToIp(n) == IntToIp(m) ==> n == m
  {
    hide IntToIp, ParseCidr, Rounded;
    PrintedIsParsed(n, 32);
    PrintedIsParsed(m, 32);
  }

  // ---- allocation -------------------------------------------------------------------------------

  datatype Outcome = Allocated(cidr: string) | InvalidPool | PoolTooSmall | Exhausted

  function Slot(base: nat, i: nat): string
  {
    IntToIp(base + i * 256) + "/24"
  }

  /** The first slot from `i` on that is not in use. */
  function FirstFree(base: nat, i: nat, slots: nat, used: set<string>): (r: Option<nat>)
    requires i <= slots
    ensures r.Some? ==> i <= r.value < slots && Slot(base, r.value) !in used
    ensures forall j :: i <= j < (if r.Some? then r.value else slots) ==> Slot(base, j) in used
    decreases slots - i
  {
    if i == slots then None
    else if Slot(base, i) !in used then Some(i)
    else FirstFree(base, i + 1, slots, used)
  }

  function Allocate(pool: string, used: set<string>): Outcome
  {
    match ParseCidr(pool)
    case None => InvalidPool
    case Some(Cidr(base, prefix)) =>
      if prefix > 24 then PoolTooSmall
      else
        match FirstFree(base, 0, Pow2(24 - prefix), used)
        case None => Exhausted
        case Some(k) => Allocated(Slot(base, k))
  }

  method AllocateBridgeSubnet(pool: string, used: set<string>) returns (r: Outcome)
    ensures r == Allocate(pool, used)
  {
    hide ParseCidr, IntToIp, Pow2, Shl;
    var parsed := ParseCidr(pool);
    if parsed.None? {
      return InvalidPool;
    }
    var base, prefix := parsed.value.baseInt, parsed.value.prefix;
    if prefix > 24 {
      return PoolTooSmall;
    }
    var slotCount := Shl(1, 24 - prefix);
    SlotCount(prefix);
    var i := 0;
    while i < slotCount
      invariant 0 <= i <= slotCount == Pow2(24 - prefix)
      invariant FirstFree(base, 0, Pow2(24 - prefix), used) == FirstFree(base, i, Pow2(24 - prefix), used)
    {
      var cidr := IntToIp(base + i * 256) + "/24";
      if cidr !in used {
        return Allocated(cidr);
      }
      i := i + 1;
    }
    return Exhausted;
  }

  lemma SlotCount(prefix: nat)
    requires prefix <= 24
    ensures Shl(1, 24 - prefix) == Pow2(24 - prefix) <= 0x100_0000
  {
    PowValues();
    PowMonotone(24 - prefix, 24);
    hide Pow2, Shl, ToInt32;
    One();
    ShlIs(1, 24 - prefix);
    SmallIsSigned(Pow2(24 - prefix));
  }

  lemma One()
    ensures ToInt32(1) == 1
  {
  }

  lemma SmallIsSigned(x: int)
    requires 0 <= x < 0x8000_0000
    ensures ToInt32(x) == x
  {
  }

  /** The address belongs to the network the text denotes. */
  predicate Contains(cidr: string, address: nat)
  {
    ParseCidr(cidr).Some? && Valid(ParseCidr(cidr).value) &&
    Rounded(address, ParseCidr(cidr).value.prefix) == ParseCidr(cidr).value.baseInt
  }

  predicate Valid(network: Cidr)
  {
    network.prefix <= 32
  }

  lemma ParsedIsNetwork(cidr: string)
    requires ParseCidr(cidr).Some?
    ensures
      var network := ParseCidr(cidr).value;
      network.prefix <= 32 && network.baseInt < Word && network.baseInt % Pow2(32 - network.prefix) == 0
  {
    hide ParseCidr, Value, Spells, Rounded, Address;
    var network := ParseCidr(cidr).value;
    ParseCidrMeans(cidr, network);
    var a, b, c, d, p :| Denotes(cidr, a, b, c, d, p, network);
    AddressIsSmall(Value(a), Value(b), Value(c), Value(d));
    RoundedIsMultiple(Address(Value(a), Value(b), Value(c), Value(d)), Value(p));
  }

  lemma AddressIsSmall(a: nat, b: nat, c: nat, d: nat)
    requires a < 256 && b < 256 && c < 256 && d < 256
    ensures Address(a, b, c, d) < Word
  {
  }

  lemma RoundedIsMultiple(address: nat, prefix: nat)
    requires prefix <= 32
    ensures Rounded(address, prefix) % Pow2(32 - prefix) == 0 && Rounded(address, prefix) <= address
  {
    hide Pow2;
    var m := Pow2(32 - prefix);
    assert address == m * (address / m) + address % m;
    ModOfProduct(m, address / m);
  }

  /** The slots of a pool: aligned, within 32 bits, inside the pool. */
  lemma SlotIsInPool(base: nat, prefix: nat, k: nat)
    requires prefix <= 24 && base < Word && base % Pow2(32 - prefix) == 0 && k < Pow2(24 - prefix)
    ensures base + k * 256 + 256 <= Word && (base + k * 256) % 256 == 0 && Rounded(base + k * 256, prefix) == base
  {
    hide Pow2, RoundDown;
    PowValues();
    PowAdd(24 - prefix, 8);
    PowAdd(prefix, 32 - prefix);
    SlotOfMultiple(base, Pow2(32 - prefix), Pow2(prefix), k, Pow2(24 - prefix));
  }

  lemma SlotOfMultiple(base: nat, p: nat, m: nat, k: nat, n: nat)
    requires p == n * 256 > 0 && m * p == Word && base < Word && base % p == 0 && k < n
    ensures base + k * 256 + 256 <= Word && (base + k * 256) % 256 == 0 && RoundDown(base + k * 256, p) == base
  {
    var q := base / p;
    assert base == p * q;
    if q >= m {
      MulLe(p, m, q);
    }
    MulLe(p, q + 1, m);
    assert p * (q + 1) == base + p;
    ModUnique(base + k * 256, p, q, k * 256);
    RoundsTo(base + k * 256, p, base);
    TimesOf256(n, q, k);
  }

  lemma TimesOf256(n: nat, q: nat, k: nat)
    ensures (n * 256 * q + k * 256) % 256 == 0
  {
    assert n * 256 * q == 256 * (n * q);
    ModUnique(256 * (n * q) + k * 256, 256, n * q + k, 0);
  }

  lemma RoundsTo(x: nat, p: nat, base: nat)
    requires p > 0 && x % p == x - base && base <= x
    ensures RoundDown(x, p) == base
  {
  }

  /** `cidr` is the text of a /24: an aligned address printed with its prefix. */
  ghost predicate IsSlotText(cidr: string, n: nat)
  {
    n + 256 <= Word && n % 256 == 0 && cidr == IntToIp(n) + "/24"
  }

  /** `parseCidr` accepts the pool, as the network `base`/`prefix`. */
  predicate IsPool(pool: string, base: nat, prefix: nat)
  {
    ParseCidr(pool) == Some(Cidr(base, prefix)) && prefix <= 24
  }

  /** A pool of prefix length p has exactly 2^(24-p) slots: an allocation gives the lowest one not in use, an
      aligned /24 inside the pool and inside 32 bits, and fails exactly when all of them are taken. */
  lemma AllocationMeans(pool: string, base: nat, prefix: nat, used: set<string>)
    ensures IsPool(pool, base, prefix) ==>
              (Allocate(pool, used) == Exhausted <==> forall j: nat :: j < Pow2(24 - prefix) ==> Slot(base, j) in used)
    ensures IsPool(pool, base, prefix) && Allocate(pool, used) != Exhausted ==>
              exists k: nat ::
                && k < Pow2(24 - prefix) && Allocate(pool, used) == Allocated(Slot(base, k))
                && Slot(base, k) !in used && (forall j: nat :: j < k ==> Slot(base, j) in used)
                && IsSlotText(Slot(base, k), base + k * 256) && Rounded(base + k * 256, prefix) == base
  {
    hide ParseCidr, IntToIp, Pow2, Rounded;
    if IsPool(pool, base, prefix) {
      var r := FirstFree(base, 0, Pow2(24 - prefix), used);
      if r.Some? {
        ParsedIsNetwork(pool);
        SlotIsInPool(base, prefix, r.value);
        SlotIsText(base, r.value);
      }
    }
  }

  lemma SlotIsText(base: nat, k: nat)
    ensures Slot(base, k) == IntToIp(base + k * 256) + "/24"
  {
  }

  // ---- runs -------------------------------------------------------------------------------------

  /** A transaction that creates an org with a subnet of its own (its advisory lock makes it one step, and
      `pool` may differ from one to the next), or one that gives an org's subnet up. */
  datatype Step = CreateOrg(org: string, pool: string) | DropSubnet(org: string)

  function Next(rows: map<string, string>, step: Step): map<string, string>
  {
    match step
    case CreateOrg(org, pool) =>
      var r := Allocate(pool, rows.Values);
      if org !in rows && r.Allocated? then rows[org := r.cidr] else rows
    case DropSubnet(org) => rows - {org}
  }

  function Run(rows: map<string, string>, steps: seq<Step>): map<string, string>
    decreases |steps|
  {
    if steps == [] then rows else Next(Run(rows, steps[..|steps| - 1]), steps[|steps| - 1])
  }

  /** What the table's constraints ask of it: /24 networks only, none twice. */
  ghost predicate RowsOk(rows: map<string, string>)
  {
    && (forall org :: org in rows ==> exists n: nat :: IsSlotText(rows[org], n))
    && (forall org, org' :: org in rows && org' in rows && org != org' ==> rows[org] != rows[org'])
  }

  lemma NextKeepsRows(rows: map<string, string>, step: Step)
    requires RowsOk(rows)
    ensures RowsOk(Next(rows, step))
  {
    match step
    case CreateOrg(org, pool) =>
      var r := Allocate(pool, rows.Values);
      if org !in rows && r.Allocated? {
        AllocatedIsFreshSlot(pool, rows.Values);
        hide Allocate;
        NewRowKeepsRows(rows, org, r.cidr);
      }
    case DropSubnet(org) => hide IsSlotText;
  }

  lemma NewRowKeepsRows(rows: map<string, string>, org: string, cidr: string)
    requires RowsOk(rows) && org !in rows && cidr !in rows.Values && exists n: nat :: IsSlotText(cidr, n)
    ensures RowsOk(rows[org := cidr])
  {
    hide IsSlotText;
    assert forall other :: other in rows ==> rows[other] in rows.Values;
  }

  lemma AllocatedIsFreshSlot(pool: string, used: set<string>)
    requires Allocate(pool, used).Allocated?
    ensures Allocate(pool, used).cidr !in used && exists n: nat :: IsSlotText(Allocate(pool, used).cidr, n)
  {
    hide ParseCidr, Slot, Pow2, IsSlotText, Rounded;
    var network := ParseCidr(pool).value;
    assert IsPool(pool, network.baseInt, network.prefix);
    AllocationMeans(pool, network.baseInt, network.prefix, used);
  }

  lemma {:induction false} RunKeepsRows(rows: map<string, string>, steps: seq<Step>)
    requires RowsOk(rows)
    ensures RowsOk(Run(rows, steps))
    decreases |steps|
  {
    if steps != [] {
      RunKeepsRows(rows, steps[..|steps| - 1]);
      hide RowsOk, Next;
      NextKeepsRows(Run(rows, steps[..|steps| - 1]), steps[|steps| - 1]);
    }
  }

  /** After any run of allocations, from whatever pools, and releases: no address belongs to the subnets of
      two orgs, although only texts are compared. */
  lemma SubnetsStayDisjoint(rows: map<string, string>, steps: seq<Step>, org: string, org': string, address: nat)
    requires RowsOk(rows) && address < Word
    requires org in Run(rows, steps) && org' in Run(rows, steps) && org != org'
    ensures !(Contains(Run(rows, steps)[org], address) && Contains(Run(rows, steps)[org'], address))
  {
    RunKeepsRows(rows, steps);
    var end := Run(rows, steps);
    hide Run, IsSlotText, Contains;
    var n: nat :| IsSlotText(end[org], n);
    var m: nat :| IsSlotText(end[org'], m);
    SlotContains(end[org], n, address);
    SlotContains(end[org'], m, address);
    SameSlot(end[org], n, end[org'], m);
  }

  lemma SameSlot(cidr: string, n: nat, cidr': string, m: nat)
    requires IsSlotText(cidr, n) && IsSlotText(cidr', m)
    ensures n == m ==> cidr == cidr'
  {
  }

  lemma SlotContains(cidr: string, n: nat, address: nat)
    requires IsSlotText(cidr, n)
    ensures Contains(cidr, address) <==> RoundDown(address, 256) == n
  {
    hide ParseCidr, IntToIp, Decimal, Rounded, Pow2, RoundDown;
    PrintedIsParsed(n, 24);
    TwentyFour();
    assert IntToIp(n) + "/" + Decimal(24) == IntToIp(n) + ("/" + Decimal(24));
    RoundedBy24(address);
  }

  lemma TwentyFour()
    ensures "/" + Decimal(24) == "/24"
  {
    assert Decimal(2) == "2" && Decimal(24) == Decimal(2) + "4";
  }

  lemma RoundedBy24(address: nat)
    ensures Rounded(address, 24) == RoundDown(address, 256)
  {
    PowValues();
    hide Pow2, RoundDown;
  }
}
