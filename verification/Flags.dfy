/** The two parsers of `--soft-mib`, `--hard-mib` and `--nice`: the careful one of the starter code
    and the `atoi` one of the engine.  `args` is argv from the first optional argument on. */
module Flags {
  import opened CTypes

  const SOFT: string := "--soft-mib"
  const HARD: string := "--hard-mib"
  const NICE: string := "--nice"

  datatype Option<+T> = None | Some(value: T)

  // ---------------------------------------------------------------------------------------
  // strtoul, strtol and atoi, base 10

  predicate IsDigit(c: char) {
    48 <= c as int <= 57
  }

  predicate IsSpace(c: char) {
    c == ' ' || 9 <= c as int <= 13
  }

  function SkipSpace(s: string): string {
    if s != "" && IsSpace(s[0]) then SkipSpace(s[1..]) else s
  }

  /** Number of leading digits. */
  function DigitRun(s: string): (n: nat)
    ensures n <= |s| && forall i :: 0 <= i < n ==> IsDigit(s[i])
    ensures n < |s| ==> !IsDigit(s[n])
  {
    if s != "" && IsDigit(s[0]) then 1 + DigitRun(s[1..]) else 0
  }

  function Decimal(digits: string): nat
    requires forall i :: 0 <= i < |digits| ==> IsDigit(digits[i])
  {
    if digits == "" then 0
    else
      var last := digits[|digits| - 1];
      assert IsDigit(last);
      10 * Decimal(digits[..|digits| - 1]) + (last as int - 48)
  }

  /** `found`: there was a digit; `whole`: nothing follows the digits. */
  datatype Scanned = Scanned(found: bool, negative: bool, magnitude: nat, whole: bool)

  function Scan(s: string): Scanned {
    var t := SkipSpace(s);
    var signed := t != "" && (t[0] == '-' || t[0] == '+');
    var u := if signed then t[1..] else t;
    var n := DigitRun(u);
    Scanned(n > 0, signed && t[0] == '-', Decimal(u[..n]), n == |u|)
  }

  /** `strtoul`: a minus sign negates modulo 2^64; None is ERANGE. */
  function ToUlong(n: Scanned): Option<nat> {
    if n.magnitude > ULONG_MAX then None
    else if n.negative && n.magnitude > 0 then Some(ULONG_MAX + 1 - n.magnitude)
    else Some(n.magnitude)
  }

  function Signed(n: Scanned): int {
    if n.negative then 0 - n.magnitude else n.magnitude
  }

  /** `strtol`; None is ERANGE. */
  function ToLong(n: Scanned): Option<int> {
    if -LONG_MAX - 1 <= Signed(n) <= LONG_MAX then Some(Signed(n)) else None
  }

  /** `atoi` is `(int)strtol(...)`, which clamps and then keeps the low 32 bits. */
  function Atoi(s: string): int {
    var n := Signed(Scan(s));
    var clamped := if n > LONG_MAX then LONG_MAX else if n < -LONG_MAX - 1 then -LONG_MAX - 1 else n;
    var low := clamped % 0x1_0000_0000;
    if low > INT_MAX then low - 0x1_0000_0000 else low
  }

  // ---------------------------------------------------------------------------------------
  // The starter-code parser

  /** `parse_mib_flag`, with the product as the machine computes it. */
  function ParseMib(s: string): Option<nat> {
    var n := Scan(s);
    if ToUlong(n).None? || !n.found || !n.whole then None
    else if ToUlong(n).value > ULONG_MAX / MIB then None
    else Some(ToUlong(n).value * MIB % (ULONG_MAX + 1))
  }

  function ParseNice(s: string): Option<int> {
    var n := Scan(s);
    if ToLong(n).None? || !n.found || !n.whole || ToLong(n).value < -20 || ToLong(n).value > 19 then None
    else ToLong(n)
  }

  datatype Limits = Limits(soft: nat, hard: nat, nice: int)

  /** One flag and its value; limits in bytes. */
  function StarterFlag(flag: string, v: string, req: Limits): Option<Limits> {
    if flag == SOFT then (if ParseMib(v).Some? then Some(req.(soft := ParseMib(v).value)) else None)
    else if flag == HARD then (if ParseMib(v).Some? then Some(req.(hard := ParseMib(v).value)) else None)
    else if flag == NICE then (if ParseNice(v).Some? then Some(req.(nice := ParseNice(v).value)) else None)
    else None
  }

  function StarterLoop(args: seq<string>, i: nat, req: Limits): Option<Limits>
    decreases |args| - i
  {
    if i >= |args| then Some(req)
    else if i + 1 >= |args| then None
    else if StarterFlag(args[i], args[i + 1], req).None? then None
    else StarterLoop(args, i + 2, StarterFlag(args[i], args[i + 1], req).value)
  }

  function Starter(args: seq<string>, req: Limits): Option<Limits> {
    var r := StarterLoop(args, 0, req);
    if r.Some? && r.value.soft > r.value.hard then None else r
  }

  /** `parse_optional_flags` of the starter code. */
  method ParseStarter(args: seq<string>, defaults: Limits) returns (r: Option<Limits>)
    ensures r == Starter(args, defaults)
  {
    var i, req := 0, defaults;
    while i < |args|
      invariant StarterLoop(args, 0, defaults) == StarterLoop(args, i, req)
      decreases |args| - i
    {
      if i + 1 >= |args| {
        return None;
      }
      if args[i] == SOFT {
        var bytes := ParseMib(args[i + 1]);
        if bytes.None? {
          return None;
        }
        req := req.(soft := bytes.value);
      } else if args[i] == HARD {
        var bytes := ParseMib(args[i + 1]);
        if bytes.None? {
          return None;
        }
        req := req.(hard := bytes.value);
      } else if args[i] == NICE {
        var n := ParseNice(args[i + 1]);
        if n.None? {
          return None;
        }
        req := req.(nice := n.value);
      } else {
        return None;
      }
      i := i + 2;
    }
    if req.soft > req.hard {
      return None;
    }
    return Some(req);
  }

  // ---------------------------------------------------------------------------------------
  // The engine's parser

  datatype EngineLimits = EngineLimits(softMib: int, hardMib: int, nice: int)

  function EngineFlag(flag: string, v: string, req: EngineLimits): Option<EngineLimits> {
    if flag == SOFT then Some(req.(softMib := Atoi(v)))
    else if flag == HARD then Some(req.(hardMib := Atoi(v)))
    else if flag == NICE then Some(req.(nice := Atoi(v)))
    else None
  }

  function Engine(args: seq<string>, i: nat, req: EngineLimits): Option<EngineLimits>
    decreases |args| - i
  {
    if i >= |args| then Some(req)
    else if i + 1 >= |args| then None
    else if EngineFlag(args[i], args[i + 1], req).None? then None
    else Engine(args, i + 2, EngineFlag(args[i], args[i + 1], req).value)
  }

  /** `parse_optional_flags` of the engine. */
  method ParseEngine(args: seq<string>, defaults: EngineLimits) returns (r: Option<EngineLimits>)
    ensures r == Engine(args, 0, defaults)
  {
    var i, req := 0, defaults;
    while i < |args|
      invariant 0 <= i
      invariant Engine(args, 0, defaults) == Engine(args, i, req)
      decreases |args| - i
    {
      if args[i] == SOFT {
        if i + 1 >= |args| {
          return None;
        }
        i := i + 1;
        req := req.(softMib := Atoi(args[i]));
      } else if args[i] == HARD {
        if i + 1 >= |args| {
          return None;
        }
        i := i + 1;
        req := req.(hardMib := Atoi(args[i]));
      } else if args[i] == NICE {
        if i + 1 >= |args| {
          return None;
        }
        i := i + 1;
        req := req.(nice := Atoi(args[i]));
      } else {
        return None;
      }
      i := i + 1;
    }
    return Some(req);
  }

  // ---------------------------------------------------------------------------------------
  // What acceptance means

  /** The value given by the last occurrence of a flag. */
  function Last(args: seq<string>, i: nat, flag: string): Option<string>
    decreases |args| - i
  {
    if i + 1 >= |args| then None
    else
      var later := Last(args, i + 2, flag);
      if later.Some? then later else if args[i] == flag then Some(args[i + 1]) else None
  }

  /** The product never wraps: an accepted value is its mebibytes times 2^20, exactly. */
  lemma MibIsExact(s: string)
    ensures ParseMib(s).Some? ==>
              && Scan(s).found && Scan(s).whole && ToUlong(Scan(s)).Some?
              && ParseMib(s).value == ToUlong(Scan(s)).value * MIB
              && ParseMib(s).value <= ULONG_MAX
  {
    if ParseMib(s).Some? {
      var mib := ToUlong(Scan(s)).value;
      assert mib * MIB <= (ULONG_MAX / MIB) * MIB <= ULONG_MAX;
    }
  }

  /** A minus sign does not make a limit invalid: `-m` is accepted exactly when m is zero or
      2^64 - m mebibytes fit in 64 bits, and then stands for those 2^64 - m mebibytes. */
  lemma NegativeMib(s: string)
    requires Scan(s).found && Scan(s).whole && Scan(s).negative
    ensures ParseMib(s).Some? <==>
            Scan(s).magnitude == 0 || ULONG_MAX + 1 - ULONG_MAX / MIB <= Scan(s).magnitude <= ULONG_MAX
  {
  }

  /** For instance, "-0" is zero. */
  lemma MinusZeroIsZero()
    ensures ParseMib("-0") == Some(0)
  {
    var v := "-0";
    assert v[1..] == "0" && IsDigit(v[1]) && v[1..][..0] == "";
    ScanMinus(v);
  }

  /** And minus the largest number is one mebibyte. */
  lemma MinusMaxIsOne(v: string)
    requires AllDigits(v) && Decimal(v) == ULONG_MAX
    ensures ParseMib("-" + v) == Some(MIB)
  {
    var w := "-" + v;
    assert w[1..] == v && w[0] == '-';
    ScanMinus(w);
  }

  ghost function OrDefault<T>(o: Option<T>, default: T): T {
    if o.Some? then o.value else default
  }

  ghost predicate FromLast(args: seq<string>, i: nat, req: Limits, r: Limits) {
    && r.soft == (var v := Last(args, i, SOFT); if v.Some? then OrDefault(ParseMib(v.value), 0) else req.soft)
    && r.hard == (var v := Last(args, i, HARD); if v.Some? then OrDefault(ParseMib(v.value), 0) else req.hard)
    && r.nice == (var v := Last(args, i, NICE); if v.Some? then OrDefault(ParseNice(v.value), 0) else req.nice)
  }

  ghost predicate LastValuesParse(args: seq<string>, i: nat) {
    && (Last(args, i, SOFT).Some? ==> ParseMib(Last(args, i, SOFT).value).Some?)
    && (Last(args, i, HARD).Some? ==> ParseMib(Last(args, i, HARD).value).Some?)
    && (Last(args, i, NICE).Some? ==> ParseNice(Last(args, i, NICE).value).Some?)
  }

  lemma {:induction false} LoopTakesLast(args: seq<string>, i: nat, req: Limits)
    requires StarterLoop(args, i, req).Some?
    ensures LastValuesParse(args, i) && FromLast(args, i, req, StarterLoop(args, i, req).value)
    decreases |args| - i
  {
    if i + 1 < |args| {
      var req' := StarterFlag(args[i], args[i + 1], req).value;
      LoopTakesLast(args, i + 2, req');
    }
  }

  /** A known flag with a value it takes. */
  ghost predicate GoodPair(flag: string, v: string) {
    ((flag == SOFT || flag == HARD) && ParseMib(v).Some?) || (flag == NICE && ParseNice(v).Some?)
  }

  /** The arguments from `i` on are good pairs and nothing else. */
  ghost predicate AllGood(args: seq<string>, i: nat) {
    && i <= |args| && (|args| - i) % 2 == 0
    && forall k :: i <= k < |args| - 1 && (k - i) % 2 == 0 ==> GoodPair(args[k], args[k + 1])
  }

  lemma AllGoodNext(args: seq<string>, i: nat)
    requires i + 1 < |args|
    ensures AllGood(args, i) <==> GoodPair(args[i], args[i + 1]) && AllGood(args, i + 2)
  {
    if GoodPair(args[i], args[i + 1]) && AllGood(args, i + 2) {
      forall k | i <= k < |args| - 1 && (k - i) % 2 == 0
        ensures GoodPair(args[k], args[k + 1])
      {
        assert k == i || (k - (i + 2)) % 2 == 0;
      }
    }
    if AllGood(args, i) {
      forall k | i + 2 <= k < |args| - 1 && (k - (i + 2)) % 2 == 0
        ensures GoodPair(args[k], args[k + 1])
      {
        assert (k - i) % 2 == 0;
      }
    }
  }

  lemma FlagIsGood(flag: string, v: string, req: Limits)
    ensures StarterFlag(flag, v, req).Some? <==> GoodPair(flag, v)
  {
    FlagsDiffer();
  }

  lemma {:induction false} LoopAcceptsExactly(args: seq<string>, i: nat, req: Limits)
    requires i <= |args|
    ensures StarterLoop(args, i, req).Some? <==> AllGood(args, i)
    decreases |args| - i
  {
    if i + 1 < |args| {
      AllGoodNext(args, i);
      FlagIsGood(args[i], args[i + 1], req);
      if GoodPair(args[i], args[i + 1]) {
        LoopAcceptsExactly(args, i + 2, StarterFlag(args[i], args[i + 1], req).value);
      }
    }
  }

  /** When the starter parser accepts: soft <= hard, each field is its last occurrence or the
      default, and nice is in range if it was in range before. */
  lemma AcceptanceMeans(args: seq<string>, defaults: Limits)
    requires Starter(args, defaults).Some? && -20 <= defaults.nice <= 19
    ensures var r := Starter(args, defaults).value;
            && r.soft <= r.hard && -20 <= r.nice <= 19
            && LastValuesParse(args, 0) && FromLast(args, 0, defaults, r)
  {
    LoopTakesLast(args, 0, defaults);
  }

  /** It accepts exactly the lists of known flags with valid values whose last limits, or the
      defaults, are in order. */
  lemma AcceptsExactly(args: seq<string>, defaults: Limits, r: Limits)
    requires FromLast(args, 0, defaults, r)
    ensures Starter(args, defaults) == Some(r) <==> AllGood(args, 0) && r.soft <= r.hard
  {
    LoopAcceptsExactly(args, 0, defaults);
    if StarterLoop(args, 0, defaults).Some? {
      LoopTakesLast(args, 0, defaults);
    }
  }

  // ---------------------------------------------------------------------------------------
  // Numerals

  /** The decimal numeral of `n`. */
  function Numeral(n: nat): string {
    if n < 10 then [DigitOf(n)] else Numeral(n / 10) + [DigitOf(n % 10)]
  }

  function DigitOf(d: nat): char
    requires d < 10
  {
    "0123456789"[d]
  }

  lemma DigitValue(d: nat)
    requires d < 10
    ensures IsDigit(DigitOf(d)) && DigitOf(d) as int - 48 == d
  {
  }

  /** A numeral consists of digits and stands for its number. */
  lemma {:induction false} NumeralReadsBack(n: nat)
    ensures AllDigits(Numeral(n)) && Decimal(Numeral(n)) == n
  {
    if n < 10 {
      DigitValue(n);
      assert Numeral(n)[..0] == "";
    } else {
      NumeralReadsBack(n / 10);
      DigitValue(n % 10);
      assert Numeral(n)[..|Numeral(n)| - 1] == Numeral(n / 10);
    }
  }

  /** The scanner reads the numeral of any number, after any blanks and an optional sign, as
      exactly that number. */
  lemma NumeralScans(n: nat)
    ensures Scan(Numeral(n)) == Scanned(true, false, n, true)
    ensures Scan("-" + Numeral(n)) == Scanned(true, true, n, true)
    ensures Scan("+" + Numeral(n)) == Scanned(true, false, n, true)
  {
    NumeralReadsBack(n);
    ScanDigits(Numeral(n));
    assert ("-" + Numeral(n))[1..] == Numeral(n);
    ScanMinus("-" + Numeral(n));
    assert ("+" + Numeral(n))[1..] == Numeral(n);
    ScanPlus("+" + Numeral(n));
  }

  lemma ScanPlus(v: string)
    requires |v| > 1 && v[0] == '+' && AllDigits(v[1..])
    ensures Scan(v) == Scanned(true, false, Decimal(v[1..]), true)
  {
    WholeRun(v[1..]);
    assert v[1..][..|v[1..]|] == v[1..];
  }

  lemma BlanksAreSkipped(c: char, s: string)
    requires IsSpace(c)
    ensures Scan([c] + s) == Scan(s)
  {
    assert ([c] + s)[1..] == s;
  }

  lemma {:induction false} RunStops(v: string, rest: string)
    requires (forall i :: 0 <= i < |v| ==> IsDigit(v[i])) && rest != "" && !IsDigit(rest[0])
    ensures DigitRun(v + rest) == |v|
  {
    if v == "" {
      assert v + rest == rest;
    } else {
      assert (v + rest)[1..] == v[1..] + rest;
      RunStops(v[1..], rest);
    }
  }

  lemma ScanStops(v: string, rest: string)
    requires AllDigits(v) && rest != "" && !IsDigit(rest[0])
    ensures Scan(v + rest) == Scanned(true, false, Decimal(v), false)
  {
    RunStops(v, rest);
    assert (v + rest)[..|v|] == v;
  }

  lemma AtoiReadsScan(a: string, b: string)
    requires Signed(Scan(a)) == Signed(Scan(b))
    ensures Atoi(a) == Atoi(b)
  {
  }

  /** Anything after the digits is refused by the starter parser, and ignored by `atoi`. */
  lemma TrailingTextIsRefused(v: string, rest: string)
    requires AllDigits(v) && rest != "" && !IsDigit(rest[0])
    ensures ParseMib(v + rest) == None && ParseNice(v + rest) == None && Atoi(v + rest) == Atoi(v)
  {
    ScanStops(v, rest);
    ScanDigits(v);
    AtoiReadsScan(v + rest, v);
  }

  /** A numeral up to 2^44 - 1 is that many mebibytes; a larger one is refused. */
  lemma NumeralIsMebibytes(n: nat)
    ensures ParseMib(Numeral(n)) == if n <= ULONG_MAX / MIB then Some(n * MIB) else None
  {
    NumeralScans(n);
    MibIsExact(Numeral(n));
  }

  // ---------------------------------------------------------------------------------------
  // What the engine's parser accepts

  /** From argument `i` on there are known flags, each with a value, and nothing else. */
  ghost predicate AllKnown(args: seq<string>, i: nat)
    decreases |args| - i
  {
    i == |args| || (i + 1 < |args| && (args[i] == SOFT || args[i] == HARD || args[i] == NICE) && AllKnown(args, i + 2))
  }

  /** `atoi` of the last occurrence of a flag, or the default. */
  ghost function LastOr(args: seq<string>, i: nat, flag: string, default: int): int {
    var v := Last(args, i, flag);
    if v.Some? then Atoi(v.value) else default
  }

  lemma FlagsDiffer()
    ensures SOFT != HARD && SOFT != NICE && HARD != NICE
  {
    assert SOFT[2] != HARD[2] && SOFT[2] != NICE[2] && HARD[2] != NICE[2];
  }

  lemma LastOrNext(args: seq<string>, i: nat, flag: string, default: int)
    requires i + 1 < |args|
    ensures LastOr(args, i, flag, default) == LastOr(args, i + 2, flag, if args[i] == flag then Atoi(args[i + 1]) else default)
  {
  }

  lemma {:induction false} EngineFromExactly(args: seq<string>, i: nat, req: EngineLimits)
    requires i <= |args|
    ensures Engine(args, i, req) ==
            if AllKnown(args, i)
            then Some(EngineLimits(LastOr(args, i, SOFT, req.softMib), LastOr(args, i, HARD, req.hardMib), LastOr(args, i, NICE, req.nice)))
            else None
    decreases |args| - i
  {
    if i + 1 < |args| {
      FlagsDiffer();
      LastOrNext(args, i, SOFT, req.softMib);
      LastOrNext(args, i, HARD, req.hardMib);
      LastOrNext(args, i, NICE, req.nice);
      if EngineFlag(args[i], args[i + 1], req).Some? {
        EngineFromExactly(args, i + 2, EngineFlag(args[i], args[i + 1], req).value);
      }
    }
  }

  /** On every argument list: the engine accepts exactly known flags with one value each, and each
      field is `atoi` of the last occurrence of its flag, or the default. */
  lemma EngineExactly(args: seq<string>, req: EngineLimits)
    ensures Engine(args, 0, req) ==
            if AllKnown(args, 0)
            then Some(EngineLimits(LastOr(args, 0, SOFT, req.softMib), LastOr(args, 0, HARD, req.hardMib), LastOr(args, 0, NICE, req.nice)))
            else None
    ensures AllKnown(args, 0) ==> |args| % 2 == 0
  {
    EngineFromExactly(args, 0, req);
    if AllKnown(args, 0) {
      KnownIsEven(args, 0);
    }
  }

  lemma {:induction false} KnownIsEven(args: seq<string>, i: nat)
    requires i <= |args| && AllKnown(args, i)
    ensures (|args| - i) % 2 == 0
    decreases |args| - i
  {
    if i < |args| {
      KnownIsEven(args, i + 2);
    }
  }

  // ---------------------------------------------------------------------------------------
  // The two parsers agree

  predicate AllDigits(s: string) {
    s != "" && forall i :: 0 <= i < |s| ==> IsDigit(s[i])
  }

  /** A plain decimal in `int` range, with a minus sign allowed for `--nice`. */
  predicate Plain(flag: string, v: string) {
    || (AllDigits(v) && Decimal(v) <= INT_MAX)
    || (flag == NICE && |v| > 1 && v[0] == '-' && AllDigits(v[1..]) && Decimal(v[1..]) <= INT_MAX)
  }

  predicate AllPlain(args: seq<string>) {
    forall i :: 0 <= i < |args| - 1 && i % 2 == 0 ==> Plain(args[i], args[i + 1])
  }

  lemma {:induction false} WholeRun(s: string)
    requires forall i :: 0 <= i < |s| ==> IsDigit(s[i])
    ensures DigitRun(s) == |s|
  {
    if s != "" {
      WholeRun(s[1..]);
    }
  }

  lemma ScanDigits(v: string)
    requires AllDigits(v)
    ensures Scan(v) == Scanned(true, false, Decimal(v), true)
  {
    WholeRun(v);
    assert v[..|v|] == v;
  }

  lemma ScanMinus(v: string)
    requires |v| > 1 && v[0] == '-' && AllDigits(v[1..])
    ensures Scan(v) == Scanned(true, true, Decimal(v[1..]), true)
  {
    WholeRun(v[1..]);
    assert v[1..][..|v[1..]|] == v[1..];
  }

  lemma PlainScans(flag: string, v: string)
    requires Plain(flag, v)
    ensures var n := Scan(v); n.found && n.whole && n.magnitude <= INT_MAX && (flag != NICE ==> !n.negative)
  {
    if AllDigits(v) {
      ScanDigits(v);
    } else {
      ScanMinus(v);
    }
  }

  lemma AtoiIsExact(v: string)
    requires Scan(v).magnitude <= INT_MAX
    ensures Atoi(v) == Signed(Scan(v))
  {
  }

  lemma PlainAgrees(flag: string, v: string)
    requires Plain(flag, v)
    ensures flag != NICE ==> ParseMib(v) == Some(Atoi(v) * MIB) && Atoi(v) >= 0
    ensures ParseNice(v) == if -20 <= Atoi(v) <= 19 then Some(Atoi(v)) else None
  {
    PlainScans(flag, v);
    AtoiIsExact(v);
  }

  /** The same limits, in bytes and in mebibytes. */
  ghost predicate Agree(a: Limits, b: EngineLimits) {
    a.soft == b.softMib * MIB && a.hard == b.hardMib * MIB && a.nice == b.nice
  }

  lemma {:induction false} LoopsAgree(args: seq<string>, i: nat, a: Limits, b: EngineLimits)
    requires AllPlain(args) && i % 2 == 0 && Agree(a, b) && StarterLoop(args, i, a).Some?
    ensures Engine(args, i, b).Some? && Agree(StarterLoop(args, i, a).value, Engine(args, i, b).value)
    decreases |args| - i
  {
    if i + 1 < |args| {
      PlainAgrees(args[i], args[i + 1]);
      LoopsAgree(args, i + 2, StarterFlag(args[i], args[i + 1], a).value, EngineFlag(args[i], args[i + 1], b).value);
    }
  }

  /** On every argument list that the starter parser accepts and whose values are plain
      decimals, the engine parser accepts too and yields the same limits. */
  lemma ParsersAgree(args: seq<string>, a: Limits, b: EngineLimits)
    requires AllPlain(args) && Agree(a, b) && Starter(args, a).Some?
    ensures Engine(args, 0, b).Some? && Agree(Starter(args, a).value, Engine(args, 0, b).value)
  {
    LoopsAgree(args, 0, a, b);
  }

  /** A `--nice` has a value in -20..19. */
  ghost predicate NiceFits(flag: string, v: string) {
    flag == NICE ==> -20 <= Atoi(v) <= 19
  }

  /** Every `--nice` from argument `i` on does. */
  ghost predicate NiceInRange(args: seq<string>, i: nat)
    decreases |args| - i
  {
    i + 1 < |args| ==> NiceFits(args[i], args[i + 1]) && NiceInRange(args, i + 2)
  }

  lemma PairAgrees(flag: string, v: string, a: Limits, b: EngineLimits)
    requires Plain(flag, v) && Agree(a, b)
    ensures StarterFlag(flag, v, a).Some? <==>
            EngineFlag(flag, v, b).Some? && NiceFits(flag, v)
    ensures StarterFlag(flag, v, a).Some? && EngineFlag(flag, v, b).Some? ==>
              Agree(StarterFlag(flag, v, a).value, EngineFlag(flag, v, b).value)
  {
    PlainAgrees(flag, v);
  }

  lemma {:induction false} LoopsAgreeExactly(args: seq<string>, i: nat, a: Limits, b: EngineLimits)
    requires AllPlain(args) && i % 2 == 0 && Agree(a, b)
    ensures StarterLoop(args, i, a).Some? <==> Engine(args, i, b).Some? && NiceInRange(args, i)
    decreases |args| - i
  {
    if i + 1 < |args| {
      PairAgrees(args[i], args[i + 1], a, b);
      if StarterFlag(args[i], args[i + 1], a).Some? {
        LoopsAgreeExactly(args, i + 2, StarterFlag(args[i], args[i + 1], a).value, EngineFlag(args[i], args[i + 1], b).value);
      }
    }
  }

  /** On argument lists whose values are plain decimals the starter parser accepts exactly those
      that the engine parser accepts with every `--nice` in -20..19 and soft <= hard. */
  lemma ParsersDifferExactly(args: seq<string>, a: Limits, b: EngineLimits)
    requires AllPlain(args) && Agree(a, b)
    ensures Starter(args, a).Some? <==>
            && Engine(args, 0, b).Some? && NiceInRange(args, 0)
            && Engine(args, 0, b).value.softMib <= Engine(args, 0, b).value.hardMib
  {
    LoopsAgreeExactly(args, 0, a, b);
    if StarterLoop(args, 0, a).Some? {
      LoopsAgree(args, 0, a, b);
    }
  }

  /** The built-in defaults are such a pair. */
  lemma DefaultsAgree()
    ensures Agree(Limits(40 * MIB, 64 * MIB, 0), EngineLimits(40, 64, 0))
  {
  }

  /** For instance, the engine takes soft above hard, which the starter parser refuses. */
  lemma EngineTakesMore()
    ensures Engine([SOFT, "9", HARD, "1"], 0, EngineLimits(40, 64, 0)) == Some(EngineLimits(9, 1, 0))
    ensures Starter([SOFT, "9", HARD, "1"], Limits(40 * MIB, 64 * MIB, 0)) == None
  {
    OneDigit("9");
    OneDigit("1");
    var args := [SOFT, "9", HARD, "1"];
    assert SOFT[2] != HARD[2];
    var a, b := Limits(40 * MIB, 64 * MIB, 0), EngineLimits(40, 64, 0);
    assert StarterFlag(SOFT, "9", a) == Some(Limits(9 * MIB, 64 * MIB, 0));
    assert StarterFlag(HARD, "1", Limits(9 * MIB, 64 * MIB, 0)) == Some(Limits(9 * MIB, 1 * MIB, 0));
    assert StarterLoop(args, 2, Limits(9 * MIB, 64 * MIB, 0)) == StarterLoop(args, 4, Limits(9 * MIB, MIB, 0));
    assert Engine(args, 2, EngineLimits(9, 64, 0)) == Engine(args, 4, EngineLimits(9, 1, 0));
  }

  lemma OneDigit(v: string)
    requires |v| == 1 && IsDigit(v[0])
    ensures Atoi(v) == v[0] as int - 48 && ParseMib(v) == Some((v[0] as int - 48) * MIB)
  {
    ScanDigits(v);
    assert v[..0] == "" && Decimal(v) == v[0] as int - 48;
  }
}
