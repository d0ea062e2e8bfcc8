/**
 src/config.ts: the Kubernetes resource quantities the runner Pod accepts, and
 the check that no request exceeds its limit. Values are exact, as `bigint` is.
 */
module Quantity {
  import opened Basics

  predicate IsDigit(c: char) {
    '0' <= c <= '9'
  }

  /** `[1-9][0-9]*` over the whole text. */
  predicate IsMantissa(d: string) {
    d != "" && d[0] != '0' && forall c | c in d :: IsDigit(c)
  }

  /** Where the run of leading digits ends. */
  function DigitRun(s: string): (n: nat)
    ensures n <= |s| && (forall k | 0 <= k < n :: IsDigit(s[k])) && (n < |s| ==> !IsDigit(s[n]))
  {
    if s == "" || !IsDigit(s[0]) then 0 else 1 + DigitRun(s[1..])
  }

  /** `^([1-9][0-9]*)(suffix)$` with one of the given suffixes. */
  function Shape(value: string, suffixes: set<string>): (r: Option<(string, string)>)
    ensures r.Some? ==> IsMantissa(r.value.0) && r.value.1 in suffixes && value == r.value.0 + r.value.1
  {
    var n := DigitRun(value);
    var digits, suffix := value[..n], value[n..];
    if IsMantissa(digits) && suffix in suffixes then Some((digits, suffix)) else None
  }

  function DigitValue(c: char): (n: nat)
    requires IsDigit(c)
    ensures n < 10
  {
    c as int - '0' as int
  }

  /** BigInt(digits) */
  function Value(d: string): nat
    requires forall c | c in d :: IsDigit(c)
  {
    if d == "" then 0 else
    assert d[|d| - 1] in d;
    Value(d[..|d| - 1]) * 10 + DigitValue(d[|d| - 1])
  }

  predicate EndsWith000(d: string) {
    |d| >= 3 && d[|d| - 3..] == "000"
  }

  function CpuMillis(value: string): Option<nat> {
    match Shape(value, {"", "m"})
    case None => None
    case Some((digits, suffix)) =>
      if EndsWith000(digits) then None
      else Some(if suffix == "m" then Value(digits) else Value(digits) * 1000)
  }

  function ByteMebis(value: string): Option<nat> {
    match Shape(value, {"Mi", "Gi"})
    case None => None
    case Some((digits, suffix)) =>
      if Value(digits) % 1024 == 0 then None
      else Some(Value(digits) * (if suffix == "Gi" then 1024 else 1))
  }

  // ---------------------------------------------------------------------
  // What the API server writes back

  /** Decimal digits without a leading zero. */
  function Decimal(n: nat): (d: string)
    requires n > 0
    ensures IsMantissa(d)
  {
    var last := ['0' + (n % 10) as char];
    if n < 10 then last else Decimal(n / 10) + last
  }

  /** A CPU value in the largest unit that loses no precision. */
  function CpuText(millis: nat): string
    requires AcceptedCpu(millis)
  {
    if millis % 1000 == 0 then Decimal(millis / 1000) else Decimal(millis) + "m"
  }

  /** A byte value in the largest unit that loses no precision. */
  function ByteText(mebis: nat): string
    requires AcceptedBytes(mebis)
  {
    if mebis % 1024 == 0 then Decimal(mebis / 1024) + "Gi" else Decimal(mebis) + "Mi"
  }

  /** A positive value for which `k`, a thousand cores, is not the largest unit. */
  predicate AcceptedCpu(millis: nat) {
    millis > 0 && millis % 1_000_000 != 0
  }

  /** A positive value for which `Ti` is not the largest unit. */
  predicate AcceptedBytes(mebis: nat) {
    mebis > 0 && mebis % 1_048_576 != 0
  }

  // ---------------------------------------------------------------------
  // Decimal numerals

  lemma {:induction false} ValueOfDecimal(n: nat)
    requires n > 0
    ensures Value(Decimal(n)) == n
  {
    var d := Decimal(n);
    if n >= 10 {
      ValueOfDecimal(n / 10);
      assert d[..|d| - 1] == Decimal(n / 10);
    } else {
      assert d[..|d| - 1] == "";
    }
  }

  /** A mantissa is its initial digits, which are one too unless there are none,
      and a last digit. */
  lemma InitAndLast(d: string) returns (init: string, last: char)
    requires IsMantissa(d)
    ensures d == init + [last] && IsDigit(last) && (init == "" || IsMantissa(init))
    ensures init == d[..|d| - 1] && last == d[|d| - 1]
    ensures init == "" ==> last != '0'
    ensures Value(d) == Value(init) * 10 + DigitValue(last)
    ensures init == "" ==> Value(d) == DigitValue(last)
  {
    init, last := d[..|d| - 1], d[|d| - 1];
    assert last in d && forall c | c in init :: c in d;
  }

  lemma {:induction false} MantissaIsPositive(d: string)
    requires IsMantissa(d)
    ensures Value(d) > 0
  {
    var init, _ := InitAndLast(d);
    if init != "" {
      MantissaIsPositive(init);
    }
  }

  lemma {:induction false} DecimalOfValue(d: string)
    requires IsMantissa(d)
    ensures Value(d) > 0 && Decimal(Value(d)) == d
  {
    MantissaIsPositive(d);
    var init, last := InitAndLast(d);
    var n := Value(d);
    assert n / 10 == Value(init) && n % 10 == DigitValue(last);
    assert ['0' + (n % 10) as char] == [last];
    if init != "" {
      DecimalOfValue(init);
    }
  }

  lemma LastThree(d: string) returns (g: string, x: char, y: char, z: char)
    requires IsMantissa(d) && |d| >= 3
    ensures d[|d| - 3..] == [x, y, z] && IsDigit(x) && IsDigit(y) && IsDigit(z)
    ensures forall c | c in g :: IsDigit(c)
    ensures Value(d) == 1000 * Value(g) + (100 * DigitValue(x) + 10 * DigitValue(y) + DigitValue(z))
  {
    hide Value, IsDigit, DigitValue;
    var e, f;
    e, z := InitAndLast(d);
    f, y := InitAndLast(e);
    g, x := InitAndLast(f);
    assert Value(d) == (Value(f) * 10 + DigitValue(y)) * 10 + DigitValue(z);
    assert Value(f) == Value(g) * 10 + DigitValue(x) by {
      if g == "" {
        NoDigits();
      }
    }
  }

  lemma NoDigits()
    ensures Value("") == 0
  {
  }

  lemma {:induction false} ValueBelow(d: string)
    requires IsMantissa(d) && |d| < 3
    ensures 0 < Value(d) < 100
  {
    MantissaIsPositive(d);
    var e, _ := InitAndLast(d);
    if e != "" {
      var _, _ := InitAndLast(e);
    }
  }

  lemma SplitAt1000(q: nat, r: nat)
    requires r < 1000
    ensures (1000 * q + r) % 1000 == r
  {
  }

  /** The string test on the last three digits is divisibility by a thousand. */
  lemma ThousandsEndIn000(d: string)
    requires IsMantissa(d)
    ensures EndsWith000(d) <==> Value(d) % 1000 == 0
  {
    hide Value;
    if |d| < 3 {
      ValueBelow(d);
    } else {
      var g, x, y, z := LastThree(d);
      SplitAt1000(Value(g), 100 * DigitValue(x) + 10 * DigitValue(y) + DigitValue(z));
    }
  }

  /** The digit run of a mantissa followed by a suffix is the mantissa. */
  lemma {:induction false} RunOfMantissa(d: string, suffix: string)
    requires forall c | c in d :: IsDigit(c)
    requires suffix == "" || !IsDigit(suffix[0])
    ensures DigitRun(d + suffix) == |d|
  {
    if d == "" {
      assert d + suffix == suffix;
    } else {
      assert (d + suffix)[1..] == d[1..] + suffix;
      RunOfMantissa(d[1..], suffix);
    }
  }

  lemma ShapeOf(d: string, suffix: string, suffixes: set<string>)
    requires IsMantissa(d) && suffix in suffixes
    requires suffix == "" || !IsDigit(suffix[0])
    ensures Shape(d + suffix, suffixes) == Some((d, suffix))
  {
    RunOfMantissa(d, suffix);
    assert (d + suffix)[..|d|] == d && (d + suffix)[|d|..] == suffix;
  }

  // ---------------------------------------------------------------------
  // Acceptance and canonicality

  lemma SplitAtMillion(q: nat, r: nat)
    requires r < 1_000_000
    ensures (1_000_000 * q + r) % 1_000_000 == r
  {
  }

  lemma ThousandsQuotient(n: nat)
    ensures (n * 1000) % 1000 == 0 && (n * 1000) / 1000 == n
    ensures n % 1000 == 0 ==> n / 1000 * 1000 == n
  {
  }

  lemma ThousandsRemainder(q: nat, r: nat)
    requires r < 1000
    ensures ((1000 * q + r) * 1000) % 1_000_000 == 1000 * r
  {
    SplitAtMillion(q, 1000 * r);
    assert (1000 * q + r) * 1000 == 1_000_000 * q + 1000 * r;
  }

  lemma Thousands(n: nat)
    ensures (n * 1000) % 1_000_000 == 0 <==> n % 1000 == 0
    ensures (n * 1000) % 1000 == 0 && (n * 1000) / 1000 == n
    ensures n % 1000 != 0 ==> n % 1_000_000 != 0
    ensures n % 1000 == 0 ==> n / 1000 * 1000 == n
  {
    ThousandsQuotient(n);
    MillionIsThousands(n);
    ThousandsRemainder(n / 1000, n % 1000);
    assert 1000 * (n / 1000) + n % 1000 == n;
  }

  lemma MillionIsThousands(n: nat)
    ensures n % 1_000_000 == 0 ==> n % 1000 == 0
  {
    if n % 1_000_000 == 0 {
      var q := n / 1_000_000;
      assert n == 1000 * (1000 * q) + 0;
      SplitAt1000(1000 * q, 0);
    }
  }

  lemma SplitAt1024(q: nat, r: nat)
    requires r < 1024
    ensures (1024 * q + r) % 1024 == r
  {
  }

  lemma SplitAtMebi(q: nat, r: nat)
    requires r < 1_048_576
    ensures (1_048_576 * q + r) % 1_048_576 == r
  {
  }

  lemma BinaryQuotient(n: nat)
    ensures (n * 1024) % 1024 == 0 && (n * 1024) / 1024 == n
    ensures n % 1024 == 0 ==> n / 1024 * 1024 == n
  {
  }

  lemma BinaryRemainder(q: nat, r: nat)
    requires r < 1024
    ensures ((1024 * q + r) * 1024) % 1_048_576 == 1024 * r
  {
    SplitAtMebi(q, 1024 * r);
    assert (1024 * q + r) * 1024 == 1_048_576 * q + 1024 * r;
  }

  lemma Binary(n: nat)
    ensures (n * 1024) % 1_048_576 == 0 <==> n % 1024 == 0
    ensures (n * 1024) % 1024 == 0 && (n * 1024) / 1024 == n
    ensures n % 1024 != 0 ==> n % 1_048_576 != 0
    ensures n % 1024 == 0 ==> n / 1024 * 1024 == n
  {
    BinaryQuotient(n);
    MebiIsBinary(n);
    BinaryRemainder(n / 1024, n % 1024);
    assert 1024 * (n / 1024) + n % 1024 == n;
  }

  lemma MebiIsBinary(n: nat)
    ensures n % 1_048_576 == 0 ==> n % 1024 == 0
  {
    if n % 1_048_576 == 0 {
      var q := n / 1_048_576;
      assert n == 1024 * (1024 * q) + 0;
      SplitAt1024(1024 * q, 0);
    }
  }

  lemma ParsedCpuIsCanonical(value: string, millis: nat)
    requires CpuMillis(value) == Some(millis)
    ensures AcceptedCpu(millis) && value == CpuText(millis)
  {
    hide Shape, Value, Decimal, EndsWith000;
    var (digits, suffix) := Shape(value, {"", "m"}).value;
    ThousandsEndIn000(digits);
    DecimalOfValue(digits);
    Thousands(Value(digits));
    assert suffix == "" ==> value == digits;
  }

  lemma CanonicalCpuIsParsed(millis: nat)
    requires AcceptedCpu(millis)
    ensures CpuMillis(CpuText(millis)) == Some(millis)
  {
    hide Shape, Value, Decimal, EndsWith000;
    var n := if millis % 1000 == 0 then millis / 1000 else millis;
    var suffix := if millis % 1000 == 0 then "" else "m";
    ValueOfDecimal(n);
    assert CpuText(millis) == Decimal(n) + suffix;
    ShapeOf(Decimal(n), suffix, {"", "m"});
    ThousandsEndIn000(Decimal(n));
    Thousands(n);
    Thousands(millis);
  }

  lemma ParsedBytesAreCanonical(value: string, mebis: nat)
    requires ByteMebis(value) == Some(mebis)
    ensures AcceptedBytes(mebis) && value == ByteText(mebis)
  {
    hide Shape, Value, Decimal;
    var (digits, suffix) := Shape(value, {"Mi", "Gi"}).value;
    DecimalOfValue(digits);
    Binary(Value(digits));
  }

  lemma CanonicalBytesAreParsed(mebis: nat)
    requires AcceptedBytes(mebis)
    ensures ByteMebis(ByteText(mebis)) == Some(mebis)
  {
    hide Shape, Value, Decimal;
    var n := if mebis % 1024 == 0 then mebis / 1024 else mebis;
    var suffix := if mebis % 1024 == 0 then "Gi" else "Mi";
    ValueOfDecimal(n);
    ShapeOf(Decimal(n), suffix, {"Mi", "Gi"});
    Binary(n);
    Binary(mebis);
  }

  /** A text is accepted with a value exactly when the value is one the units
      can carry and the text is what the API server writes for it. */
  lemma CpuIsCanonical(value: string, millis: nat)
    ensures CpuMillis(value) == Some(millis) <==> AcceptedCpu(millis) && value == CpuText(millis)
  {
    hide CpuMillis, CpuText;
    if CpuMillis(value) == Some(millis) {
      ParsedCpuIsCanonical(value, millis);
    }
    if AcceptedCpu(millis) {
      CanonicalCpuIsParsed(millis);
    }
  }

  lemma BytesAreCanonical(value: string, mebis: nat)
    ensures ByteMebis(value) == Some(mebis) <==> AcceptedBytes(mebis) && value == ByteText(mebis)
  {
    hide ByteMebis, ByteText;
    if ByteMebis(value) == Some(mebis) {
      ParsedBytesAreCanonical(value, mebis);
    }
    if AcceptedBytes(mebis) {
      CanonicalBytesAreParsed(mebis);
    }
  }

  /** Two accepted texts of the same value are the same text. */
  lemma EqualValuesEqualTexts(v: string, w: string)
    ensures CpuMillis(v).Some? && CpuMillis(v) == CpuMillis(w) ==> v == w
    ensures ByteMebis(v).Some? && ByteMebis(v) == ByteMebis(w) ==> v == w
  {
    if CpuMillis(v).Some? && CpuMillis(v) == CpuMillis(w) {
      CpuIsCanonical(v, CpuMillis(v).value);
      CpuIsCanonical(w, CpuMillis(v).value);
    }
    if ByteMebis(v).Some? && ByteMebis(v) == ByteMebis(w) {
      BytesAreCanonical(v, ByteMebis(v).value);
      BytesAreCanonical(w, ByteMebis(v).value);
    }
  }

  // ---------------------------------------------------------------------
  // validateRunnerResourceOrdering

  datatype Resources = Resources(
    cpuRequest: string, cpuLimit: string,
    memoryRequest: string, memoryLimit: string,
    storageRequest: string, storageLimit: string)

  datatype Issue = Issue(path: string, message: string)

  datatype Pair = Pair(path: string, request: Option<nat>, limit: Option<nat>, requestVar: string, limitVar: string)

  function IssueOf(p: Pair): Issue {
    Issue(p.path, p.requestVar + " must not exceed " + p.limitVar)
  }

  function CpuPair(d: Resources): Pair {
    Pair("workflowRunnerCpuLimit", CpuMillis(d.cpuRequest), CpuMillis(d.cpuLimit),
         "WORKFLOW_RUNNER_CPU_REQUEST", "WORKFLOW_RUNNER_CPU_LIMIT")
  }

  function MemoryPair(d: Resources): Pair {
    Pair("workflowRunnerMemoryLimit", ByteMebis(d.memoryRequest), ByteMebis(d.memoryLimit),
         "WORKFLOW_RUNNER_MEMORY_REQUEST", "WORKFLOW_RUNNER_MEMORY_LIMIT")
  }

  function StoragePair(d: Resources): Pair {
    Pair("workflowRunnerStorageLimit", ByteMebis(d.storageRequest), ByteMebis(d.storageLimit),
         "WORKFLOW_RUNNER_STORAGE_REQUEST", "WORKFLOW_RUNNER_STORAGE_LIMIT")
  }

  /** Both texts are what the API server writes for some value, and the request
      is the larger. */
  ghost predicate CpuExceeds(request: string, limit: string) {
    exists r, l | AcceptedCpu(r) && AcceptedCpu(l) :: request == CpuText(r) && limit == CpuText(l) && r > l
  }

  ghost predicate BytesExceed(request: string, limit: string) {
    exists r, l | AcceptedBytes(r) && AcceptedBytes(l) :: request == ByteText(r) && limit == ByteText(l) && r > l
  }

  ghost function Only(b: bool, i: Issue): seq<Issue> {
    if b then [i] else []
  }

  lemma CpuComparison(request: string, limit: string)
    ensures CpuMillis(request).Some? && CpuMillis(limit).Some? && CpuMillis(request).value > CpuMillis(limit).value
            <==> CpuExceeds(request, limit)
  {
    forall v: nat ensures CpuMillis(request) == Some(v) <==> AcceptedCpu(v) && request == CpuText(v) {
      CpuIsCanonical(request, v);
    }
    forall v: nat ensures CpuMillis(limit) == Some(v) <==> AcceptedCpu(v) && limit == CpuText(v) {
      CpuIsCanonical(limit, v);
    }
  }

  lemma ByteComparison(request: string, limit: string)
    ensures ByteMebis(request).Some? && ByteMebis(limit).Some? && ByteMebis(request).value > ByteMebis(limit).value
            <==> BytesExceed(request, limit)
  {
    forall v: nat ensures ByteMebis(request) == Some(v) <==> AcceptedBytes(v) && request == ByteText(v) {
      BytesAreCanonical(request, v);
    }
    forall v: nat ensures ByteMebis(limit) == Some(v) <==> AcceptedBytes(v) && limit == ByteText(v) {
      BytesAreCanonical(limit, v);
    }
  }

  function Flagged(pairs: seq<Pair>): seq<Issue> {
    if pairs == [] then []
    else
      var p := pairs[|pairs| - 1];
      Flagged(pairs[..|pairs| - 1]) +
      if p.request.Some? && p.limit.Some? && p.request.value > p.limit.value then [IssueOf(p)] else []
  }

  function Pairs(d: Resources): seq<Pair> {
    [CpuPair(d), MemoryPair(d), StoragePair(d)]
  }

  const CPU_ISSUE := Issue("workflowRunnerCpuLimit",
    "WORKFLOW_RUNNER_CPU_REQUEST" + " must not exceed " + "WORKFLOW_RUNNER_CPU_LIMIT")
  const MEMORY_ISSUE := Issue("workflowRunnerMemoryLimit",
    "WORKFLOW_RUNNER_MEMORY_REQUEST" + " must not exceed " + "WORKFLOW_RUNNER_MEMORY_LIMIT")
  const STORAGE_ISSUE := Issue("workflowRunnerStorageLimit",
    "WORKFLOW_RUNNER_STORAGE_REQUEST" + " must not exceed " + "WORKFLOW_RUNNER_STORAGE_LIMIT")

  /** The issues of the resources that are out of order, in the order cpu, memory,
      storage. */
  ghost function Exceeded(d: Resources): seq<Issue> {
    Only(CpuExceeds(d.cpuRequest, d.cpuLimit), CPU_ISSUE)
    + Only(BytesExceed(d.memoryRequest, d.memoryLimit), MEMORY_ISSUE)
    + Only(BytesExceed(d.storageRequest, d.storageLimit), STORAGE_ISSUE)
  }

  lemma IssuesAre(d: Resources)
    ensures IssueOf(CpuPair(d)) == CPU_ISSUE && IssueOf(MemoryPair(d)) == MEMORY_ISSUE && IssueOf(StoragePair(d)) == STORAGE_ISSUE
  {
    hide CpuMillis, ByteMebis;
  }

  lemma FlaggedAreExceeded(d: Resources)
    ensures Flagged(Pairs(d)) == Exceeded(d)
  {
    hide CpuMillis, ByteMebis, CpuExceeds, BytesExceed, IssueOf;
    CpuComparison(d.cpuRequest, d.cpuLimit);
    ByteComparison(d.memoryRequest, d.memoryLimit);
    ByteComparison(d.storageRequest, d.storageLimit);
    IssuesAre(d);
    var ps := Pairs(d);
    assert ps[..2] == [CpuPair(d), MemoryPair(d)] && ps[..2][..1] == [CpuPair(d)] && ps[..2][..1][..0] == [];
    assert Flagged(ps[..2]) == Flagged(ps[..2][..1]) + Only(BytesExceed(d.memoryRequest, d.memoryLimit), MEMORY_ISSUE);
    assert Flagged(ps[..2][..1]) == Only(CpuExceeds(d.cpuRequest, d.cpuLimit), CPU_ISSUE);
  }

  /** Exactly the pairs that both parse and are out of order, each once, in the
      order cpu, memory, storage. */
  method ValidateRunnerResourceOrdering(d: Resources) returns (issues: seq<Issue>)
    ensures issues == Exceeded(d)
  {
    hide CpuMillis, ByteMebis, Exceeded;
    var pairs := Pairs(d);
    issues := [];
    for i := 0 to |pairs|
      invariant issues == Flagged(pairs[..i])
    {
      var p := pairs[i];
      assert pairs[..i + 1][..i] == pairs[..i];
      if p.request.None? || p.limit.None? {
        continue;
      }
      if p.request.value <= p.limit.value {
        continue;
      }
      issues := issues + [IssueOf(p)];
    }
    assert pairs[..|pairs|] == pairs;
    FlaggedAreExceeded(d);
  }
}
