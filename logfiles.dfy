/**
 * Where `Init` points the rotating file sink (logs/logs.go:22-24, 38-65):
 * the base directory, the file name, and the fixed rotation policy handed
 * to the rotation library.
 */
module LogFiles {

  const DefaultBaseDir: string := "/var/moonfrog/go/"

  /** The numbers `Init` passes to `initLogger`: megabytes per file, backups kept, days kept. */
  const MaxSizeMB: int := 500
  const MaxBackups: int := 10
  const MaxAgeDays: int := 28

  datatype RotationPolicy = RotationPolicy(maxSize: int, maxBackups: int, maxAge: int)

  const DefaultPolicy: RotationPolicy := RotationPolicy(MaxSizeMB, MaxBackups, MaxAgeDays)

  /** `filepath.Join(dir, name)`, kept abstract: the path cleaning is not modelled. */
  datatype FilePath = Join(dir: string, name: string)

  /** What a bound rotating logger records: its file and its rotation policy. */
  datatype FileSink = FileSink(path: FilePath, policy: RotationPolicy)

  /** The range of Go's `int64`, the type of `time.Now().UnixNano()`. */
  type Int64 = x: int | -0x8000_0000_0000_0000 <= x < 0x8000_0000_0000_0000

  const LogSuffix: string := ".log"

  /** An empty base directory means the default one. */
  function ResolveBaseDir(baseDir: string): string {
    if baseDir == "" then DefaultBaseDir else baseDir
  }

  function Digit(d: int): char
    requires 0 <= d < 10
  {
    ('0' as int + d) as char
  }

  function DigitValue(c: char): int {
    c as int - '0' as int
  }

  /** Decimal digits only, at least one, and no leading zero unless the numeral is "0". */
  predicate IsNumeral(s: string) {
    |s| > 0 && (forall i :: 0 <= i < |s| ==> '0' <= s[i] <= '9') && (|s| > 1 ==> s[0] != '0')
  }

  /** The texts `%v` prints for an integer: a numeral, or a minus sign before a numeral other than "0". */
  predicate IsDecimalText(s: string) {
    IsNumeral(s) || (|s| > 1 && s[0] == '-' && IsNumeral(s[1..]) && s[1] != '0')
  }

  /** The decimal digits of a natural number, most significant first, without leading zeros. */
  function NatDecimal(n: nat): (r: string)
    ensures IsNumeral(r)
    ensures n > 0 ==> r[0] != '0'
  {
    if n < 10 then [Digit(n)] else NatDecimal(n / 10) + [Digit(n % 10)]
  }

  /** `%v` of an integer: its decimal digits, after a minus sign when negative. */
  function Decimal(n: int): (r: string)
    ensures IsDecimalText(r)
    ensures r[0] == '-' <==> n < 0
  {
    if n < 0 then "-" + NatDecimal(-n) else NatDecimal(n)
  }

  function ParseNat(s: string): int {
    if |s| == 0 then 0 else ParseNat(s[..|s| - 1]) * 10 + DigitValue(s[|s| - 1])
  }

  /** Reading a decimal numeral back, an optional minus sign first. */
  function ParseInt(s: string): int {
    if |s| > 0 && s[0] == '-' then -ParseNat(s[1..]) else ParseNat(s)
  }

  lemma {:induction false} ParseNatDecimal(n: nat)
    ensures ParseNat(NatDecimal(n)) == n
  {
    if n >= 10 {
      ParseNatDecimal(n / 10);
      var s := NatDecimal(n);
      assert s[..|s| - 1] == NatDecimal(n / 10);
    }
  }

  /** Decimal rendering loses nothing: the number can be read back. */
  lemma DecimalRoundTrip(n: int)
    ensures ParseInt(Decimal(n)) == n
  {
    if n < 0 {
      ParseNatDecimal(-n);
      assert ("-" + NatDecimal(-n))[1..] == NatDecimal(-n);
    } else {
      ParseNatDecimal(n);
    }
  }

  /**
   * The file name `Init` chooses: the application name, or the current
   * Unix time in nanoseconds when the name is empty, then ".log".
   */
  function LogFileName(appName: string, nowNanos: Int64): (r: string)
    ensures |r| >= |LogSuffix| && r[|r| - |LogSuffix|..] == LogSuffix
    ensures appName != "" ==> r[..|r| - |LogSuffix|] == appName
    ensures appName == "" ==> IsDecimalText(r[..|r| - |LogSuffix|])
    ensures appName == "" ==> ParseInt(r[..|r| - |LogSuffix|]) == nowNanos
  {
    var stem := if appName == "" then Decimal(nowNanos) else appName;
    DecimalRoundTrip(nowNanos);
    assert (stem + LogSuffix)[..|stem|] == stem;
    stem + LogSuffix
  }

  /** Without an application name, two different instants give two different file names. */
  lemma TimestampNamesDistinct(t1: Int64, t2: Int64)
    requires t1 != t2
    ensures LogFileName("", t1) != LogFileName("", t2)
  {
  }
}
