/**
 * GetOutputFilename: the name of the THINGS lump written for an input
 * file. An input named like `MAP.12` (a dot and two digits at the end)
 * gives `THINGS.12`; any other input takes the next value of a counter,
 * `THINGS.0`, `THINGS.1`, and so on. The result is the output directory
 * joined with that name; the join is a parameter of the model.
 */
module OutputName {

  /** ectype::isDigit. */
  predicate IsDigit(c: char)
  {
    '0' <= c <= '9'
  }

  /** The character of a decimal digit. */
  function DigitChar(d: nat): (c: char)
    requires d < 10
    ensures IsDigit(c) && c as int - '0' as int == d
  {
    ('0' as int + d) as char
  }

  /** qstring::ToString on a non-negative int: its decimal digits, without leading zeros. */
  function DecimalString(n: nat): (str: string)
    ensures |str| > 0
    ensures forall j :: 0 <= j < |str| ==> IsDigit(str[j])
    ensures |str| == 1 <==> n < 10
    ensures str[0] == '0' ==> n == 0
    decreases n
  {
    if n < 10 then [DigitChar(n)] else DecimalString(n / 10) + [DigitChar(n % 10)]
  }

  /** The number a string of decimal digits denotes. */
  function DecimalValue(str: string): nat
    requires forall j :: 0 <= j < |str| ==> IsDigit(str[j])
  {
    if |str| == 0 then 0
    else DecimalValue(str[..|str| - 1]) * 10 + DigitValue(str[|str| - 1])
  }

  /** The value of a decimal digit character. */
  function DigitValue(c: char): (d: nat)
    requires IsDigit(c)
    ensures d < 10 && DigitChar(d) == c
  {
    c as int - '0' as int
  }

  /** Reading the decimal digits of n gives n back. */
  lemma {:induction false} DecimalRoundTrip(n: nat)
    ensures DecimalValue(DecimalString(n)) == n
    decreases n
  {
    if n >= 10 {
      DecimalRoundTrip(n / 10);
      var str := DecimalString(n);
      assert str[..|str| - 1] == DecimalString(n / 10);
    }
  }

  /** Different counter values are written differently. */
  lemma DecimalStringInjective(a: nat, b: nat)
    requires a != b
    ensures DecimalString(a) != DecimalString(b)
  {
    DecimalRoundTrip(a);
    DecimalRoundTrip(b);
  }

  /** The input path ends in a dot followed by two digits. */
  predicate HasNumberedExtension(inputpath: string)
  {
    var n := |inputpath|;
    n >= 3 && inputpath[n - 3] == '.' && IsDigit(inputpath[n - 2]) && IsDigit(inputpath[n - 1])
  }

  /** The file name GetOutputFilename picks for inputpath when the counter stands at filenum. */
  function ThingsName(inputpath: string, filenum: nat): (name: string)
  {
    if HasNumberedExtension(inputpath) then "THINGS" + inputpath[|inputpath| - 3..]
    else "THINGS." + DecimalString(filenum)
  }

  /** Every name is `THINGS.` followed by at least one decimal digit. */
  lemma ThingsNameShape(inputpath: string, filenum: nat)
    ensures var name := ThingsName(inputpath, filenum);
      |name| >= 8 && name[..7] == "THINGS." &&
      forall j :: 7 <= j < |name| ==> IsDigit(name[j])
  {
  }

  /**
   * An input with a two-digit extension names its lump `THINGS` plus that
   * extension, whatever the counter.
   */
  lemma NumberedInputKeepsExtension(inputpath: string, filenum: nat, other: nat)
    requires HasNumberedExtension(inputpath)
    ensures ThingsName(inputpath, filenum) == ThingsName(inputpath, other)
    ensures ThingsName(inputpath, filenum)[6..] == inputpath[|inputpath| - 3..]
  {
  }

  /** Any other input is named after the counter: `THINGS.` and the counter's plain decimal text. */
  lemma OtherInputUsesCounter(inputpath: string, filenum: nat)
    requires !HasNumberedExtension(inputpath)
    ensures ThingsName(inputpath, filenum) == "THINGS." + DecimalString(filenum)
    ensures var name := ThingsName(inputpath, filenum);
      name[..7] == "THINGS." && DecimalValue(name[7..]) == filenum
  {
    DecimalRoundTrip(filenum);
    assert ThingsName(inputpath, filenum)[7..] == DecimalString(filenum);
  }

  /** An input shorter than three characters never has a two-digit extension, so it takes the counter. */
  lemma ShortInputUsesCounter(inputpath: string)
    ensures |inputpath| < 3 ==> !HasNumberedExtension(inputpath)
  {
  }

  /** Counter-named lumps for different counter values never share a name. */
  lemma CounterNamesDistinct(a: string, b: string, m: nat, n: nat)
    requires !HasNumberedExtension(a) && !HasNumberedExtension(b)
    requires m != n
    ensures ThingsName(a, m) != ThingsName(b, n)
  {
    DecimalStringInjective(m, n);
    assert ThingsName(a, m)[7..] == DecimalString(m);
    assert ThingsName(b, n)[7..] == DecimalString(n);
  }

  /**
   * The two ways of naming are not kept apart: any input ending in `.12`,
   * whatever the counter, and any other input named when the counter
   * stands at 12 (the thirteenth counter-named input) both get `THINGS.12`.
   */
  lemma NumberedAndCounterNamesCanMeet(a: string, b: string, m: nat)
    requires |a| >= 3 && a[|a| - 3..] == ".12"
    requires !HasNumberedExtension(b)
    ensures HasNumberedExtension(a)
    ensures ThingsName(a, m) == ThingsName(b, 12) == "THINGS.12"
  {
    assert a[|a| - 3] == '.' && a[|a| - 2] == '1' && a[|a| - 1] == '2' by {
      assert a[|a| - 3..][0] == '.' && a[|a| - 3..][1] == '1' && a[|a| - 3..][2] == '2';
    }
    assert DecimalString(12) == "12" by {
      assert DecimalString(1) == "1";
    }
  }

  /** For example, `E1M1.12` and `E1M1` named when the counter stands at 12 collide. */
  lemma CollisionExample()
    ensures ThingsName("E1M1.12", 0) == ThingsName("E1M1", 12)
  {
    assert !HasNumberedExtension("E1M1");
    NumberedAndCounterNamesCanMeet("E1M1.12", "E1M1", 0);
  }

  /**
   * The state GetOutputFilename works on: the static counter filenum and
   * the static output directory, with the directory join `operator/` of
   * qstring given as a function.
   */
  class OutputNamer {
    var filenum: nat
    const outputpath: string
    const join: (string, string) -> string

    constructor (outputpath: string, join: (string, string) -> string)
      ensures this.outputpath == outputpath && this.join == join
      ensures filenum == 0
    {
      this.outputpath := outputpath;
      this.join := join;
      filenum := 0;
    }

    /**
     * GetOutputFilename: keep a two-digit extension, or else take the next
     * counter value and advance the counter.
     */
    method GetOutputFilename(inputpath: string) returns (path: string)
      modifies this
      ensures path == join(outputpath, ThingsName(inputpath, old(filenum)))
      ensures filenum == if HasNumberedExtension(inputpath) then old(filenum) else old(filenum) + 1
    {
      var outfn := "";
      var inplen := |inputpath|;
      if inplen >= 3 {
        if inputpath[inplen - 3] == '.' {
          if IsDigit(inputpath[inplen - 2]) && IsDigit(inputpath[inplen - 1]) {
            outfn := "THINGS" + inputpath[inplen - 3..];
          }
        }
      }
      if |outfn| == 0 {
        outfn := "THINGS." + DecimalString(filenum);
        filenum := filenum + 1;
      }
      path := join(outputpath, outfn);
    }
  }

  /**
   * Two inputs without a two-digit extension, processed one after the
   * other, get different lump names, and the counter moves past both.
   */
  method NameTwoInputs(namer: OutputNamer, a: string, b: string) returns (pa: string, pb: string)
    requires !HasNumberedExtension(a) && !HasNumberedExtension(b)
    modifies namer
    ensures pa == namer.join(namer.outputpath, ThingsName(a, old(namer.filenum)))
    ensures pb == namer.join(namer.outputpath, ThingsName(b, old(namer.filenum) + 1))
    ensures ThingsName(a, old(namer.filenum)) != ThingsName(b, old(namer.filenum) + 1)
    ensures namer.filenum == old(namer.filenum) + 2
  {
    pa := namer.GetOutputFilename(a);
    pb := namer.GetOutputFilename(b);
    CounterNamesDistinct(a, b, old(namer.filenum), old(namer.filenum) + 1);
  }
}
