/** The bin-settings label (bin_settings_functions.py). */
module BinSettings {
  import opened Wrappers
  import opened Text

  /** A Python argument: an int (a bool is an int in Python), a str, or a
      value of any other type. */
  datatype Scalar = IntArg(i: int) | BoolArg(b: bool) | StrArg(s: string) | OtherArg

  datatype Error = TypeError(message: string)

  /** `str(v)` for an int, a bool or a str. */
  function Render(v: Scalar): string
    requires !v.OtherArg?
  {
    match v
    case IntArg(i) => IntToString(i)
    case BoolArg(b) => if b then "True" else "False"
    case StrArg(s) => s
  }

  const BinSizePrefix := "bin_size_"
  const MinProbesInfix := "_min_probes_per_bin_"

  /** `make_bin_settings_string`: a TypeError when either argument is neither
      str nor int, `bin_size` checked first; otherwise the label
      "bin_size_<bin_size>_min_probes_per_bin_<min_probes_per_bin>". */
  function MakeBinSettingsString(binSize: Scalar, minProbesPerBin: Scalar): (r: Result<string, Error>)
    ensures binSize.OtherArg? ==> r == Err(TypeError("bin_size must be a string or an integer"))
    ensures !binSize.OtherArg? && minProbesPerBin.OtherArg?
      ==> r == Err(TypeError("min_probes_per_bin must be a string or an integer"))
    ensures r.Ok? <==> !binSize.OtherArg? && !minProbesPerBin.OtherArg?
    ensures r.Ok? ==> |r.value| == |BinSizePrefix| + |Render(binSize)| + |MinProbesInfix| + |Render(minProbesPerBin)|
  {
    if binSize.OtherArg? then Err(TypeError("bin_size must be a string or an integer"))
    else if minProbesPerBin.OtherArg? then Err(TypeError("min_probes_per_bin must be a string or an integer"))
    else Ok(BinSizePrefix + Render(binSize) + MinProbesInfix + Render(minProbesPerBin))
  }

  /** An int and its decimal string give the same label, for example
      (1000, "2") and ("1000", 2). */
  lemma IntAndDecimalStringAgree(binSize: int, minProbesPerBin: int)
    ensures MakeBinSettingsString(IntArg(binSize), IntArg(minProbesPerBin))
         == MakeBinSettingsString(StrArg(IntToString(binSize)), IntArg(minProbesPerBin))
         == MakeBinSettingsString(IntArg(binSize), StrArg(IntToString(minProbesPerBin)))
  {
  }

  lemma Example1000And2()
    ensures MakeBinSettingsString(IntArg(1000), StrArg("2")) == MakeBinSettingsString(StrArg("1000"), IntArg(2))
    ensures MakeBinSettingsString(IntArg(1000), StrArg("2")) == Ok(BinSizePrefix + "1000" + MinProbesInfix + "2")
  {
    assert DigitChar(0) == '0' && DigitChar(1) == '1' && DigitChar(2) == '2';
    assert NatToString(1) == "1";
    assert NatToString(10) == NatToString(1) + "0" == "10";
    assert NatToString(100) == NatToString(10) + "0" == "100";
    assert NatToString(1000) == NatToString(100) + "0" == "1000";
    assert Render(IntArg(1000)) == "1000" == Render(StrArg("1000"));
    assert Render(IntArg(2)) == "2" == Render(StrArg("2"));
    assert MakeBinSettingsString(IntArg(1000), StrArg("2")) == Ok(BinSizePrefix + "1000" + MinProbesInfix + "2");
  }

  lemma {:induction false} NatToStringLength(n: nat)
    ensures n >= 10 ==> |NatToString(n)| >= 2
  {
  }

  /** Distinct natural numbers have distinct decimal strings. */
  lemma {:induction false} NatToStringInjective(a: nat, b: nat)
    requires NatToString(a) == NatToString(b)
    ensures a == b
  {
    var s := NatToString(a);
    if a < 10 && b < 10 {
      assert "0123456789"[a] == s[0] == "0123456789"[b];
    } else if a < 10 || b < 10 {
      NatToStringLength(a);
      NatToStringLength(b);
    } else {
      assert s == NatToString(a / 10) + [DigitChar(a % 10)];
      assert s == NatToString(b / 10) + [DigitChar(b % 10)];
      assert NatToString(a / 10) == s[..|s| - 1] == NatToString(b / 10);
      DigitCharInjective(a % 10, b % 10);
      NatToStringInjective(a / 10, b / 10);
      DecimalSplitInjective(a, b);
    }
  }

  lemma DigitCharInjective(d: nat, e: nat)
    requires d < 10 && e < 10 && DigitChar(d) == DigitChar(e)
    ensures d == e
  {
    assert "0123456789"[d] == DigitChar(d);
  }

  lemma DecimalSplitInjective(a: nat, b: nat)
    requires a / 10 == b / 10 && a % 10 == b % 10
    ensures a == b
  {
    assert a == 10 * (a / 10) + a % 10;
    assert b == 10 * (b / 10) + b % 10;
  }

  predicate AllDigits(s: string) {
    forall i :: 0 <= i < |s| ==> '0' <= s[i] <= '9'
  }

  /** A separator that starts with a non-digit splits prefix + digits +
      separator + rest in exactly one way. */
  lemma SplitAtSeparator(p: string, a: string, q: string, b: string, c: string, d: string)
    requires AllDigits(a) && AllDigits(c)
    requires |q| > 0 && !('0' <= q[0] <= '9')
    requires p + a + q + b == p + c + q + d
    ensures a == c && b == d
  {
    var x := p + a + q + b;
    var y := p + c + q + d;
    var n := |p|;
    assert x[n + |a|] == q[0] && y[n + |c|] == q[0];
    assert forall i :: 0 <= i < |a| ==> x[n + i] == a[i];
    assert forall i :: 0 <= i < |c| ==> y[n + i] == c[i];
    if |a| < |c| {
      assert false;
    } else if |c| < |a| {
      assert false;
    } else {
      assert a == x[n..n + |a|];
      assert c == y[n..n + |c|];
      assert b == x[n + |a| + |q|..];
      assert d == y[n + |c| + |q|..];
    }
  }

  /** For natural numbers the label determines both settings: two labels are
      equal only when both bin sizes and both minimum probe counts are. */
  lemma LabelDeterminesSettings(a: nat, b: nat, c: nat, d: nat)
    requires MakeBinSettingsString(IntArg(a), IntArg(b)) == MakeBinSettingsString(IntArg(c), IntArg(d))
    ensures a == c && b == d
  {
    SplitAtSeparator(BinSizePrefix, NatToString(a), MinProbesInfix, NatToString(b), NatToString(c), NatToString(d));
    NatToStringInjective(a, c);
    NatToStringInjective(b, d);
  }
}
