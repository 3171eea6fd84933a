/** The duration normaliser of src/caddy.js (`formatDuration`): a bare
    number of seconds gets the unit `s`, anything else is passed on trimmed. */
module Duration {

  /** The code points JavaScript's `String.prototype.trim` removes:
      WhiteSpace (TAB, VT, FF, SP, NBSP, ZWNBSP and the Zs category)
      and LineTerminator (LF, CR, LS, PS). */
  predicate IsJsSpace(c: char)
  {
    var n := c as int;
    n == 0x09 || n == 0x0A || n == 0x0B || n == 0x0C || n == 0x0D || n == 0x20
    || n == 0xA0 || n == 0x1680 || (0x2000 <= n <= 0x200A)
    || n == 0x2028 || n == 0x2029 || n == 0x202F || n == 0x205F
    || n == 0x3000 || n == 0xFEFF
  }

  /** Neither the first nor the last character is trimmable. */
  predicate IsTrimmed(s: string)
  {
    s == [] || (!IsJsSpace(s[0]) && !IsJsSpace(s[|s| - 1]))
  }

  function TrimStart(s: string): (r: string)
    ensures |r| <= |s| && r == s[|s| - |r|..]
    ensures r == [] || !IsJsSpace(r[0])
    decreases |s|
  {
    if s != [] && IsJsSpace(s[0]) then TrimStart(s[1..]) else s
  }

  function TrimEnd(s: string): (r: string)
    ensures |r| <= |s| && r == s[..|r|]
    ensures r == [] || !IsJsSpace(r[|r| - 1])
    decreases |s|
  {
    if s != [] && IsJsSpace(s[|s| - 1]) then TrimEnd(s[..|s| - 1]) else s
  }

  /** `s.trim()`: the infix of `s` that neither starts nor ends with a
      trimmable character; everything cut off on either side is trimmable. */
  function Trim(s: string): (r: string)
    ensures IsTrimmed(r)
    ensures |s| - |TrimStart(s)| + |r| <= |s|
    ensures r == s[|s| - |TrimStart(s)|..|s| - |TrimStart(s)| + |r|]
  {
    var t := TrimStart(s);
    var r := TrimEnd(t);
    assert IsTrimmed(r) by {
      assert r != [] ==> r[0] == t[0];
    }
    assert r == s[|s| - |t|..|s| - |t| + |r|] by {
      assert s[|s| - |t|..][..|r|] == s[|s| - |t|..|s| - |t| + |r|];
    }
    r
  }

  /** Everything `TrimStart` cuts off is white space. */
  lemma {:induction false} TrimStartCutsSpace(s: string)
    ensures forall i :: 0 <= i < |s| - |TrimStart(s)| ==> IsJsSpace(s[i])
    decreases |s|
  {
    if s != [] && IsJsSpace(s[0]) {
      TrimStartCutsSpace(s[1..]);
      forall i | 0 <= i < |s| - |TrimStart(s)|
        ensures IsJsSpace(s[i])
      {
        if i > 0 {
          assert s[i] == s[1..][i - 1];
        }
      }
    }
  }

  /** Everything `TrimEnd` cuts off is white space. */
  lemma {:induction false} TrimEndCutsSpace(s: string)
    ensures forall i :: |TrimEnd(s)| <= i < |s| ==> IsJsSpace(s[i])
    decreases |s|
  {
    if s != [] && IsJsSpace(s[|s| - 1]) {
      TrimEndCutsSpace(s[..|s| - 1]);
      forall i | |TrimEnd(s)| <= i < |s|
        ensures IsJsSpace(s[i])
      {
        if i < |s| - 1 {
          assert s[i] == s[..|s| - 1][i];
        }
      }
    }
  }

  /** `/^\d+$/`: a non-empty run of ASCII decimal digits. */
  predicate IsDecimalDigits(s: string)
  {
    |s| > 0 && forall i :: 0 <= i < |s| ==> '0' <= s[i] <= '9'
  }

  /** A falsy (empty) input is returned as it is; otherwise the trimmed value,
      with `s` appended when it is a bare number. The result is never a bare
      number, carries no surrounding white space, and keeps the given digits. */
  function FormatDuration(val: string): (r: string)
    ensures val == "" ==> r == ""
  {
    if val == "" then val
    else
      var strVal := Trim(val);
      if IsDecimalDigits(strVal) then strVal + "s" else strVal
  }

  /** What `formatDuration` promises: a falsy value passes unchanged; a value
      that trims to a bare number gets the unit `s`; anything else comes out
      trimmed. The result is never a bare number and carries no surrounding
      white space. */
  lemma FormatDurationSpec(val: string)
    ensures !IsDecimalDigits(FormatDuration(val)) && IsTrimmed(FormatDuration(val))
    ensures IsDecimalDigits(Trim(val)) ==> val != "" && FormatDuration(val) == Trim(val) + "s"
    ensures !IsDecimalDigits(Trim(val)) ==> FormatDuration(val) == Trim(val)
  {
    var strVal := Trim(val);
    if val != "" && IsDecimalDigits(strVal) {
      assert (strVal + "s")[|strVal|] == 's';
    }
  }

  lemma {:induction false} TrimStartOfTrimmed(s: string)
    requires s == [] || !IsJsSpace(s[0])
    ensures TrimStart(s) == s
  {
  }

  lemma {:induction false} TrimEndOfTrimmed(s: string)
    requires s == [] || !IsJsSpace(s[|s| - 1])
    ensures TrimEnd(s) == s
  {
  }

  /** Trimming a string that is already trimmed changes nothing. */
  lemma {:induction false} TrimFixpoint(s: string)
    requires IsTrimmed(s)
    ensures Trim(s) == s
  {
    TrimStartOfTrimmed(s);
    TrimEndOfTrimmed(s);
  }

  /** Normalising twice is normalising once: `formatDuration` may be applied
      to a value that has already been through it. */
  lemma {:induction false} FormatDurationIdempotent(val: string)
    ensures FormatDuration(FormatDuration(val)) == FormatDuration(val)
  {
    var r := FormatDuration(val);
    FormatDurationSpec(val);
    TrimFixpoint(r);
  }

  /** Examples: a bare count gains the unit; a value with a unit, or padded
      with blanks, comes out trimmed and unchanged. */
  lemma FormatDurationBareCount()
    ensures FormatDuration("30") == "30s"
  {
    TrimFixpoint("30");
  }

  lemma FormatDurationPadded()
    ensures FormatDuration(" 30 ") == "30s"
  {
    var padded := " 30 ";
    assert padded[1..] == "30 " && IsJsSpace(padded[0]);
    assert TrimStart(padded) == "30 " by { TrimStartOfTrimmed("30 "); }
    assert "30 "[..2] == "30" && IsJsSpace("30 "[2]);
    assert TrimEnd("30 ") == "30" by { TrimEndOfTrimmed("30"); }
    assert Trim(padded) == "30";
  }

  lemma FormatDurationWithUnit()
    ensures FormatDuration("30s") == "30s"
    ensures FormatDuration("5m") == "5m"
  {
    TrimFixpoint("30s");
    TrimFixpoint("5m");
    assert !IsDecimalDigits("30s") by { assert "30s"[2] == 's'; }
    assert !IsDecimalDigits("5m") by { assert "5m"[1] == 'm'; }
  }
}
