/** String helpers shared by both Caddyfile generators: prefix tests, joining
    with a separator (JavaScript's Array.join, Go's strings.Join), the decimal
    rendering of an integer (template interpolation of a number, strconv.Itoa)
    and suffix stripping (a `$`-anchored regex replace, strings.TrimSuffix). */
module Text {

  predicate StartsWith(s: string, prefix: string)
  {
    |prefix| <= |s| && s[..|prefix|] == prefix
  }

  predicate EndsWith(s: string, suffix: string)
  {
    |suffix| <= |s| && s[|s| - |suffix|..] == suffix
  }

  /** `r` is `base` with `line` inserted at one place: the setting that
      writes `line` adds exactly that line and changes nothing else. */
  predicate LineInserted(r: string, base: string, line: string)
  {
    exists i :: 0 <= i <= |base| && r == base[..i] + line + base[i..]
  }

  /** `s`, followed by `line` when `c` holds: one optional line of a block. */
  function Opt(s: string, c: bool, line: string): string
  {
    if c then s + line else s
  }

  /** A line written last is inserted at the end; without it, whatever
      it would have said, the text stops before it. */
  lemma InsertedAtEnd(base: string, c: bool, line: string, unset: string)
    requires c
    ensures LineInserted(Opt(base, c, line), Opt(base, false, unset), line)
  {
    assert base + line == base[..|base|] + line + base[|base|..];
  }

  /** An optional line appended after an inserted line, whether or not it
      is written, keeps the line inserted. */
  lemma InsertedThenMaybe(r: string, base: string, line: string, c: bool, extra: string)
    requires LineInserted(r, base, line)
    ensures LineInserted(Opt(r, c, extra), Opt(base, c, extra), line)
  {
    if c {
      var i :| 0 <= i <= |base| && r == base[..i] + line + base[i..];
      assert (base + extra)[..i] == base[..i];
      assert (base + extra)[i..] == base[i..] + extra;
      assert r + extra == (base + extra)[..i] + line + (base + extra)[i..];
    }
  }

  /** An optional line does not depend on the text before it. */
  lemma OptAfter(x: string, y: string, c: bool, line: string)
    ensures Opt(x + y, c, line) == x + Opt(y, c, line)
  {
    if c {
      assert x + y + line == x + (y + line);
    }
  }

  /** Two optional lines in a row do not depend on the text before them. */
  lemma Opt2After(x: string, y: string, c1: bool, l1: string, c2: bool, l2: string)
    ensures Opt(Opt(x + y, c1, l1), c2, l2) == x + Opt(Opt(y, c1, l1), c2, l2)
  {
    OptAfter(x, y, c1, l1);
    OptAfter(x, Opt(y, c1, l1), c2, l2);
  }

  /** A chain of optional lines whose first line is written starts with
      that line. */
  lemma OptFirstWritten(l1: string, c2: bool, l2: string)
    ensures Opt(Opt("", true, l1), c2, l2) == l1 + Opt("", c2, l2)
  {
    assert "" + l1 == l1 && l1 + "" == l1;
    OptAfter(l1, "", c2, l2);
  }

  /** Setting stage k of a chain of 2 optional lines inserts exactly that
      stage's line into the text written with stage k unset. */
  lemma Chain2Inserted(out: string,
                        c1: bool, l1: string, u1: string,
                        c2: bool, l2: string, u2: string)
    ensures c1 ==> LineInserted(Opt(Opt(out, c1, l1), c2, l2),
                              Opt(Opt(out, false, u1), c2, l2), l1)
    ensures c2 ==> LineInserted(Opt(Opt(out, c1, l1), c2, l2),
                              Opt(Opt(out, c1, l1), false, u2), l2)
  {
    if c1 {
      InsertedAtEnd(out, c1, l1, u1);
      var r, b := Opt(out, c1, l1), Opt(out, false, u1);
      InsertedThenMaybe(r, b, l1, c2, l2);
    }
    if c2 {
      InsertedAtEnd(Opt(out, c1, l1), c2, l2, u2);
    }
  }

  /** Setting stage k of a chain of 4 optional lines inserts exactly that
      stage's line into the text written with stage k unset. */
  lemma Chain4Inserted(out: string,
                        c1: bool, l1: string, u1: string,
                        c2: bool, l2: string, u2: string,
                        c3: bool, l3: string, u3: string,
                        c4: bool, l4: string, u4: string)
    ensures c1 ==> LineInserted(Opt(Opt(Opt(Opt(out, c1, l1), c2, l2), c3, l3), c4, l4),
                              Opt(Opt(Opt(Opt(out, false, u1), c2, l2), c3, l3), c4, l4), l1)
    ensures c2 ==> LineInserted(Opt(Opt(Opt(Opt(out, c1, l1), c2, l2), c3, l3), c4, l4),
                              Opt(Opt(Opt(Opt(out, c1, l1), false, u2), c3, l3), c4, l4), l2)
    ensures c3 ==> LineInserted(Opt(Opt(Opt(Opt(out, c1, l1), c2, l2), c3, l3), c4, l4),
                              Opt(Opt(Opt(Opt(out, c1, l1), c2, l2), false, u3), c4, l4), l3)
    ensures c4 ==> LineInserted(Opt(Opt(Opt(Opt(out, c1, l1), c2, l2), c3, l3), c4, l4),
                              Opt(Opt(Opt(Opt(out, c1, l1), c2, l2), c3, l3), false, u4), l4)
  {
    if c1 {
      InsertedAtEnd(out, c1, l1, u1);
      var r, b := Opt(out, c1, l1), Opt(out, false, u1);
      InsertedThenMaybe(r, b, l1, c2, l2);
      r, b := Opt(r, c2, l2), Opt(b, c2, l2);
      InsertedThenMaybe(r, b, l1, c3, l3);
      r, b := Opt(r, c3, l3), Opt(b, c3, l3);
      InsertedThenMaybe(r, b, l1, c4, l4);
    }
    if c2 {
      InsertedAtEnd(Opt(out, c1, l1), c2, l2, u2);
      var r, b := Opt(Opt(out, c1, l1), c2, l2), Opt(Opt(out, c1, l1), false, u2);
      InsertedThenMaybe(r, b, l2, c3, l3);
      r, b := Opt(r, c3, l3), Opt(b, c3, l3);
      InsertedThenMaybe(r, b, l2, c4, l4);
    }
    if c3 {
      InsertedAtEnd(Opt(Opt(out, c1, l1), c2, l2), c3, l3, u3);
      var r, b := Opt(Opt(Opt(out, c1, l1), c2, l2), c3, l3), Opt(Opt(Opt(out, c1, l1), c2, l2), false, u3);
      InsertedThenMaybe(r, b, l3, c4, l4);
    }
    if c4 {
      InsertedAtEnd(Opt(Opt(Opt(out, c1, l1), c2, l2), c3, l3), c4, l4, u4);
    }
  }

  /** Setting stage k of a chain of 5 optional lines inserts exactly that
      stage's line into the text written with stage k unset. */
  lemma Chain5Inserted(out: string,
                        c1: bool, l1: string, u1: string,
                        c2: bool, l2: string, u2: string,
                        c3: bool, l3: string, u3: string,
                        c4: bool, l4: string, u4: string,
                        c5: bool, l5: string, u5: string)
    ensures c1 ==> LineInserted(Opt(Opt(Opt(Opt(Opt(out, c1, l1), c2, l2), c3, l3), c4, l4), c5, l5),
                              Opt(Opt(Opt(Opt(Opt(out, false, u1), c2, l2), c3, l3), c4, l4), c5, l5), l1)
    ensures c2 ==> LineInserted(Opt(Opt(Opt(Opt(Opt(out, c1, l1), c2, l2), c3, l3), c4, l4), c5, l5),
                              Opt(Opt(Opt(Opt(Opt(out, c1, l1), false, u2), c3, l3), c4, l4), c5, l5), l2)
    ensures c3 ==> LineInserted(Opt(Opt(Opt(Opt(Opt(out, c1, l1), c2, l2), c3, l3), c4, l4), c5, l5),
                              Opt(Opt(Opt(Opt(Opt(out, c1, l1), c2, l2), false, u3), c4, l4), c5, l5), l3)
    ensures c4 ==> LineInserted(Opt(Opt(Opt(Opt(Opt(out, c1, l1), c2, l2), c3, l3), c4, l4), c5, l5),
                              Opt(Opt(Opt(Opt(Opt(out, c1, l1), c2, l2), c3, l3), false, u4), c5, l5), l4)
    ensures c5 ==> LineInserted(Opt(Opt(Opt(Opt(Opt(out, c1, l1), c2, l2), c3, l3), c4, l4), c5, l5),
                              Opt(Opt(Opt(Opt(Opt(out, c1, l1), c2, l2), c3, l3), c4, l4), false, u5), l5)
  {
    if c1 {
      InsertedAtEnd(out, c1, l1, u1);
      var r, b := Opt(out, c1, l1), Opt(out, false, u1);
      InsertedThenMaybe(r, b, l1, c2, l2);
      r, b := Opt(r, c2, l2), Opt(b, c2, l2);
      InsertedThenMaybe(r, b, l1, c3, l3);
      r, b := Opt(r, c3, l3), Opt(b, c3, l3);
      InsertedThenMaybe(r, b, l1, c4, l4);
      r, b := Opt(r, c4, l4), Opt(b, c4, l4);
      InsertedThenMaybe(r, b, l1, c5, l5);
    }
    if c2 {
      InsertedAtEnd(Opt(out, c1, l1), c2, l2, u2);
      var r, b := Opt(Opt(out, c1, l1), c2, l2), Opt(Opt(out, c1, l1), false, u2);
      InsertedThenMaybe(r, b, l2, c3, l3);
      r, b := Opt(r, c3, l3), Opt(b, c3, l3);
      InsertedThenMaybe(r, b, l2, c4, l4);
      r, b := Opt(r, c4, l4), Opt(b, c4, l4);
      InsertedThenMaybe(r, b, l2, c5, l5);
    }
    if c3 {
      InsertedAtEnd(Opt(Opt(out, c1, l1), c2, l2), c3, l3, u3);
      var r, b := Opt(Opt(Opt(out, c1, l1), c2, l2), c3, l3), Opt(Opt(Opt(out, c1, l1), c2, l2), false, u3);
      InsertedThenMaybe(r, b, l3, c4, l4);
      r, b := Opt(r, c4, l4), Opt(b, c4, l4);
      InsertedThenMaybe(r, b, l3, c5, l5);
    }
    if c4 {
      InsertedAtEnd(Opt(Opt(Opt(out, c1, l1), c2, l2), c3, l3), c4, l4, u4);
      var r, b := Opt(Opt(Opt(Opt(out, c1, l1), c2, l2), c3, l3), c4, l4), Opt(Opt(Opt(Opt(out, c1, l1), c2, l2), c3, l3), false, u4);
      InsertedThenMaybe(r, b, l4, c5, l5);
    }
    if c5 {
      InsertedAtEnd(Opt(Opt(Opt(Opt(out, c1, l1), c2, l2), c3, l3), c4, l4), c5, l5, u5);
    }
  }

  /** Appending keeps a prefix. */
  lemma StartsWithAppend(s: string, prefix: string, extra: string)
    requires StartsWith(s, prefix)
    ensures StartsWith(s + extra, prefix)
  {
    assert (s + extra)[..|prefix|] == s[..|prefix|];
  }

  /** A text starts with its first piece. */
  lemma StartsWithPieces(head: string, x: string, y: string, z: string)
    ensures StartsWith(head + x + y + z, head)
  {
    StartsWithAppend(head, head, x);
    StartsWithAppend(head + x, head, y);
    StartsWithAppend(head + x + y, head, z);
  }

  /** Concatenation regrouped. */
  lemma AppendAssoc(a: string, b: string, c: string)
    ensures a + b + c == a + (b + c)
  {
  }

  /** A text ends with the last two pieces appended to it. */
  lemma EndsWithPieces(s: string, a: string, b: string)
    ensures EndsWith(s + a + b, a + b)
  {
    AppendAssoc(s, a, b);
    assert (s + (a + b))[|s|..] == a + b;
  }

  /** A piece that ends with `e`, followed by `c`, leaves the text ending
      with `e + c`. */
  lemma EndsWithOfPieces(s: string, t: string, e: string, c: string)
    requires EndsWith(t, e)
    ensures EndsWith(s + t + c, e + c)
  {
    var k := |s| + |t| - |e|;
    assert (s + t + c)[k..] == t[|t| - |e|..] + c;
  }

  /** A line placed between two texts is inserted into their concatenation. */
  lemma InsertedBetween(x: string, line: string, y: string)
    ensures LineInserted(x + line + y, x + y, line)
  {
    assert (x + y)[..|x|] == x && (x + y)[|x|..] == y;
  }

  /** A line inserted into one part of a text is inserted into the whole. */
  lemma InsertedInContext(pre: string, r: string, base: string, line: string, post: string)
    requires LineInserted(r, base, line)
    ensures LineInserted(pre + r + post, pre + base + post, line)
  {
    var i :| 0 <= i <= |base| && r == base[..i] + line + base[i..];
    var b := pre + base + post;
    var j := |pre| + i;
    assert b[..j] == pre + base[..i];
    assert b[j..] == base[i..] + post;
    assert pre + r + post == b[..j] + line + b[j..];
  }

  /** Five parts between an opening and a closing, grouped around each
      part in turn. */
  lemma FivePartsRegrouped(o: string, x1: string, x2: string, x3: string, x4: string, x5: string, c: string)
    ensures o + x1 + x2 + x3 + x4 + x5 + c == o + x1 + (x2 + x3 + x4 + x5 + c)
    ensures o + x1 + x2 + x3 + x4 + x5 + c == o + x1 + x2 + (x3 + x4 + x5 + c)
    ensures o + x1 + x2 + x3 + x4 + x5 + c == o + x1 + x2 + x3 + (x4 + x5 + c)
    ensures o + x1 + x2 + x3 + x4 + x5 + c == o + x1 + x2 + x3 + x4 + (x5 + c)
  {
    AppendAssoc(o + x1 + x2 + x3 + x4, x5, c);
    AppendAssoc(o + x1 + x2 + x3, x4, x5 + c);
    AppendAssoc(o + x1 + x2, x3, x4 + (x5 + c));
    AppendAssoc(o + x1, x2, x3 + (x4 + (x5 + c)));
    assert x4 + x5 + c == x4 + (x5 + c);
    assert x3 + x4 + x5 + c == x3 + (x4 + (x5 + c));
    assert x2 + x3 + x4 + x5 + c == x2 + (x3 + (x4 + (x5 + c)));
  }

  /** A part written only in `r` is inserted as a whole. */
  lemma PartInserted(r: string)
    ensures LineInserted(r, "", r)
  {
    assert r == ""[..0] + r + ""[0..];
  }

  /** Being a prefix is transitive. */
  lemma StartsWithTrans(s: string, mid: string, prefix: string)
    requires StartsWith(s, mid) && StartsWith(mid, prefix)
    ensures StartsWith(s, prefix)
  {
    assert s[..|prefix|] == s[..|mid|][..|prefix|];
  }

  /** The total length of the strings of `xs`. */
  function TotalLength(xs: seq<string>): nat
    decreases |xs|
  {
    if xs == [] then 0 else TotalLength(xs[..|xs| - 1]) + |xs[|xs| - 1]|
  }

  /** `xs.join(sep)`: the elements in order, `sep` between neighbours. */
  function Join(xs: seq<string>, sep: string): string
    decreases |xs|
  {
    if xs == [] then ""
    else if |xs| == 1 then xs[0]
    else Join(xs[..|xs| - 1], sep) + sep + xs[|xs| - 1]
  }

  /** A join starts with the first element, ends with the last, and holds
      one separator fewer than elements besides them. */
  lemma {:induction false} JoinShape(xs: seq<string>, sep: string)
    ensures xs == [] ==> Join(xs, sep) == ""
    ensures |xs| > 0 ==> StartsWith(Join(xs, sep), xs[0]) && EndsWith(Join(xs, sep), xs[|xs| - 1])
    ensures |xs| > 0 ==> |Join(xs, sep)| == TotalLength(xs) + (|xs| - 1) * |sep|
    decreases |xs|
  {
    if |xs| == 1 {
      assert xs[..0] == [];
    } else if |xs| > 1 {
      var init := xs[..|xs| - 1];
      var j := Join(init, sep);
      JoinShape(init, sep);
      assert init[0] == xs[0];
      StartsWithAppend(j, xs[0], sep);
      StartsWithAppend(j + sep, xs[0], xs[|xs| - 1]);
      assert (|xs| - 1) * |sep| == (|init| - 1) * |sep| + |sep|;
    }
  }

  /** Removes `suffix` once if `s` ends with it. */
  function TrimSuffix(s: string, suffix: string): (r: string)
    ensures EndsWith(s, suffix) ==> r + suffix == s
    ensures !EndsWith(s, suffix) ==> r == s
  {
    if EndsWith(s, suffix) then s[..|s| - |suffix|] else s
  }

  function DigitChar(d: int): (c: char)
    requires 0 <= d < 10
    ensures c as int - '0' as int == d
  {
    "0123456789"[d]
  }

  /** The number a string of decimal digits denotes, most significant
      digit first. */
  function DecimalValue(s: string): int
    decreases |s|
  {
    if s == [] then 0 else DecimalValue(s[..|s| - 1]) * 10 + (s[|s| - 1] as int - '0' as int)
  }

  /** Decimal rendering of a natural number. */
  function NatToString(n: nat): string
    decreases n
  {
    if n < 10 then [DigitChar(n)] else NatToString(n / 10) + [DigitChar(n % 10)]
  }

  /** Decimal rendering of an integer, with a leading '-' when negative. */
  function IntToString(i: int): string
  {
    if i < 0 then "-" + NatToString(-i) else NatToString(i)
  }

  /** The rendering of a natural number is digits only, without a leading
      zero, and denotes the number. */
  lemma {:induction false} NatToStringDecimal(n: nat)
    ensures |NatToString(n)| > 0 && forall k :: 0 <= k < |NatToString(n)| ==> '0' <= NatToString(n)[k] <= '9'
    ensures NatToString(n)[0] == '0' <==> n == 0
    ensures DecimalValue(NatToString(n)) == n
    decreases n
  {
    if n >= 10 {
      NatToStringDecimal(n / 10);
      var r := NatToString(n);
      assert r[..|r| - 1] == NatToString(n / 10);
    }
  }

  /** The rendering of an integer starts with '-' exactly when it is
      negative, and the digits after the sign denote its magnitude. */
  lemma IntToStringDecimal(i: int)
    ensures |IntToString(i)| > 0 && (IntToString(i)[0] == '-' <==> i < 0)
    ensures i >= 0 ==> DecimalValue(IntToString(i)) == i
    ensures i < 0 ==> DecimalValue(IntToString(i)[1..]) == -i
  {
    if i < 0 {
      NatToStringDecimal(-i);
      assert IntToString(i)[1..] == NatToString(-i);
    } else {
      NatToStringDecimal(i);
    }
  }
}
