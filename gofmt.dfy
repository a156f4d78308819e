/**
  The parts of Go's `fmt` package and string conversions that the subscription
  client's diagnostics depend on. A Go string is a sequence of bytes; here it is a
  `string` whose every character stands for one byte.
 */
module GoFormat {

  /** One byte of a Go `[]byte`. */
  newtype byte = x: int | 0 <= x < 256

  /** Go's conversion `string(b)`: the same bytes, one character each. */
  function Text(b: seq<byte>): (s: string)
    ensures |s| == |b|
    ensures forall i :: 0 <= i < |b| ==> s[i] as int == b[i] as int
  {
    seq(|b|, i requires 0 <= i < |b| => b[i] as int as char)
  }

  /** The decimal digits of `n`, without sign or padding (the `%d` and `%v` form of an unsigned integer). */
  function Decimal(n: nat): (s: string)
    ensures |s| >= 1
    ensures forall i :: 0 <= i < |s| ==> '0' <= s[i] <= '9'
    decreases n
  {
    var d := [(n % 10 + '0' as int) as char];
    if n < 10 then d else Decimal(n / 10) + d
  }

  /** The numbers of `b`, separated by single spaces. */
  function SpacedDecimals(b: seq<byte>): string
  {
    if |b| == 0 then ""
    else if |b| == 1 then Decimal(b[0] as nat)
    else Decimal(b[0] as nat) + " " + SpacedDecimals(b[1..])
  }

  /** How `%v` and `%+v` print a byte slice such as a `json.RawMessage`: `[104 105]`. */
  function FormatBytes(b: seq<byte>): (s: string)
    ensures |s| >= 2 && s[0] == '[' && s[|s| - 1] == ']'
  {
    "[" + SpacedDecimals(b) + "]"
  }

  predicate IsFlag(c: char) {
    c == '#' || c == '0' || c == '+' || c == '-' || c == ' '
  }

  predicate IsDigit(c: char) {
    '0' <= c <= '9'
  }

  /** The index just past the run of flag characters that starts at `i`. */
  function SkipFlags(f: string, i: nat): (j: nat)
    requires i <= |f|
    ensures i <= j <= |f|
    ensures forall k :: i <= k < j ==> IsFlag(f[k])
    ensures j < |f| ==> !IsFlag(f[j])
    decreases |f| - i
  {
    if i < |f| && IsFlag(f[i]) then SkipFlags(f, i + 1) else i
  }

  /**
    Go's `parsenum`: the index just past the decimal number that starts at `i`
    (`num` is the value read so far). A number that grows past one million while
    digits remain makes the parser give up and jump to the end of the format.
   */
  function ParseNum(f: string, i: nat, num: nat): (j: nat)
    requires i <= |f|
    ensures i <= j <= |f|
    decreases |f| - i
  {
    if i < |f| && IsDigit(f[i]) then
      if num > 1000000 then |f| else ParseNum(f, i + 1, num * 10 + (f[i] as int - '0' as int))
    else i
  }

  /**
    One directive of a format string when there are no operands: `start` is the
    index just past its `%`. Returns what the directive prints and where the literal
    text after it resumes. Flags and a numeric width or precision are consumed and
    print nothing; a `*` width or precision prints its BADWIDTH or BADPREC notice;
    the verb `%` prints a percent sign; any other verb prints the MISSING notice; a
    format that ends before the verb prints the NOVERB notice.
   */
  function Directive(f: string, start: nat): (r: (string, nat))
    requires start <= |f|
    ensures start <= r.1 <= |f|
  {
    var width := Width(f, SkipFlags(f, start));
    var precision := Precision(f, width.1);
    var c := precision.1;
    var notices := width.0 + precision.0;
    if c >= |f| then (notices + "%!(NOVERB)", |f|)
    else if f[c] == '%' then (notices + "%", c + 1)
    else (notices + "%!" + [f[c]] + "(MISSING)", c + 1)
  }

  /** The width of a directive, starting at `a`: what it prints and the index after it. */
  function Width(f: string, a: nat): (r: (string, nat))
    requires a <= |f|
    ensures a <= r.1 <= |f|
  {
    if a < |f| && f[a] == '*' then ("%!(BADWIDTH)", a + 1) else ("", ParseNum(f, a, 0))
  }

  /**
    The precision of a directive, starting at `b`: what it prints and the index
    after it. A `.` counts only when some character follows it.
   */
  function Precision(f: string, b: nat): (r: (string, nat))
    requires b <= |f|
    ensures b <= r.1 <= |f|
  {
    if b + 1 < |f| && f[b] == '.' then
      if f[b + 1] == '*' then ("%!(BADPREC)", b + 2) else ("", ParseNum(f, b + 1, 0))
    else ("", b)
  }

  /** What `fmt.Sprintf(f)` prints for the part of `f` from index `i` on. */
  function FormatFrom(f: string, i: nat): string
    requires i <= |f|
    decreases |f| - i
  {
    if i == |f| then ""
    else if f[i] != '%' then [f[i]] + FormatFrom(f, i + 1)
    else
      var (out, j) := Directive(f, i + 1);
      out + FormatFrom(f, j)
  }

  /** `fmt.Sprintf(f)` called with a format and no further arguments. */
  function FormatNoOperands(f: string): string
  {
    FormatFrom(f, 0)
  }

  /** Literal text without `%` prints as itself. */
  lemma {:induction false} FormatFromPercentFree(f: string, i: nat)
    requires i <= |f|
    requires forall k :: i <= k < |f| ==> f[k] != '%'
    ensures FormatFrom(f, i) == f[i..]
    decreases |f| - i
  {
    if i < |f| {
      FormatFromPercentFree(f, i + 1);
      assert f[i..] == [f[i]] + f[i + 1..];
    }
  }

  /** A format string without `%` is printed unchanged. */
  lemma PercentFreeFormatUnchanged(f: string)
    requires '%' !in f
    ensures FormatNoOperands(f) == f
  {
    FormatFromPercentFree(f, 0);
    assert f[0..] == f;
  }

  /** A doubled percent sign prints as one: the text "100%%" prints as "100%". */
  lemma DoublePercentPrintsOne()
    ensures FormatNoOperands("100%%") == "100%"
  {
    var f := "100%%";
    assert f[4] == '%' && !IsFlag(f[4]) && !IsDigit(f[4]);
    assert SkipFlags(f, 4) == 4;
    assert ParseNum(f, 4, 0) == 4;
    assert Width(f, 4) == ("", 4);
    assert Precision(f, 4) == ("", 4);
    assert Directive(f, 4).0 == "%" && Directive(f, 4).1 == 5;
    assert FormatFrom(f, 3) == "%";
    assert FormatFrom(f, 0) == "100%";
  }

  /** A verb with nothing to print prints the MISSING notice: "%d" prints as "%!d(MISSING)". */
  lemma VerbWithoutOperandPrintsMissing()
    ensures FormatNoOperands("%d") == "%!d(MISSING)"
  {
  }
}
