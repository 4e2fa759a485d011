/**
 * The SQL builder: a text buffer and a parameter list that grow together.
 * Every operation appends a fragment to both buffers (binding operations add
 * one `?` per value, raw text adds none), and a position captured earlier can
 * roll both buffers back at once.
 */
module Builder {
  import opened SafeSqlCore

  /** A Java `byte`: signed, eight bits. */
  type Byte = b: int | -128 <= b < 128

  /** A Java `int`. */
  type Int32 = i: int | -0x8000_0000 <= i < 0x8000_0000

  /** A Java `long`. */
  type Int64 = i: int | -0x8000_0000_0000_0000 <= i < 0x8000_0000_0000_0000

  /** A checkpoint: the text length and the parameter count at one moment. */
  datatype Position = Position(sqlPosition: nat, paramPosition: nat)

  /** The digits written by the byte-literal encoder, indexed by nibble. */
  const HexCode: string := "0123456789ABCDEF"

  // ---------------------------------------------------------------------
  // Binding several values
  // ---------------------------------------------------------------------

  /** One bound placeholder per value, in order. */
  function Binds(xs: seq<Value>): (r: seq<SafeSql>)
    ensures |r| == |xs|
    ensures forall i :: 0 <= i < |xs| ==> r[i] == Bind(xs[i])
  {
    seq(|xs|, i requires 0 <= i < |xs| => Bind(xs[i]))
  }

  /** Binding each value on its own binds, all together, exactly the values in their order. */
  lemma {:induction false} BindsParameters(xs: seq<Value>)
    ensures AllParameters(Binds(xs)) == xs
    ensures forall i :: 0 <= i < |xs| ==> Aligned(Binds(xs)[i])
    decreases |xs|
  {
    if |xs| > 0 {
      var n := |xs| - 1;
      assert Binds(xs)[..n] == Binds(xs[..n]);
      BindsParameters(xs[..n]);
      assert xs[..n] + [xs[n]] == xs;
    }
  }

  /** What binding `xs` with `delimiter` between them appends. */
  function ParamsFragment(delimiter: SafeSql, xs: seq<Value>): SafeSql
  {
    Join(delimiter, Binds(xs))
  }

  /** Binding one more value adds the delimiter (unless it is the first value) and its placeholder. */
  lemma ParamsFragmentSnoc(delimiter: SafeSql, xs: seq<Value>, x: Value)
    ensures ParamsFragment(delimiter, xs + [x]) ==
      if xs == [] then Bind(x) else Concat(Concat(ParamsFragment(delimiter, xs), delimiter), Bind(x))
  {
    var b := Binds(xs + [x]);
    assert b[..|b| - 1] == Binds(xs);
    assert b[|b| - 1] == Bind(x);
  }

  /** The step of a binding loop: the fragment for the first i + 1 values from the one for the first i. */
  lemma ParamsFragmentStep(delimiter: SafeSql, xs: seq<Value>, i: nat)
    requires i < |xs|
    ensures ParamsFragment(delimiter, xs[..i + 1]) ==
      if i == 0 then Bind(xs[i]) else Concat(Concat(ParamsFragment(delimiter, xs[..i]), delimiter), Bind(xs[i]))
  {
    assert xs[..i + 1] == xs[..i] + [xs[i]];
    ParamsFragmentSnoc(delimiter, xs[..i], xs[i]);
  }

  /** No values append nothing; one value appends exactly what binding it alone appends. */
  lemma ParamsFragmentSmallCases(delimiter: SafeSql, x: Value)
    ensures ParamsFragment(delimiter, []) == Empty
    ensures ParamsFragment(delimiter, [x]) == Bind(x)
  {
  }

  /** `n` markers with `delimiter` between consecutive ones: `?, ?, ?` for three values. */
  function Placeholders(delimiter: string, n: nat): string
  {
    if n == 0 then "" else if n == 1 then "?" else Placeholders(delimiter, n - 1) + delimiter + "?"
  }

  /** With a text delimiter the parameters are the values themselves, in order, and the text is the marker list. */
  lemma {:induction false} ParamsWithTextDelimiter(delimiter: string, xs: seq<Value>)
    ensures ParamsFragment(Constant(delimiter), xs) == SafeSql(Placeholders(delimiter, |xs|), xs)
    decreases |xs|
  {
    if xs != [] {
      var n := |xs| - 1;
      var front := xs[..n];
      assert xs == front + [xs[n]];
      ParamsFragmentSnoc(Constant(delimiter), front, xs[n]);
      ParamsWithTextDelimiter(delimiter, front);
    }
  }

  /**
   * The marker list starts and ends with a marker (the delimiter never comes
   * first or last), has length n + (n - 1) * |delimiter|, and holds exactly
   * n markers when the delimiter holds none.
   */
  lemma {:induction false} PlaceholdersShape(delimiter: string, n: nat)
    requires n >= 1
    ensures |Placeholders(delimiter, n)| == n + (n - 1) * |delimiter|
    ensures Placeholders(delimiter, n)[0] == '?'
    ensures Placeholders(delimiter, n)[|Placeholders(delimiter, n)| - 1] == '?'
    ensures '?' !in delimiter ==> Markers(Placeholders(delimiter, n)) == n
  {
    PlaceholdersText(delimiter, n);
    if '?' !in delimiter {
      PlaceholdersMarkers(delimiter, n);
    }
  }

  lemma {:induction false} PlaceholdersText(delimiter: string, n: nat)
    requires n >= 1
    ensures |Placeholders(delimiter, n)| == n + (n - 1) * |delimiter|
    ensures Placeholders(delimiter, n)[0] == '?'
    ensures Placeholders(delimiter, n)[|Placeholders(delimiter, n)| - 1] == '?'
  {
    if n > 1 {
      PlaceholdersText(delimiter, n - 1);
      var p := Placeholders(delimiter, n - 1);
      assert Placeholders(delimiter, n) == p + delimiter + "?";
      assert (p + delimiter + "?")[0] == p[0];
    }
  }

  lemma {:induction false} PlaceholdersMarkers(delimiter: string, n: nat)
    requires '?' !in delimiter
    ensures Markers(Placeholders(delimiter, n)) == n
  {
    if n == 1 {
      assert Markers("?") == Markers("") + 1;
    } else if n > 1 {
      PlaceholdersMarkers(delimiter, n - 1);
      var p := Placeholders(delimiter, n - 1);
      assert Placeholders(delimiter, n) == p + delimiter + "?";
      MarkersAppend(p + delimiter, "?");
      MarkersAppend(p, delimiter);
      NoMarkers(delimiter);
      assert Markers("?") == Markers("") + 1;
    }
  }

  /** Binding values keeps a fragment aligned whenever the delimiter is. */
  lemma ParamsFragmentAligned(delimiter: SafeSql, xs: seq<Value>)
    requires Aligned(delimiter)
    ensures Aligned(ParamsFragment(delimiter, xs))
  {
    JoinAligned(delimiter, Binds(xs));
  }

  // ---------------------------------------------------------------------
  // Checkpoint and rollback
  // ---------------------------------------------------------------------

  /** The position at the end of a fragment. */
  function LengthOf(s: SafeSql): Position
  {
    Position(|s.sql|, |s.parameters|)
  }

  /** `n` NUL characters, what a Java text buffer pads with when lengthened. */
  function Nuls(n: nat): string
  {
    seq(n, _ => '\0')
  }

  /**
   * The state after rolling `s` back to `p`: the text cut (or NUL-padded) to
   * `p.sqlPosition` characters, the parameters cut to `p.paramPosition`
   * entries when there are more.
   */
  function Truncate(s: SafeSql, p: Position): SafeSql
  {
    var sql := if p.sqlPosition <= |s.sql| then s.sql[..p.sqlPosition] else s.sql + Nuls(p.sqlPosition - |s.sql|);
    var parameters := if p.paramPosition < |s.parameters| then s.parameters[..p.paramPosition] else s.parameters;
    SafeSql(sql, parameters)
  }

  /** Rolling back to the current position changes nothing. */
  lemma RollbackToCurrentIsNoOp(s: SafeSql)
    ensures Truncate(s, LengthOf(s)) == s
  {
  }

  /** Rolling back to a checkpoint removes exactly what was appended since, from both buffers. */
  lemma RollbackUndoesAppends(s: SafeSql, appended: SafeSql)
    ensures Truncate(Concat(s, appended), LengthOf(s)) == s
  {
    assert (s.sql + appended.sql)[..|s.sql|] == s.sql;
    assert (s.parameters + appended.parameters)[..|s.parameters|] == s.parameters;
  }

  /** Rolling back never lengthens the parameter list and never changes a kept parameter. */
  lemma RollbackKeepsPrefix(s: SafeSql, p: Position)
    ensures |Truncate(s, p).parameters| == if p.paramPosition < |s.parameters| then p.paramPosition else |s.parameters|
    ensures Truncate(s, p).parameters <= s.parameters
    ensures |Truncate(s, p).sql| == p.sqlPosition
    ensures p.sqlPosition <= |s.sql| ==> Truncate(s, p).sql <= s.sql
    ensures p.sqlPosition > |s.sql| ==>
      s.sql <= Truncate(s, p).sql && forall i :: |s.sql| <= i < p.sqlPosition ==> Truncate(s, p).sql[i] == '\0'
  {
  }

  /** What the corrected `append(other, after)` appends: everything `other` holds beyond `after`. */
  function Since(other: SafeSql, after: Position): SafeSql
    requires after.sqlPosition <= |other.sql| && after.paramPosition <= |other.parameters|
  {
    SafeSql(other.sql[after.sqlPosition..], other.parameters[after.paramPosition..])
  }

  /** Splicing from a checkpoint of a scratch builder transfers exactly what it gained since that checkpoint. */
  lemma SinceIsDelta(base: SafeSql, delta: SafeSql)
    ensures Since(Concat(base, delta), LengthOf(base)) == delta
  {
    assert (base.sql + delta.sql)[|base.sql|..] == delta.sql;
    assert (base.parameters + delta.parameters)[|base.parameters|..] == delta.parameters;
  }

  /** Outcome of the as-written splice: it may throw after the text was already appended. */
  datatype SpliceOutcome = Done(state: SafeSql) | Thrown(state: SafeSql)

  /**
   * The splice `append(other, after)` as written: the text from
   * `after.sqlPosition` on, then the parameter sub-list from
   * `after.paramPosition` to `size - after.paramPosition` (an index used
   * where a length was meant). A start index beyond the end of the text, or
   * a sub-list whose start is past its end, throws.
   */
  function SpliceAsWritten(target: SafeSql, other: SafeSql, after: Position): SpliceOutcome
  {
    if after.sqlPosition > |other.sql| then Thrown(target)
    else
      var sql := target.sql + other.sql[after.sqlPosition..];
      var to: int := |other.parameters| - after.paramPosition;
      if after.paramPosition > to then Thrown(SafeSql(sql, target.parameters))
      else Done(SafeSql(sql, target.parameters + other.parameters[after.paramPosition..to]))
  }

  /** With a checkpoint after one bound value and two values bound since, the as-written splice drops the last value. */
  lemma SpliceAsWrittenDropsParameters(a: Value, b: Value, c: Value)
    ensures var base, delta := Bind(a), SafeSql("?, ?", [b, c]);
      && Aligned(delta)
      && SpliceAsWritten(Empty, Concat(base, delta), LengthOf(base)) == Done(SafeSql("?, ?", [b]))
      && !Aligned(SpliceAsWritten(Empty, Concat(base, delta), LengthOf(base)).state)
      && Since(Concat(base, delta), LengthOf(base)) == delta
  {
    var base, delta := Bind(a), SafeSql("?, ?", [b, c]);
    assert Markers("?, ?") == 2 by {
      assert "?, ?" == "?, " + "?";
      MarkersAppend("?, ", "?");
      assert "?, " == "?" + ", ";
      MarkersAppend("?", ", ");
      NoMarkers(", ");
    }
    SinceIsDelta(base, delta);
    assert Concat(base, delta).sql[1..] == "?, ?";
    assert Concat(base, delta).parameters[1..2] == [b];
  }

  /** With a checkpoint after two bound values and one bound since, the as-written splice throws. */
  lemma SpliceAsWrittenThrows(a: Value, b: Value, c: Value)
    ensures var base, delta := SafeSql("?, ?", [a, b]), Bind(c);
      SpliceAsWritten(Empty, Concat(base, delta), LengthOf(base)).Thrown?
  {
  }

  // ---------------------------------------------------------------------
  // Raw text: numbers, identifiers, byte literals
  // ---------------------------------------------------------------------

  /** Decimal digits of a natural number, most significant first. */
  function Digits(n: nat): string
    decreases n
  {
    if n < 10 then ["0123456789"[n]] else Digits(n / 10) + ["0123456789"[n % 10]]
  }

  /** The text Java writes for an integer: a minus sign for negatives, then the digits. */
  function DecimalString(i: int): string
  {
    if i < 0 then "-" + Digits(-i) else Digits(i)
  }

  function DigitValue(c: char): Option<nat>
  {
    if '0' <= c <= '9' then Some(c as int - '0' as int) else None
  }

  /** Reads back a non-empty run of decimal digits. */
  function ParseDigits(s: string): Option<nat>
  {
    if |s| == 0 then None
    else if |s| == 1 then DigitValue(s[0])
    else match (ParseDigits(s[..|s| - 1]), DigitValue(s[|s| - 1]))
      case (Some(high), Some(low)) => Some(10 * high + low)
      case _ => None
  }

  /** Reads back an optionally negative decimal integer. */
  function ParseDecimal(s: string): Option<int>
  {
    if |s| > 0 && s[0] == '-' then
      var magnitude := ParseDigits(s[1..]);
      if magnitude.Some? then Some(-(magnitude.value as int)) else None
    else
      var magnitude := ParseDigits(s);
      if magnitude.Some? then Some(magnitude.value as int) else None
  }

  lemma DigitChar(k: nat)
    requires k < 10
    ensures '0' <= "0123456789"[k] <= '9'
    ensures DigitValue("0123456789"[k]) == Some(k)
  {
  }

  /** The decimal digits of a natural number: at least one, and only digit characters. */
  lemma {:induction false} DigitsShape(n: nat)
    ensures |Digits(n)| >= 1
    ensures forall c :: c in Digits(n) ==> '0' <= c <= '9'
    decreases n
  {
    DigitChar(n % 10);
    if n >= 10 {
      DigitsShape(n / 10);
      assert Digits(n) == Digits(n / 10) + ["0123456789"[n % 10]];
    }
  }

  lemma {:induction false} DigitsRoundTrip(n: nat)
    ensures ParseDigits(Digits(n)) == Some(n)
    decreases n
  {
    if n >= 10 {
      DigitsRoundTrip(n / 10);
      DigitsShape(n / 10);
      var front, last := Digits(n / 10), "0123456789"[n % 10];
      var d := front + [last];
      assert d[..|d| - 1] == front;
      DigitChar(n % 10);
      assert ParseDigits(d) == Some(10 * (n / 10) + n % 10);
    } else {
      DigitChar(n);
    }
  }

  lemma DecimalParses(i: int)
    ensures ParseDecimal(DecimalString(i)) == Some(i)
  {
    var m: nat := if i < 0 then -i else i;
    DigitsShape(m);
    DigitsRoundTrip(m);
    if i < 0 {
      ParseNegative(Digits(m), m);
    } else {
      assert Digits(m)[0] in Digits(m);
      ParseNonNegative(Digits(m), m);
    }
  }

  lemma ParseNegative(d: string, m: nat)
    requires ParseDigits(d) == Some(m)
    ensures ParseDecimal("-" + d) == Some(-(m as int))
  {
    assert ("-" + d)[1..] == d;
  }

  lemma ParseNonNegative(d: string, m: nat)
    requires |d| >= 1 && '0' <= d[0] <= '9'
    requires ParseDigits(d) == Some(m)
    ensures ParseDecimal(d) == Some(m)
  {
  }

  lemma DecimalHasNoMarkers(i: int)
    ensures Markers(DecimalString(i)) == 0
  {
    var d := if i < 0 then Digits(-i) else Digits(i);
    DigitsShape(if i < 0 then -i else i);
    assert DecimalString(i) == if i < 0 then "-" + d else d;
    assert forall c :: c in DecimalString(i) ==> c == '-' || c in d;
    NoMarkers(DecimalString(i));
  }

  /** The decimal text of an integer reads back as that integer and holds no marker. */
  lemma DecimalRoundTrip(i: int)
    ensures ParseDecimal(DecimalString(i)) == Some(i)
    ensures Markers(DecimalString(i)) == 0
  {
    DecimalParses(i);
    DecimalHasNoMarkers(i);
  }

  /** The escaped name, qualified by its escaped container when there is one. */
  function QualifiedName(container: Option<string>, identifier: string): string
  {
    match container
    case None => MayEscapeIdentifier(identifier)
    case Some(c) => MayEscapeIdentifier(c) + "." + MayEscapeIdentifier(identifier)
  }

  /** `(b >> 4) & 0xF` on a Java byte: the arithmetic shift is floor division by 16, the mask a remainder. */
  function HighNibble(b: Byte): (n: nat)
    ensures n < 16
  {
    (b / 16) % 16
  }

  /** `b & 0xF` on a Java byte. */
  function LowNibble(b: Byte): (n: nat)
    ensures n < 16
  {
    b % 16
  }

  /** Two uppercase hex digits per byte, high nibble first. */
  function HexDigits(bytes: seq<Byte>): string
  {
    if |bytes| == 0 then ""
    else
      var b := bytes[|bytes| - 1];
      HexDigits(bytes[..|bytes| - 1]) + [HexCode[HighNibble(b)], HexCode[LowNibble(b)]]
  }

  /** The PostgreSQL hex-format bytea literal: `'\x`, the hex digits, `'`. */
  function ByteaLiteral(bytes: seq<Byte>): string
  {
    "'\\x" + HexDigits(bytes) + "'"
  }

  function HexValue(c: char): (r: Option<nat>)
    ensures r.Some? ==> r.value < 16
  {
    if '0' <= c <= '9' then Some(c as int - '0' as int)
    else if 'A' <= c <= 'F' then Some(c as int - 'A' as int + 10)
    else if 'a' <= c <= 'f' then Some(c as int - 'a' as int + 10)
    else None
  }

  /** The signed byte whose unsigned value is `v`. */
  function Signed(v: nat): Byte
    requires v < 256
  {
    if v < 128 then v else v - 256
  }

  /** Reads pairs of hex digits back into bytes. */
  function DecodeHexDigits(h: string): Option<seq<Byte>>
    decreases |h|
  {
    if |h| == 0 then Some([])
    else if |h| == 1 then None
    else match (DecodeHexDigits(h[..|h| - 2]), HexValue(h[|h| - 2]), HexValue(h[|h| - 1]))
      case (Some(front), Some(high), Some(low)) => Some(front + [Signed(16 * high + low)])
      case _ => None
  }

  /** Reads a hex-format bytea literal back into bytes. */
  function DecodeBytea(s: string): Option<seq<Byte>>
  {
    if |s| >= 4 && s[..3] == "'\\x" && s[|s| - 1] == '\'' then DecodeHexDigits(s[3..|s| - 1]) else None
  }

  lemma NibblesRecombine(b: Byte)
    ensures Signed(16 * HighNibble(b) + LowNibble(b)) == b
  {
    var q, r := b / 16, b % 16;
    assert b == 16 * q + r;
    assert -8 <= q < 8;
    if q < 0 {
      assert HighNibble(b) == q + 16;
    } else {
      assert HighNibble(b) == q;
    }
  }

  lemma HexCodeValue(n: nat)
    requires n < 16
    ensures HexValue(HexCode[n]) == Some(n)
  {
  }

  /** Encoding one more byte appends its two digits. */
  lemma HexDigitsSnoc(bytes: seq<Byte>, i: nat)
    requires i < |bytes|
    ensures HexDigits(bytes[..i + 1]) == HexDigits(bytes[..i]) + [HexCode[HighNibble(bytes[i])], HexCode[LowNibble(bytes[i])]]
  {
    assert bytes[..i + 1][..i] == bytes[..i];
  }

  lemma {:induction false} HexDigitsShape(bytes: seq<Byte>)
    ensures |HexDigits(bytes)| == 2 * |bytes|
    ensures '?' !in HexDigits(bytes)
    decreases |bytes|
  {
    if |bytes| > 0 {
      HexDigitsShape(bytes[..|bytes| - 1]);
    }
  }

  /** Decoding undoes the encoding of the last byte. */
  lemma DecodeLastPair(front: string, b: Byte, decodedFront: seq<Byte>)
    requires DecodeHexDigits(front) == Some(decodedFront)
    ensures DecodeHexDigits(front + [HexCode[HighNibble(b)], HexCode[LowNibble(b)]]) == Some(decodedFront + [b])
  {
    var high, low := HexCode[HighNibble(b)], HexCode[LowNibble(b)];
    var h := front + [high, low];
    assert h[..|h| - 2] == front;
    assert h[|h| - 2] == high && h[|h| - 1] == low;
    HexCodeValue(HighNibble(b));
    HexCodeValue(LowNibble(b));
    NibblesRecombine(b);
  }

  lemma {:induction false} HexDigitsRoundTrip(bytes: seq<Byte>)
    ensures DecodeHexDigits(HexDigits(bytes)) == Some(bytes)
    decreases |bytes|
  {
    if |bytes| > 0 {
      var n := |bytes| - 1;
      HexDigitsRoundTrip(bytes[..n]);
      DecodeLastPair(HexDigits(bytes[..n]), bytes[n], bytes[..n]);
      assert bytes[..n] + [bytes[n]] == bytes;
    }
  }

  /** The byte literal is 4 + 2n characters, holds no marker, and decodes back to the bytes. */
  lemma ByteaLiteralRoundTrip(bytes: seq<Byte>)
    ensures |ByteaLiteral(bytes)| == 4 + 2 * |bytes|
    ensures Markers(ByteaLiteral(bytes)) == 0
    ensures DecodeBytea(ByteaLiteral(bytes)) == Some(bytes)
  {
    HexDigitsShape(bytes);
    HexDigitsRoundTrip(bytes);
    var s := ByteaLiteral(bytes);
    assert s[..3] == "'\\x";
    assert s[3..|s| - 1] == HexDigits(bytes);
    assert '?' !in s;
    NoMarkers(s);
  }

  // ---------------------------------------------------------------------
  // The builder
  // ---------------------------------------------------------------------

  class SafeSqlBuilder {
    /** The SQL text written so far. */
    var text: string
    /** The values bound so far, in placeholder order. */
    var params: seq<Value>

    ghost function State(): SafeSql
      reads this
    {
      SafeSql(text, params)
    }

    /** A builder over the caller's text and parameter buffers: it starts with whatever they already hold. */
    constructor (text0: string, params0: seq<Value>)
      ensures text == text0 && params == params0
    {
      text := text0;
      params := params0;
    }

    /** Every `param` overload: one marker, one value at the end of the parameters. */
    method Param(x: Value)
      modifies this
      ensures text == old(text) + "?" && params == old(params) + [x]
    {
      text := text + "?";
      params := params + [x];
    }

    /** Raw text; binds nothing. */
    method Append(s: string)
      modifies this
      ensures text == old(text) + s && params == old(params)
    {
      text := text + s;
    }

    method AppendChar(ch: char)
      modifies this
      ensures text == old(text) + [ch] && params == old(params)
    {
      text := text + [ch];
    }

    method AppendInt(i: Int32)
      modifies this
      ensures text == old(text) + DecimalString(i) && params == old(params)
    {
      text := text + DecimalString(i);
    }

    method AppendLong(l: Int64)
      modifies this
      ensures text == old(text) + DecimalString(l) && params == old(params)
    {
      text := text + DecimalString(l);
    }

    /** Splices a finished fragment: its text, then all its parameters in order. */
    method AppendSafeSql(s: SafeSql)
      modifies this
      ensures text == old(text) + s.sql && params == old(params) + s.parameters
    {
      text := text + s.sql;
      params := params + s.parameters;
    }

    /** Appends everything another builder holds; `other` may be this builder, which then doubles. */
    method AppendBuilder(other: SafeSqlBuilder)
      modifies this
      ensures text == old(text) + old(other.text) && params == old(params) + old(other.params)
    {
      var otherText, otherParams := other.text, other.params;
      text := text + otherText;
      params := params + otherParams;
    }

    /** Writes this builder's content into `target`. */
    method AppendTo(target: SafeSqlBuilder)
      modifies target
      ensures target.text == old(target.text) + old(text)
      ensures target.params == old(target.params) + old(params)
    {
      target.AppendBuilder(this);
    }

    /** `params(Object...)`: the values separated by `", "`; none writes nothing. */
    method Params(xs: seq<Value>)
      modifies this
      ensures text == old(text) + ParamsFragment(ListDelimiter, xs).sql
      ensures params == old(params) + ParamsFragment(ListDelimiter, xs).parameters
    {
      var separator := ListDelimiter;
      if |xs| == 1 {
        Param(xs[0]);
        ParamsFragmentSmallCases(separator, xs[0]);
      } else if |xs| != 0 {
        var i := 0;
        while i < |xs|
          invariant 0 <= i <= |xs|
          invariant text == old(text) + ParamsFragment(separator, xs[..i]).sql
          invariant params == old(params) + ParamsFragment(separator, xs[..i]).parameters
        {
          ParamsFragmentSnoc(separator, xs[..i], xs[i]);
          assert xs[..i + 1] == xs[..i] + [xs[i]];
          if i > 0 {
            Append(ListSeparator);
          }
          Param(xs[i]);
          i := i + 1;
        }
        assert xs[..i] == xs;
      }
    }

    /** The values of a sequence, `delimiter` between consecutive ones only. */
    method ParamsIterator(delimiter: string, xs: seq<Value>)
      modifies this
      ensures text == old(text) + ParamsFragment(Constant(delimiter), xs).sql
      ensures params == old(params) + ParamsFragment(Constant(delimiter), xs).parameters
    {
      var first := true;
      var i := 0;
      ghost var done := Empty;
      while i < |xs|
        invariant 0 <= i <= |xs|
        invariant first <==> i == 0
        invariant done == ParamsFragment(Constant(delimiter), xs[..i])
        invariant text == old(text) + done.sql && params == old(params) + done.parameters
      {
        ParamsFragmentStep(Constant(delimiter), xs, i);
        if first {
          first := false;
          done := Bind(xs[i]);
        } else {
          Append(delimiter);
          done := Concat(Concat(done, Constant(delimiter)), Bind(xs[i]));
        }
        Param(xs[i]);
        i := i + 1;
      }
      assert xs[..i] == xs;
    }

    /** The same with a fragment as delimiter, whose own parameters are bound at each separation. */
    method ParamsIteratorSafeSql(delimiter: SafeSql, xs: seq<Value>)
      modifies this
      ensures text == old(text) + ParamsFragment(delimiter, xs).sql
      ensures params == old(params) + ParamsFragment(delimiter, xs).parameters
    {
      var first := true;
      var i := 0;
      ghost var done := Empty;
      while i < |xs|
        invariant 0 <= i <= |xs|
        invariant first <==> i == 0
        invariant done == ParamsFragment(delimiter, xs[..i])
        invariant text == old(text) + done.sql && params == old(params) + done.parameters
      {
        ParamsFragmentStep(delimiter, xs, i);
        if first {
          first := false;
          done := Bind(xs[i]);
        } else {
          AppendSafeSql(delimiter);
          done := Concat(Concat(done, delimiter), Bind(xs[i]));
        }
        Param(xs[i]);
        i := i + 1;
      }
      assert xs[..i] == xs;
    }

    /** `params(Iterable)`: the values separated by `", "`. */
    method ParamsIterable(xs: seq<Value>)
      modifies this
      ensures text == old(text) + ParamsFragment(ListDelimiter, xs).sql
      ensures params == old(params) + ParamsFragment(ListDelimiter, xs).parameters
    {
      ParamsIterator(ListSeparator, xs);
    }

    /** The deprecated prefix/suffix form: prefix and suffix are written even when there are no values. */
    method ParamsWithAffixes(delimiter: string, prefix: string, suffix: string, xs: seq<Value>)
      modifies this
      ensures text == old(text) + prefix + Placeholders(delimiter, |xs|) + suffix
      ensures params == old(params) + xs
    {
      Append(prefix);
      ParamsIterator(delimiter, xs);
      Append(suffix);
      ParamsWithTextDelimiter(delimiter, xs);
    }

    /** A string literal through the dialect's string escaping. */
    method Literal(s: string)
      modifies this
      ensures text == old(text) + EscapeString(s) && params == old(params)
    {
      text := text + EscapeString(s);
    }

    /** A bytea literal in PostgreSQL hex format; binds nothing. */
    method LiteralBytes(bytes: seq<Byte>)
      modifies this
      ensures text == old(text) + ByteaLiteral(bytes) && params == old(params)
    {
      text := text + "'\\x";
      ghost var start := text;
      var i := 0;
      while i < |bytes|
        invariant 0 <= i <= |bytes|
        invariant params == old(params)
        invariant text == start + HexDigits(bytes[..i])
      {
        HexDigitsSnoc(bytes, i);
        text := text + [HexCode[HighNibble(bytes[i])]];
        text := text + [HexCode[LowNibble(bytes[i])]];
        i := i + 1;
      }
      assert bytes[..i] == bytes;
      text := text + "'";
    }

    /** An identifier through the dialect's identifier escaping. */
    method Identifier(identifier: string)
      modifies this
      ensures text == old(text) + MayEscapeIdentifier(identifier) && params == old(params)
    {
      text := text + MayEscapeIdentifier(identifier);
    }

    /** A qualified identifier; a missing container gives the plain identifier. */
    method QualifiedIdentifier(container: Option<string>, identifier: string)
      modifies this
      ensures text == old(text) + QualifiedName(container, identifier) && params == old(params)
    {
      match container
      case None =>
        Identifier(identifier);
      case Some(c) =>
        text := text + MayEscapeIdentifier(c) + "." + MayEscapeIdentifier(identifier);
    }

    /** The joiner: prefix, items separated by the delimiter, suffix. */
    method JoinedSqlizables(delimiter: SafeSql, prefix: SafeSql, suffix: SafeSql, items: seq<SafeSql>)
      requires items != [] || (prefix == Empty && suffix == Empty)
      modifies this
      ensures text == old(text) + Joined(delimiter, prefix, suffix, items).sql
      ensures params == old(params) + Joined(delimiter, prefix, suffix, items).parameters
    {
      var joined := Joined(delimiter, prefix, suffix, items);
      text := text + joined.sql;
      params := params + joined.parameters;
    }

    /** A snapshot; the builder stays usable. */
    method ToSafeSql() returns (r: SafeSql)
      ensures r == State()
    {
      r := SafeSql(text, params);
    }

    method IsEmpty() returns (r: bool)
      ensures r <==> State() == Empty
    {
      r := |text| == 0 && |params| == 0;
    }

    /** The checkpoint of the current state. */
    method GetLength() returns (p: Position)
      ensures p == LengthOf(State())
    {
      p := Position(|text|, |params|);
    }

    /** Rolls both buffers back to `p`. */
    method SetLength(p: Position)
      modifies this
      ensures State() == Truncate(old(State()), p)
    {
      if p.sqlPosition <= |text| {
        text := text[..p.sqlPosition];
      } else {
        text := text + Nuls(p.sqlPosition - |text|);
      }
      var currentSize := |params|;
      if p.paramPosition < currentSize {
        params := params[..p.paramPosition];
      }
    }

    /** `append(other, after)` as written; `thrown` reports the exception the sub-list bounds raise. */
    method AppendSinceAsWritten(other: SafeSqlBuilder, after: Position) returns (thrown: bool)
      modifies this
      ensures thrown == SpliceAsWritten(old(State()), old(other.State()), after).Thrown?
      ensures State() == SpliceAsWritten(old(State()), old(other.State()), after).state
    {
      var otherText, otherParams := other.text, other.params;
      if after.sqlPosition > |otherText| {
        return true;
      }
      text := text + otherText[after.sqlPosition..];
      var afterLength := after.paramPosition;
      var to := |otherParams| - afterLength;
      if afterLength > to {
        return true;
      }
      params := params + otherParams[afterLength..to];
      thrown := false;
    }

    /** `append(other, after)` as intended: what `other` gained after the checkpoint `after`. */
    method AppendSince(other: SafeSqlBuilder, after: Position)
      requires after.sqlPosition <= |other.text| && after.paramPosition <= |other.params|
      modifies this
      ensures text == old(text) + Since(old(other.State()), after).sql
      ensures params == old(params) + Since(old(other.State()), after).parameters
    {
      var otherText, otherParams := other.text, other.params;
      text := text + otherText[after.sqlPosition..];
      params := params + otherParams[after.paramPosition..];
    }
  }
}
