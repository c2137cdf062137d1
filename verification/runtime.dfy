/** The `Runtime` JSON codec: a film length in minutes, an `int32`, travels as the
    JSON string `"<n> mins"`. */
module RuntimeCodec {
  import opened Wrappers
  import opened Decimal
  import opened Quoting
  import Text

  type Runtime = Int32

  /** The single error every decoding failure reports. */
  const ErrInvalidRuntimeFormat: string := "invalid runtime format"

  const Unit: string := " mins"

  /** `MarshalJSON`: never fails, and yields `<n> mins` between double quotes. */
  function MarshalJSON(r: Runtime): (out: Result<string, string>)
    ensures out.Success?
    ensures out.value == "\"" + FormatInt(r) + " mins\""
  {
    var text := FormatInt(r) + Unit;
    assert forall i :: 0 <= i < |text| ==> Plain(text[i]) by {
      forall i | 0 <= i < |text| ensures Plain(text[i]) {
        if i < |FormatInt(r)| {
          assert IsDigit(text[i]) || text[i] == '-';
        } else {
          assert text[i] in Unit;
        }
      }
    }
    Success(Quote(text))
  }

  /** The decoded text ends in a single space and the unit. */
  predicate EndsWithUnit(u: string) {
    |u| >= |Unit| && u[|u| - |Unit|..] == Unit
  }

  /** What precedes the unit. */
  function NumberPart(u: string): string
    requires EndsWithUnit(u)
  {
    u[..|u| - |Unit|]
  }

  /** The inputs `UnmarshalJSON` accepts, stated without `strings.Split`: a Go string
      literal whose text is a base-10 `int32` numeral, one space and `mins`. */
  predicate Accepted(json: string) {
    && Unquote(json).Some?
    && EndsWithUnit(Unquote(json).value)
    && ' ' !in NumberPart(Unquote(json).value)
    && ParseInt(NumberPart(Unquote(json).value), Bits32).Some?
  }

  /** The receiver after the call, and the error returned, if any. */
  datatype Decoded = Decoded(runtime: Runtime, err: Option<string>)

  /** `strings.Split(u, " ")` has exactly the two parts `[n, "mins"]` precisely when `u`
      is `n + " mins"` with no space inside `n`. */
  lemma SplitMins(u: string)
    ensures (|Text.Split(u, ' ')| == 2 && Text.Split(u, ' ')[1] == "mins")
        <==> (EndsWithUnit(u) && ' ' !in NumberPart(u))
    ensures |Text.Split(u, ' ')| == 2 && Text.Split(u, ' ')[1] == "mins"
        ==> Text.Split(u, ' ')[0] == NumberPart(u)
  {
    var parts := Text.Split(u, ' ');
    if |parts| == 2 && parts[1] == "mins" {
      Text.SplitPairInverse(u, ' ');
      assert u == parts[0] + Unit;
      assert u[..|u| - |Unit|] == parts[0];
    }
    if EndsWithUnit(u) && ' ' !in NumberPart(u) {
      assert u == NumberPart(u) + [' '] + "mins";
      Text.SplitPair(NumberPart(u), "mins", ' ');
    }
  }

  /** `UnmarshalJSON`: unquote, split on single spaces, require exactly `[n, "mins"]`,
      parse `n` as a base-10 `int32`. The receiver is assigned only when every step
      succeeds; every failure returns the same sentinel and leaves it as it was. */
  function UnmarshalJSON(recv: Runtime, json: string): (d: Decoded)
    ensures d.err.Some? ==> d.err.value == ErrInvalidRuntimeFormat && d.runtime == recv
    ensures d.err.None? <==> Accepted(json)
    ensures d.err.None? ==> ParseInt(NumberPart(Unquote(json).value), Bits32) == Some(d.runtime as int)
  {
    match Unquote(json)
    case None => Decoded(recv, Some(ErrInvalidRuntimeFormat))
    case Some(u) =>
      var parts := Text.Split(u, ' ');
      SplitMins(u);
      if |parts| != 2 || parts[1] != "mins" then Decoded(recv, Some(ErrInvalidRuntimeFormat))
      else
        match ParseInt(parts[0], Bits32)
        case None => Decoded(recv, Some(ErrInvalidRuntimeFormat))
        case Some(i) => Decoded(i, None)
  }

  /** Every `int32`, negatives included, survives marshalling and unmarshalling, whatever
      the receiver held before. */
  lemma RoundTrip(r: Runtime, recv: Runtime)
    ensures UnmarshalJSON(recv, MarshalJSON(r).value) == Decoded(r, None)
  {
    var text := FormatInt(r) + Unit;
    var json := MarshalJSON(r).value;
    assert json == "\"" + text + "\"";
    assert Quote(text) == json;
    QuoteRoundTrip(text);
    assert Unquote(json) == Some(text);
    assert NumberPart(text) == FormatInt(r);
    FormatParseRoundTrip(r, Bits32);
  }

  /** A doubled space leaves a space inside the number part. */
  lemma RejectsDoubleSpace(recv: Runtime, json: string)
    requires json == "\"107  mins\""
    ensures UnmarshalJSON(recv, json) == Decoded(recv, Some(ErrInvalidRuntimeFormat))
  {
    var u := "107  mins";
    UnquoteVerbatim(u);
    assert json == "\"" + u + "\"";
    assert NumberPart(u)[3] == ' ';
  }

  /** A longer unit is not `mins`. */
  lemma RejectsLongUnit(recv: Runtime, json: string)
    requires json == "\"107 minutes\""
    ensures UnmarshalJSON(recv, json) == Decoded(recv, Some(ErrInvalidRuntimeFormat))
  {
    var u := "107 minutes";
    UnquoteVerbatim(u);
    assert json == "\"" + u + "\"";
    assert u[|u| - |Unit|..][0] != Unit[0];
  }

  /** A bare JSON number is not a string literal. */
  lemma RejectsBareNumber(recv: Runtime, json: string)
    requires json == "107"
    ensures UnmarshalJSON(recv, json) == Decoded(recv, Some(ErrInvalidRuntimeFormat))
  {
  }

  /** A ten-digit number is out of `int32` range. */
  lemma RejectsOverflow(recv: Runtime, json: string)
    requires json == "\"9999999999 mins\""
    ensures UnmarshalJSON(recv, json) == Decoded(recv, Some(ErrInvalidRuntimeFormat))
  {
    var u := "9999999999 mins";
    UnquoteVerbatim(u);
    assert json == "\"" + u + "\"";
    ParseTenNines(NumberPart(u));
  }

  lemma ParseTenNines(n: string)
    requires n == "9999999999"
    ensures ParseInt(n, Bits32) == None
  {
    DigitsValueLowerBound(n);
    assert Pow10(9) == 1000000000;
  }

  /** A digit string is at least its first digit times `10^(len-1)`. */
  lemma {:induction false} DigitsValueLowerBound(s: string)
    requires |s| >= 1 && AllDigits(s)
    ensures DigitsValue(s) >= DigitValue(s[0]) * Pow10(|s| - 1)
    decreases |s|
  {
    if |s| > 1 {
      DigitsValueLowerBound(s[..|s| - 1]);
    }
  }

  function Pow10(k: nat): nat {
    if k == 0 then 1 else 10 * Pow10(k - 1)
  }

  /** A plus sign and leading zeros are accepted although `%d` never writes them. */
  lemma AcceptsPlusAndZeros(recv: Runtime, json: string)
    requires json == "\"+007 mins\""
    ensures UnmarshalJSON(recv, json) == Decoded(7, None)
  {
    var u := "+007 mins";
    UnquoteVerbatim(u);
    assert json == "\"" + u + "\"";
    ParsePlusSeven(NumberPart(u));
  }

  lemma ParsePlusSeven(n: string)
    requires n == "+007"
    ensures ParseInt(n, Bits32) == Some(7)
  {
    assert n[1..] == ['0', '0', '7'];
    ThreeDigits('0', '0', '7');
  }

  /** A back-quoted raw literal is accepted too. */
  lemma AcceptsRawLiteral(recv: Runtime, json: string)
    requires json == "`107 mins`"
    ensures UnmarshalJSON(recv, json) == Decoded(107, None)
  {
    RawLiteralText(json);
    var u := "107 mins";
    assert NumberPart(u) == "107";
    ParseOneHundredSeven(NumberPart(u));
  }

  lemma RawLiteralText(json: string)
    requires json == "`107 mins`"
    ensures Unquote(json) == Some("107 mins")
  {
    var u := "107 mins";
    assert json == "`" + u + "`";
    UnquoteRaw(u);
  }

  lemma ParseOneHundredSeven(n: string)
    requires n == "107"
    ensures ParseInt(n, Bits32) == Some(107)
  {
    assert n == ['1', '0', '7'];
    ThreeDigits('1', '0', '7');
  }

  lemma ThreeDigits(a: char, b: char, c: char)
    requires IsDigit(a) && IsDigit(b) && IsDigit(c)
    ensures DigitsValue([a, b, c]) == 100 * DigitValue(a) + 10 * DigitValue(b) + DigitValue(c)
  {
    assert [a, b, c][..2] == [a, b];
    assert [a, b][..1] == [a];
    assert [a][..0] == [];
    assert DigitsValue([a]) == DigitValue(a);
    assert DigitsValue([a, b]) == 10 * DigitValue(a) + DigitValue(b);
  }
}
