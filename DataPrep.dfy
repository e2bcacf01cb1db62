/** Field helpers of src/data_prep.py: a JSON loader that never raises, a
    "M:SS"/"MM:SS" clock parser and a first-present `coalesce`. */
module DataPrep {
  import opened Wrappers
  import opened Text
  import opened Tables

  /** The parsers tried one after the other: the first one that accepts `s` decides. */
  function FirstParse(parsers: seq<Parser>, s: string): (r: Option<Value>)
    ensures r.None? <==> forall k :: 0 <= k < |parsers| ==> parsers[k](s).None?
    ensures r.Some? ==> exists k :: 0 <= k < |parsers| && parsers[k](s) == r
                                      && forall j :: 0 <= j < k ==> parsers[j](s).None?
  {
    if parsers == [] then None
    else if parsers[0](s).Some? then parsers[0](s)
    else
      var r := FirstParse(parsers[1..], s);
      assert forall k :: 1 <= k < |parsers| ==> parsers[k] == parsers[1..][k - 1];
      r
  }

  /** `safe_json_load(x)` with `orjson.loads`, `json.loads` and `ast.literal_eval`
      given as parsers. A missing value or `""` gives `{}`; a non-string makes all
      three raise (`TypeError` or `ValueError`) and gives `{}`; a string gives the
      first parser's success, or `{}` when all three raise. */
  function SafeJsonLoad(x: Value, orjson: Parser, json: Parser, literal: Parser): (r: Value)
    ensures IsNull(x) || x == Str("") ==> r == EmptyDict
    ensures !x.Str? ==> r == EmptyDict
    ensures x.Str? && x.s != "" ==>
      r == (if orjson(x.s).Some? then orjson(x.s).value
            else if json(x.s).Some? then json(x.s).value
            else if literal(x.s).Some? then literal(x.s).value
            else EmptyDict)
  {
    if IsNull(x) || x == Str("") then EmptyDict
    else if !x.Str? then EmptyDict
    else
      var parsers := [orjson, json, literal];
      var r := FirstParse(parsers, x.s);
      assert parsers[0] == orjson && parsers[1] == json && parsers[2] == literal;
      r.GetOr(EmptyDict)
  }

  /** The groups of `^(\d{1,2}):(\d{2})$` when `t` matches: one or two digits of
      minutes, a colon, exactly two digits of seconds and nothing else. */
  function MatchClock(t: string): (r: Option<(string, string)>)
    ensures r.Some? ==> && AllDigits(r.value.0) && 1 <= |r.value.0| <= 2
                        && AllDigits(r.value.1) && |r.value.1| == 2
                        && t == r.value.0 + ":" + r.value.1
  {
    if |t| == 4 && IsDigit(t[0]) && t[1] == ':' && IsDigit(t[2]) && IsDigit(t[3]) then
      Some((t[..1], t[2..]))
    else if |t| == 5 && IsDigit(t[0]) && IsDigit(t[1]) && t[2] == ':' && IsDigit(t[3]) && IsDigit(t[4]) then
      Some((t[..2], t[3..]))
    else
      None
  }

  /** Every text of the clock shape matches, with its two parts as the groups. */
  lemma MatchClockComplete(minutes: string, seconds: string)
    requires AllDigits(minutes) && 1 <= |minutes| <= 2
    requires AllDigits(seconds) && |seconds| == 2
    ensures MatchClock(minutes + ":" + seconds) == Some((minutes, seconds))
  {
    var t := minutes + ":" + seconds;
    if |minutes| == 1 {
      assert t[..1] == minutes && t[2..] == seconds;
    } else {
      assert t[..2] == minutes && t[3..] == seconds;
    }
  }

  /** `to_seconds_mmss(s)`. A missing value or `""` gives NaN; an int, float or bool
      gives its float value; a string is stripped and, when it has the clock shape,
      gives `minutes * 60 + seconds` as an int (seconds are not range-checked);
      anything else gives NaN. */
  function ToSecondsMmSs(v: Value): (r: Value)
    ensures r.NaN? || r.Int? || r.Float?
    ensures IsNull(v) || v == Str("") ==> r == NaN
    ensures v.Int? ==> r == Float(v.i as real)
    ensures v.Float? ==> r == Float(v.x)
    ensures v.Bool? ==> r == Float(if v.b then 1.0 else 0.0)
    ensures !IsNull(v) && !v.Str? && !v.Int? && !v.Float? && !v.Bool? ==> r == NaN
    ensures v.Str? && MatchClock(Strip(v.s)).None? ==> r == NaN
    ensures v.Str? && v.s != "" ==> (r.Int? <==> MatchClock(Strip(v.s)).Some?)
    ensures r.Int? ==> v.Str? && 0 <= r.i <= 99 * 60 + 99
  {
    if IsNull(v) || v == Str("") then NaN
    else if v.Int? then Float(v.i as real)
    else if v.Float? then Float(v.x)
    else if v.Bool? then Float(if v.b then 1.0 else 0.0)
    else if !v.Str? then NaN
    else
      match MatchClock(Strip(v.s))
      case None => NaN
      case Some((m, s)) =>
        ParseDecimalAtMost99(m);
        ParseDecimalAtMost99(s);
        Int(ParseDecimal(m) * 60 + ParseDecimal(s))
  }

  /** Two decimal digits of a number below 100, with a leading zero when needed. */
  function TwoDigits(n: nat): (s: string)
    requires n < 100
    ensures AllDigits(s) && |s| == 2
  {
    [DigitChar(n / 10), DigitChar(n % 10)]
  }

  lemma ParseTwoDigits(n: nat)
    requires n < 100
    ensures ParseDecimal(TwoDigits(n)) == n
  {
    var s := TwoDigits(n);
    assert s[..1][..0] == [];
    assert ParseDecimal(s[..1]) == n / 10;
  }

  lemma DecimalBelow100(n: nat)
    requires n < 100
    ensures 1 <= |Decimal(n)| <= 2
  {
  }

  /** A string whose stripped form has the clock shape parses to its minutes and seconds. */
  lemma ToSecondsOfStripped(text: string, minutes: string, seconds: string)
    requires AllDigits(minutes) && 1 <= |minutes| <= 2
    requires AllDigits(seconds) && |seconds| == 2
    requires Strip(text) == minutes + ":" + seconds
    ensures ToSecondsMmSs(Str(text)) == Int(ParseDecimal(minutes) * 60 + ParseDecimal(seconds))
  {
    MatchClockComplete(minutes, seconds);
  }

  lemma ConcatRegroup(a: string, b: string, c: string, d: string, e: string)
    ensures a + b + c + d + e == a + (b + c + d) + e
  {
  }

  /** Writing a clock as `M:SS` or `MM:SS`, with any whitespace around it, and
      parsing it back gives its number of seconds. */
  lemma ToSecondsOfClock(ws1: string, minutes: nat, seconds: nat, ws2: string)
    requires AllSpace(ws1) && AllSpace(ws2)
    requires minutes < 100 && seconds < 100
    ensures ToSecondsMmSs(Str(ws1 + Decimal(minutes) + ":" + TwoDigits(seconds) + ws2))
            == Int(minutes * 60 + seconds)
  {
    var m, s := Decimal(minutes), TwoDigits(seconds);
    DecimalBelow100(minutes);
    var core := m + ":" + s;
    assert core[0] == m[0] && core[|core| - 1] == s[1];
    DigitIsNotSpace(core[0]);
    DigitIsNotSpace(core[|core| - 1]);
    StripPadded(ws1, core, ws2);
    ConcatRegroup(ws1, m, ":", s, ws2);
    var text := ws1 + core + ws2;
    ToSecondsOfStripped(text, m, s);
    ParseDecimalOfDecimal(minutes);
    ParseTwoDigits(seconds);
    assert ParseDecimal(m) * 60 + ParseDecimal(s) == minutes * 60 + seconds;
    assert ToSecondsMmSs(Str(text)) == Int(minutes * 60 + seconds);
  }

  /** Seconds past 59 are accepted as they are: "1:75" is 135 seconds. */
  lemma SecondsNotRangeChecked()
    ensures ToSecondsMmSs(Str("1:75")) == Int(135)
  {
    ClockText(1, 75, "1:75");
    ToSecondsOfClock("", 1, 75, "");
  }

  /** `text` is how minutes and seconds are written as a clock. */
  lemma ClockText(minutes: nat, seconds: nat, text: string)
    requires minutes < 10 && seconds < 100
    requires text == [DigitChar(minutes), ':', DigitChar(seconds / 10), DigitChar(seconds % 10)]
    ensures "" + Decimal(minutes) + ":" + TwoDigits(seconds) + "" == text
  {
  }

  /** Three minute digits, one seconds digit or a text that is only blank give NaN. */
  lemma MalformedClocksAreNaN()
    ensures ToSecondsMmSs(Str("123:45")) == NaN
    ensures ToSecondsMmSs(Str("1:5")) == NaN
    ensures ToSecondsMmSs(Str("   ")) == NaN
  {
    assert LeadingSpaces("123:45") == 0 && TrailingSpaces("123:45") == 0;
    assert Strip("123:45") == "123:45";
    assert LeadingSpaces("1:5") == 0 && TrailingSpaces("1:5") == 0;
    assert Strip("1:5") == "1:5";
    assert AllSpace("   ");
  }

  /** What `coalesce` skips: `None`, the empty string and float NaN. */
  predicate IsBlank(v: Value) {
    v.PyNone? || v == Str("") || v.NaN?
  }

  /** `coalesce(*vals)`: the first argument that is not blank, or NaN when all are
      (including when there are none). */
  method Coalesce(vals: seq<Value>) returns (r: Value)
    ensures r.NaN? <==> forall k :: 0 <= k < |vals| ==> IsBlank(vals[k])
    ensures !r.NaN? ==> exists k :: && 0 <= k < |vals| && vals[k] == r && !IsBlank(r)
                                    && forall j :: 0 <= j < k ==> IsBlank(vals[j])
  {
    for i := 0 to |vals|
      invariant forall j :: 0 <= j < i ==> IsBlank(vals[j])
    {
      if !IsBlank(vals[i]) {
        return vals[i];
      }
    }
    return NaN;
  }
}
