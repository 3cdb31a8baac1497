/**
 * The audit record that every exception handler of the controller writes
 * (`LOG_JSON_TEMPLATE` and `generateLogMessage`), and its rendering by
 * `String.format`: each `%s` prints a string verbatim, or `null` for a null
 * reference, and `%d` prints a `long` in decimal.
 */
module AuditLog {
  import opened Wrappers

  /** The six values `generateLogMessage` passes to the template, in template order. */
  datatype LogRecord = LogRecord(
    username: string,          // principal.getName()
    ip: string,                // request.getRemoteAddr()
    timestamp: int,            // System.currentTimeMillis()
    exception: string,         // ex.getClass().getName()
    message: Option<string>,   // ex.getMessage(), which may be null
    requestURI: string)        // request.getRequestURI()

  const Quote: char := '"'

  /** The template text before its first placeholder. */
  const TemplateHead: string := "{\n  \"username\": \""

  /**
   * The template texts that follow each of the six placeholders. Every
   * placeholder stands between double quotes, so each of them starts with one.
   */
  const TemplateTails: seq<string> := [
    "\",\n  \"IP\": \"",
    "\",\n  \"timestamp\": \"",
    "\",\n  \"exception\": \"",
    "\",\n  \"message\": \"",
    "\",\n  \"requestURI\": \"",
    "\"\n}\n"
  ]

  function DigitChar(d: nat): char
    requires d < 10
  {
    ('0' as int + d) as char
  }

  /** The decimal digits of `n`, most significant first, without leading zeros. */
  function Digits(n: nat): (s: string)
    ensures |s| > 0
    ensures forall i :: 0 <= i < |s| ==> '0' <= s[i] <= '9'
    decreases n
  {
    if n < 10 then [DigitChar(n)] else Digits(n / 10) + [DigitChar(n % 10)]
  }

  /** What `%d` prints for a `long`: a minus sign when negative, then the digits. */
  function DecimalText(n: int): (r: string)
    ensures |r| > 0 && (r[0] == '-' <==> n < 0)
    ensures forall i :: (if n < 0 then 1 else 0) <= i < |r| ==> '0' <= r[i] <= '9'
  {
    if n < 0 then "-" + Digits(-n) else Digits(n)
  }

  /** Reads decimal digits back to the number they denote. */
  function ParseDigits(s: string): (r: int) {
    if s == [] then 0 else ParseDigits(s[..|s| - 1]) * 10 + (s[|s| - 1] as int - '0' as int)
  }

  /** Reads back what `%d` printed. */
  function ParseDecimal(s: string): (r: int) {
    if |s| > 0 && s[0] == '-' then -ParseDigits(s[1..]) else ParseDigits(s)
  }

  lemma {:induction false} DigitsRoundTrip(n: nat)
    ensures ParseDigits(Digits(n)) == n
    decreases n
  {
    if n >= 10 {
      DigitsRoundTrip(n / 10);
      var s := Digits(n);
      assert s[..|s| - 1] == Digits(n / 10);
    }
  }

  /** The timestamp field is printed losslessly and never contains a double quote. */
  lemma DecimalRoundTrip(n: int)
    ensures ParseDecimal(DecimalText(n)) == n
    ensures Quote !in DecimalText(n)
  {
    if n < 0 {
      DigitsRoundTrip(-n);
      assert DecimalText(n)[1..] == Digits(-n);
    } else {
      DigitsRoundTrip(n);
    }
  }

  /** What `%s` prints for a string reference that may be null. */
  function ShowString(s: Option<string>): (r: string)
    ensures s.Some? ==> r == s.value
    ensures s.None? ==> r == "null"
  {
    s.GetOr("null")
  }

  /** `String.format(LOG_JSON_TEMPLATE, ...)` applied to a record. */
  function FormatLog(r: LogRecord): (s: string)
    ensures |s| > |TemplateHead| + |r.username| && s[..|TemplateHead|] == TemplateHead
    ensures s[|TemplateHead|..|TemplateHead| + |r.username|] == r.username
    ensures |s| >= |TemplateTails[5]| && s[|s| - |TemplateTails[5]|..] == TemplateTails[5]
  {
    TemplateHead
      + r.username + TemplateTails[0]
      + r.ip + TemplateTails[1]
      + DecimalText(r.timestamp) + TemplateTails[2]
      + r.exception + TemplateTails[3]
      + ShowString(r.message) + TemplateTails[4]
      + r.requestURI + TemplateTails[5]
  }

  /** The texts that replace the six placeholders, in order. */
  function FieldTexts(r: LogRecord): (texts: seq<string>) {
    [r.username, r.ip, DecimalText(r.timestamp), r.exception, ShowString(r.message), r.requestURI]
  }

  /** Each value followed by the template text up to the next placeholder. */
  function Interleave(values: seq<string>, tails: seq<string>): (s: string)
    requires |values| == |tails|
  {
    if values == [] then [] else values[0] + tails[0] + Interleave(values[1..], tails[1..])
  }

  lemma FormatLogAsInterleave(r: LogRecord)
    ensures FormatLog(r) == TemplateHead + Interleave(FieldTexts(r), TemplateTails)
  {
    var f, t := FieldTexts(r), TemplateTails;
    var i5 := Interleave(f[5..], t[5..]);
    assert Interleave(f[6..], t[6..]) == [];
    assert i5 == r.requestURI + t[5];
    var i4 := Interleave(f[4..], t[4..]);
    assert i4 == ShowString(r.message) + t[4] + i5;
    var i3 := Interleave(f[3..], t[3..]);
    assert i3 == r.exception + t[3] + i4;
    var i2 := Interleave(f[2..], t[2..]);
    assert i2 == DecimalText(r.timestamp) + t[2] + i3;
    var i1 := Interleave(f[1..], t[1..]);
    assert i1 == r.ip + t[1] + i2;
    var i0 := Interleave(f, t);
    assert i0 == r.username + t[0] + i1;
    calc {
      TemplateHead + i0;
      TemplateHead + r.username + t[0] + i1;
      TemplateHead + r.username + t[0] + r.ip + t[1] + i2;
      TemplateHead + r.username + t[0] + r.ip + t[1] + DecimalText(r.timestamp) + t[2] + i3;
      TemplateHead + r.username + t[0] + r.ip + t[1] + DecimalText(r.timestamp) + t[2]
        + r.exception + t[3] + i4;
      TemplateHead + r.username + t[0] + r.ip + t[1] + DecimalText(r.timestamp) + t[2]
        + r.exception + t[3] + ShowString(r.message) + t[4] + i5;
      FormatLog(r);
    }
  }

  lemma TailsStartWithQuote()
    ensures forall i :: 0 <= i < |TemplateTails| ==> |TemplateTails[i]| > 0 && TemplateTails[i][0] == Quote
  {
  }

  /** A record none of whose string fields contains a double quote. */
  predicate QuoteFree(r: LogRecord) {
    && Quote !in r.username
    && Quote !in r.ip
    && Quote !in r.exception
    && Quote !in ShowString(r.message)
    && Quote !in r.requestURI
  }

  lemma NoQuoteBefore(a: string, x: string, i: nat)
    requires Quote !in a && i < |a|
    ensures (a + [Quote] + x)[i] != Quote
  {
    assert (a + [Quote] + x)[i] == a[i];
  }

  /** Text without a quote, a quote, then anything: the first quote fixes the split. */
  lemma SplitAtFirstQuote(a: string, x: string, b: string, y: string)
    requires Quote !in a && Quote !in b
    requires a + [Quote] + x == b + [Quote] + y
    ensures a == b && x == y
  {
    var s := a + [Quote] + x;
    if |a| < |b| {
      NoQuoteBefore(b, y, |a|);
      assert false;
    } else if |b| < |a| {
      NoQuoteBefore(a, x, |b|);
      assert false;
    }
    assert a == s[..|a|];
    assert b == (b + [Quote] + y)[..|b|];
    assert x == s[|a| + 1..];
    assert y == (b + [Quote] + y)[|b| + 1..];
  }

  lemma {:induction false} InterleaveInjective(xs: seq<string>, ys: seq<string>, tails: seq<string>)
    requires |xs| == |ys| == |tails|
    requires forall i :: 0 <= i < |xs| ==> Quote !in xs[i]
    requires forall i :: 0 <= i < |ys| ==> Quote !in ys[i]
    requires forall i :: 0 <= i < |tails| ==> |tails[i]| > 0 && tails[i][0] == Quote
    requires Interleave(xs, tails) == Interleave(ys, tails)
    ensures xs == ys
  {
    if xs != [] {
      var restX := Interleave(xs[1..], tails[1..]);
      var restY := Interleave(ys[1..], tails[1..]);
      var after := tails[0][1..];
      assert tails[0] == [Quote] + after;
      assert Interleave(xs, tails) == xs[0] + [Quote] + (after + restX);
      assert Interleave(ys, tails) == ys[0] + [Quote] + (after + restY);
      SplitAtFirstQuote(xs[0], after + restX, ys[0], after + restY);
      assert restX == (after + restX)[|after|..];
      assert restY == (after + restY)[|after|..];
      InterleaveInjective(xs[1..], ys[1..], tails[1..]);
      assert xs == [xs[0]] + xs[1..];
      assert ys == [ys[0]] + ys[1..];
    }
  }

  /**
   * The audit line is decodable: two quote-free records with the same text
   * agree on every field (a null message and the text "null" excepted, see
   * NullMessagePrintsAsText).
   */
  lemma FormatLogInjective(a: LogRecord, b: LogRecord)
    requires QuoteFree(a) && QuoteFree(b)
    requires FormatLog(a) == FormatLog(b)
    ensures a.username == b.username && a.ip == b.ip && a.timestamp == b.timestamp
    ensures a.exception == b.exception && ShowString(a.message) == ShowString(b.message)
    ensures a.requestURI == b.requestURI
  {
    var fa, fb := FieldTexts(a), FieldTexts(b);
    DecimalRoundTrip(a.timestamp);
    DecimalRoundTrip(b.timestamp);
    TailsStartWithQuote();
    FormatLogAsInterleave(a);
    FormatLogAsInterleave(b);
    var ia, ib := Interleave(fa, TemplateTails), Interleave(fb, TemplateTails);
    assert ia == (TemplateHead + ia)[|TemplateHead|..];
    assert ib == (TemplateHead + ib)[|TemplateHead|..];
    InterleaveInjective(fa, fb, TemplateTails);
    assert fa[2] == fb[2];
  }

  /** `%s` prints a null message as the four letters "null", so the log cannot tell the two apart. */
  lemma NullMessagePrintsAsText(r: LogRecord)
    ensures FormatLog(r.(message := None)) == FormatLog(r.(message := Some("null")))
  {
  }
}
