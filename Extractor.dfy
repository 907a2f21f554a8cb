/**
 * The quote extractor: the reply of the extraction model is cleaned of code fences and parsed
 * as JSON; every field falls back to a scan of the transcript and then to a constant. The three
 * scans are the regular expressions of the extractor written out as left-to-right searches
 * (leftmost match, greedy repetition, ASCII case folding as the `i` flag does for these
 * patterns).
 */
module Extractor {
  import opened Wrappers
  import opened Text
  import opened Storage

  /**
   * A property of the object the extraction model returned, as `JSON.parse` left it:
   * `Missing` is absent or `null` (what `??` replaces); `Compound` is an array or an object,
   * given by its `String(...)` text, which is what numeric coercion reads.
   */
  datatype JsonField = Missing | Num(n: real) | Str(s: string) | Bool(b: bool) | Compound(text: string)

  /** The three properties `extractQuote` reads. The prompt asks for numbers; nothing enforces it. */
  datatype QuoteFields = QuoteFields(unitPriceUsd: JsonField, moq: JsonField, leadTimeDays: JsonField)

  /** A number or undefined, as the regex fallbacks return it. */
  function NumOrMissing(o: Option<real>): (f: JsonField)
    ensures o.None? <==> f == Missing
    ensures o.Some? ==> f == Num(o.value)
  {
    if o.Some? then Num(o.value) else Missing
  }

  /** `a ?? b`: the right side only when the left one is absent or `null`. */
  function Coalesce(a: JsonField, b: JsonField): (r: JsonField)
    ensures a != Missing ==> r == a
    ensures a == Missing ==> r == b
  {
    if a.Missing? then b else a
  }

  /**
   * JavaScript's numeric coercion (what `Math.round` applies to its argument), finite results
   * only: `None` stands for NaN and the infinities. `toNumber` is `Number(string)`.
   */
  function NumberOf(f: JsonField, toNumber: string -> Option<real>): (r: Option<real>)
    ensures f.Num? ==> r == Some(f.n)
    ensures f.Bool? ==> r == Some(if f.b then 1.0 else 0.0)
    ensures f.Str? ==> r == toNumber(f.s)
    ensures f.Compound? ==> r == toNumber(f.text)
    ensures f.Missing? ==> r.None?
  {
    match f
    case Missing => None
    case Num(x) => Some(x)
    case Bool(b) => Some(if b then 1.0 else 0.0)
    case Str(t) => toNumber(t)
    case Compound(t) => toNumber(t)
  }

  datatype ExtractedQuote = ExtractedQuote(
    supplierLabel: string,
    unitPriceWei: int,
    unitPriceUsd: real,
    moq: int,
    leadTimeDays: int,
    validUntil: int)

  const DefaultPrice: real := 5.0
  const DefaultMoq: real := 100.0
  const DefaultLeadTime: real := 14.0
  const SevenDays: int := 7 * 86400

  // ---------------------------------------------------------------------------------------
  // Scanning helpers
  // ---------------------------------------------------------------------------------------

  /** End of the run of digits starting at `i`. */
  function DigitRunEnd(s: string, i: nat): (e: nat)
    requires i <= |s|
    ensures i <= e <= |s|
    ensures e < |s| ==> !IsDigit(s[e])
    decreases |s| - i
  {
    if i < |s| && IsDigit(s[i]) then DigitRunEnd(s, i + 1) else i
  }

  /** End of the run of whitespace (`\s`) starting at `i`. */
  function SpaceRunEnd(s: string, i: nat): (e: nat)
    requires i <= |s|
    ensures i <= e <= |s|
    ensures e < |s| ==> !IsSpace(s[e])
    decreases |s| - i
  {
    if i < |s| && IsSpace(s[i]) then SpaceRunEnd(s, i + 1) else i
  }

  /** Position of the first digit at or after `i`, or `|s|`: what `[^\d]*` stops at. */
  function FirstDigitFrom(s: string, i: nat): (d: nat)
    requires i <= |s|
    ensures i <= d <= |s|
    ensures d < |s| ==> IsDigit(s[d])
    decreases |s| - i
  {
    if i < |s| && !IsDigit(s[i]) then FirstDigitFrom(s, i + 1) else i
  }

  /** Case-insensitive match of the lower-case ASCII word `p` at position `i`. */
  predicate MatchCI(s: string, i: nat, p: string) {
    MatchCIFrom(s, i, p, 0)
  }

  /** `p[k..]` matches case-insensitively at `i + k`. */
  predicate MatchCIFrom(s: string, i: nat, p: string, k: nat)
    decreases |p| - k
  {
    k >= |p| || (i + k < |s| && LowerChar(s[i + k]) == p[k] && MatchCIFrom(s, i, p, k + 1))
  }

  /** The leftmost position at or after `i` where `at` finds a match, and that match. */
  function FirstMatch<T>(s: string, i: nat, at: (string, nat) -> Option<T>): (r: Option<T>)
    decreases |s| - i
  {
    if i >= |s| then None
    else if at(s, i).Some? then at(s, i)
    else FirstMatch(s, i + 1, at)
  }

  /** What `String.prototype.match` returns without the `g` flag: the leftmost match. */
  lemma {:induction false} FirstMatchSpec<T>(s: string, i: nat, at: (string, nat) -> Option<T>)
    ensures FirstMatch(s, i, at).Some? ==>
              exists j | i <= j < |s| :: at(s, j) == FirstMatch(s, i, at) && forall k :: i <= k < j ==> at(s, k).None?
    ensures FirstMatch(s, i, at).None? ==> forall k :: i <= k < |s| ==> at(s, k).None?
    decreases |s| - i
  {
    if i < |s| && at(s, i).None? {
      FirstMatchSpec(s, i + 1, at);
    }
  }

  /** The value of the digits `s[i..e]`, as `parseInt`/`parseFloat` read a run of digits. */
  function RunValue(s: string, i: nat, e: nat): (n: nat)
    requires i <= e <= |s|
    decreases e - i
  {
    if e == i then 0 else 10 * RunValue(s, i, e - 1) + DigitOrZero(s[e - 1])
  }

  function DigitOrZero(c: char): (d: nat)
    ensures d < 10
  {
    if IsDigit(c) then c as int - '0' as int else 0
  }

  // ---------------------------------------------------------------------------------------
  // /\$(\d+(?:\.\d{1,2})?)\s*(?:per\s+unit|\/unit)?/i
  // ---------------------------------------------------------------------------------------

  /**
   * The match starting at `i`. The trailing unit phrase is optional and outside the capture,
   * so a match exists exactly where a "$" is followed by a digit; the capture is the digit run
   * and, when a "." and a digit follow it, one or two fraction digits (greedy).
   */
  function PriceAt(s: string, i: nat): (r: Option<real>)
    ensures r.Some? <==> i + 1 < |s| && s[i] == '$' && IsDigit(s[i + 1])
  {
    if i + 1 < |s| && s[i] == '$' && IsDigit(s[i + 1]) then
      var e := DigitRunEnd(s, i + 1);
      var whole := RunValue(s, i + 1, e) as real;
      if e + 1 < |s| && s[e] == '.' && IsDigit(s[e + 1]) then
        if e + 2 < |s| && IsDigit(s[e + 2]) then
          Some(whole + (10 * DigitValue(s[e + 1]) + DigitValue(s[e + 2])) as real / 100.0)
        else
          Some(whole + DigitValue(s[e + 1]) as real / 10.0)
      else Some(whole)
    else None
  }

  /** `regexPrice(text)`: `parseFloat` of the capture of the leftmost match, or undefined. */
  function RegexPrice(s: string): (r: Option<real>)
    ensures r.Some? ==> exists j | 0 <= j < |s| :: s[j] == '$' && PriceAt(s, j) == r
                                 && forall k :: 0 <= k < j ==> PriceAt(s, k).None?
    ensures r.None? ==> forall k :: 0 <= k < |s| ==> PriceAt(s, k).None?
  {
    FirstMatchSpec(s, 0, PriceAt);
    FirstMatch(s, 0, PriceAt)
  }

  // ---------------------------------------------------------------------------------------
  // /(?:MOQ|minimum\s+order(?:\s+quantity)?)[^\d]*(\d+)/i
  // ---------------------------------------------------------------------------------------

  /**
   * Where the keyword matched at `i` ends. The optional " quantity" is made of non-digits, so
   * `[^\d]*` reaches the same first digit whether or not it is taken.
   */
  function KeywordEnd(s: string, i: nat): (r: Option<nat>)
    ensures r.Some? ==> i + 3 <= r.value <= |s|
  {
    if MatchCI(s, i, "moq") then Some(i + 3)
    else if MatchCI(s, i, "minimum") then
      var j := SpaceRunEnd(s, i + 7);
      if j > i + 7 && MatchCI(s, j, "order") then Some(j + 5) else None
    else None
  }

  /** The match starting at `i`: the keyword, then the first run of digits after it. */
  function MoqAt(s: string, i: nat): (r: Option<nat>)
  {
    match KeywordEnd(s, i)
    case None => None
    case Some(e) =>
      var d := FirstDigitFrom(s, e);
      if d < |s| then Some(RunValue(s, d, DigitRunEnd(s, d))) else None
  }

  /** `regexMoq(text)`: `parseInt` of the capture of the leftmost match, or undefined. */
  function RegexMoq(s: string): (r: Option<nat>)
    ensures r.Some? ==> exists j | 0 <= j < |s| :: KeywordEnd(s, j).Some? && MoqAt(s, j) == r
                                 && forall k :: 0 <= k < j ==> MoqAt(s, k).None?
    ensures r.None? ==> forall k :: 0 <= k < |s| ==> MoqAt(s, k).None?
  {
    FirstMatchSpec(s, 0, MoqAt);
    FirstMatch(s, 0, MoqAt)
  }

  // ---------------------------------------------------------------------------------------
  // /(\d+)[- ]day(?:s)?\s+(?:lead\s+time|delivery)/i
  // ---------------------------------------------------------------------------------------

  /** "lead time" or "delivery" at `q`. */
  predicate LeadPhraseAt(s: string, q: nat)
    requires q <= |s|
  {
    MatchCI(s, q, "delivery")
    || (MatchCI(s, q, "lead") && var t := SpaceRunEnd(s, q + 4); t > q + 4 && MatchCI(s, t, "time"))
  }

  /**
   * What must follow the digit run ending at `e`: "-" or " ", "day" with an optional "s", at
   * least one space, then the phrase. "s" after "day" is taken when present, since without it
   * `\s+` would start on that "s".
   */
  predicate DaysPhraseAt(s: string, e: nat)
    requires e <= |s|
  {
    e < |s| && (s[e] == '-' || s[e] == ' ') && MatchCI(s, e + 1, "day")
    && SpacedPhraseAt(s, DaysEnd(s, e))
  }

  /** Where "day" or "days" starting at `e + 1` ends. */
  function DaysEnd(s: string, e: nat): (p: nat)
    requires e + 4 <= |s|
    ensures e + 4 <= p <= |s|
  {
    if e + 4 < |s| && LowerChar(s[e + 4]) == 's' then e + 5 else e + 4
  }

  /** At least one space from `p`, then the phrase. */
  predicate SpacedPhraseAt(s: string, p: nat)
    requires p <= |s|
  {
    var q := SpaceRunEnd(s, p);
    q > p && LeadPhraseAt(s, q)
  }

  /**
   * The match starting at `i`. Backtracking into `\d+` or `\s+` cannot help (the character after
   * a shorter run is a digit or a space), so the runs are maximal.
   */
  function LeadTimeAt(s: string, i: nat): (r: Option<nat>)
    ensures r.Some? ==> i < |s| && IsDigit(s[i])
  {
    if i < |s| && IsDigit(s[i]) then
      var e := DigitRunEnd(s, i);
      if DaysPhraseAt(s, e) then Some(RunValue(s, i, e)) else None
    else None
  }

  /** `regexLeadTime(text)`: a lead time needs a digit where the match starts. */
  function RegexLeadTime(s: string): (r: Option<nat>)
    ensures r.Some? ==> exists j | 0 <= j < |s| :: IsDigit(s[j]) && LeadTimeAt(s, j) == r
                                 && forall k :: 0 <= k < j ==> LeadTimeAt(s, k).None?
    ensures r.None? ==> forall k :: 0 <= k < |s| ==> LeadTimeAt(s, k).None?
  {
    FirstMatchSpec(s, 0, LeadTimeAt);
    FirstMatch(s, 0, LeadTimeAt)
  }

  /** `regexExtract(text)`: the three scans as the fields of a partial quote, absent where a scan found nothing. */
  function RegexExtract(s: string): (r: QuoteFields)
    ensures r.unitPriceUsd.Missing? <==> RegexPrice(s).None?
    ensures r.unitPriceUsd.Num? ==> r.unitPriceUsd.n == RegexPrice(s).value
    ensures r.moq.Missing? <==> RegexMoq(s).None?
    ensures r.moq.Num? ==> r.moq.n == RegexMoq(s).value as real
    ensures r.leadTimeDays.Missing? <==> RegexLeadTime(s).None?
    ensures r.leadTimeDays.Num? ==> r.leadTimeDays.n == RegexLeadTime(s).value as real
    ensures r.unitPriceUsd.Missing? || r.unitPriceUsd.Num?
    ensures r.moq.Missing? || r.moq.Num?
    ensures r.leadTimeDays.Missing? || r.leadTimeDays.Num?
  {
    QuoteFields(NumOrMissing(RegexPrice(s)),
                NumOrMissing(match RegexMoq(s) case None => None case Some(m) => Some(m as real)),
                NumOrMissing(match RegexLeadTime(s) case None => None case Some(d) => Some(d as real)))
  }

  // ---------------------------------------------------------------------------------------
  // Fence stripping: .replace(/```[a-z]*\n?/g, "").replace(/```/g, "").trim()
  // ---------------------------------------------------------------------------------------

  function LowerRunEnd(s: string, i: nat): (e: nat)
    requires i <= |s|
    ensures i <= e <= |s|
    decreases |s| - i
  {
    if i < |s| && 'a' <= s[i] <= 'z' then LowerRunEnd(s, i + 1) else i
  }

  predicate FenceAt(s: string) { |s| >= 3 && s[..3] == "```" }

  /** The first pass: every "```" goes together with a lower-case tag and one newline after it. */
  function StripFenceTags(s: string): (r: string)
    ensures |r| <= |s|
    decreases |s|
  {
    if s == [] then []
    else if FenceAt(s) then
      var k := LowerRunEnd(s, 3);
      var m := if k < |s| && s[k] == '\n' then k + 1 else k;
      StripFenceTags(s[m..])
    else [s[0]] + StripFenceTags(s[1..])
  }

  /** The second pass: every remaining "```", left to right. */
  function StripTicks(s: string): (r: string)
    ensures |r| <= |s|
    decreases |s|
  {
    if s == [] then []
    else if FenceAt(s) then StripTicks(s[3..])
    else [s[0]] + StripTicks(s[1..])
  }

  /** The text handed to `JSON.parse`. */
  function CleanResponse(response: string): (r: string)
    ensures !Contains(r, "```")
  {
    var t := StripTicks(StripFenceTags(response));
    NoTicksLeft(StripFenceTags(response));
    var r := Trim(t);
    var u := TrimStart(t);
    NoTripleInSlice(t, |t| - |u|, |t|);
    assert u == t[|t| - |u|..|t|];
    NoTripleInSlice(u, 0, |r|);
    assert r == u[0..|r|];
    r
  }

  /** What the second pass leaves begins with the same character as its input, unless that is a fence. */
  lemma StripTicksHead(s: string)
    requires s != [] && !FenceAt(s)
    ensures StripTicks(s) != [] && StripTicks(s)[0] == s[0]
  {
  }

  /** No fence is left after the second pass. */
  lemma {:induction false} NoTicksLeft(s: string)
    ensures !Contains(StripTicks(s), "```")
    decreases |s|
  {
    if s == [] {
    } else if FenceAt(s) {
      NoTicksLeft(s[3..]);
    } else {
      var t := StripTicks(s[1..]);
      NoTicksLeft(s[1..]);
      assert StripTicks(s) == [s[0]] + t;
      if s[0] == '`' {
        NoDoubleTickAfter(s);
      }
      NoTicksCons(s[0], t);
    }
  }

  /**
   * After a backtick that does not open a fence, the second pass cannot yield two backticks:
   * the rest starts with a non-backtick, or with one backtick followed by a non-backtick.
   */
  lemma NoDoubleTickAfter(s: string)
    requires s != [] && !FenceAt(s) && s[0] == '`'
    ensures var t := StripTicks(s[1..]); !(|t| >= 2 && t[0] == '`' && t[1] == '`')
  {
    if |s| >= 2 {
      if s[1] != '`' {
        StripTicksHead(s[1..]);
      } else if |s| >= 3 {
        assert s[2] != '`' by { assert s[..3] != "```"; }
        var v := s[1..];
        assert !FenceAt(v);
        assert StripTicks(v) == [v[0]] + StripTicks(v[1..]);
        StripTicksHead(v[1..]);
      }
    }
  }

  /** One character before a text without "```" adds none, unless it is a backtick before two more. */
  lemma NoTicksCons(c: char, t: string)
    requires !Contains(t, "```")
    requires c == '`' ==> !(|t| >= 2 && t[0] == '`' && t[1] == '`')
    ensures !Contains([c] + t, "```")
  {
    var r := [c] + t;
    forall i | 0 <= i <= |r| - 3 ensures !OccursAt(r, "```", i) {
      if i > 0 {
        assert r[i..i + 3] == t[i - 1..i + 2];
        assert !OccursAt(t, "```", i - 1);
      } else {
        assert r[0..3] == [c, t[0], t[1]];
      }
    }
  }

  /** A slice of a string without "```" has none either. */
  lemma NoTripleInSlice(s: string, a: nat, b: nat)
    requires a <= b <= |s|
    requires !Contains(s, "```")
    ensures !Contains(s[a..b], "```")
  {
    forall i | 0 <= i <= (b - a) - 3 ensures !OccursAt(s[a..b], "```", i) {
      assert !OccursAt(s, "```", a + i);
      assert OccursAt(s[a..b], "```", i) ==> OccursAt(s, "```", a + i) by {
        SliceOccurs(s, "```", a, b, i);
      }
    }
  }

  lemma SliceOccurs(s: string, p: string, a: nat, b: nat, i: nat)
    requires a <= b <= |s|
    ensures OccursAt(s[a..b], p, i) ==> OccursAt(s, p, a + i)
  {
    if OccursAt(s[a..b], p, i) {
      var u, v := s[a + i..a + i + |p|], s[a..b][i..i + |p|];
      forall m | 0 <= m < |p| ensures u[m] == v[m] {
        assert v[m] == s[a..b][i + m] == s[a + i + m];
      }
      assert u == v;
    }
  }

  lemma {:induction false} StripFenceTagsPlain(b: string, x: string)
    requires '`' !in b
    ensures StripFenceTags(b + x) == b + StripFenceTags(x)
    decreases |b|
  {
    if b != [] {
      assert (b + x)[1..] == b[1..] + x;
      assert !FenceAt(b + x) by { assert (b + x)[0] == b[0]; }
      StripFenceTagsPlain(b[1..], x);
    } else {
      assert b + x == x;
    }
  }

  lemma {:induction false} StripTicksPlain(b: string)
    requires '`' !in b
    ensures StripTicks(b) == b
    decreases |b|
  {
    if b != [] {
      assert b[0] in b;
      assert !FenceAt(b);
      StripTicksPlain(b[1..]);
    }
  }

  /** The opening tag of a ```json fence goes with its newline, and the closing ticks go too. */
  lemma FenceTagsStripped(body: string)
    requires '`' !in body
    ensures StripFenceTags("```json\n" + body + "\n```") == body + "\n"
  {
    var s := "```json\n" + body + "\n```";
    assert FenceAt(s);
    assert s[3] == 'j' && s[4] == 's' && s[5] == 'o' && s[6] == 'n' && s[7] == '\n';
    assert LowerRunEnd(s, 7) == 7;
    assert LowerRunEnd(s, 6) == 7;
    assert LowerRunEnd(s, 5) == 7;
    assert LowerRunEnd(s, 4) == 7;
    assert LowerRunEnd(s, 3) == 7;
    assert s[8..] == (body + "\n") + "```";
    StripFenceTagsPlain(body + "\n", "```");
    assert StripFenceTags("```") == [];
  }

  /** A reply wrapped in a ```json fence is cleaned down to exactly its body. */
  lemma FencedReply(body: string)
    requires body != [] && !IsSpace(body[0]) && !IsSpace(body[|body| - 1])
    requires '`' !in body
    ensures CleanResponse("```json\n" + body + "\n```") == body
  {
    var t := body + "\n";
    FenceTagsStripped(body);
    StripTicksPlain(t);
    assert TrimStart(t) == t;
    assert t[..|t| - 1] == body;
    assert TrimEnd(t) == TrimEnd(body);
  }

  // ---------------------------------------------------------------------------------------
  // Conversions
  // ---------------------------------------------------------------------------------------

  /** `Math.round`: the nearest integer, halves towards +infinity. */
  function MathRound(x: real): (n: int)
    ensures x - 0.5 < n as real <= x + 0.5
  {
    (x + 0.5).Floor
  }

  lemma MathRoundInt(n: int)
    ensures MathRound(n as real) == n
  {
  }

  /** `toFixed`: the nearest integer, halves away from zero (the sign is handled apart). */
  function RoundHalfAway(x: real): (n: int)
    ensures x >= 0.0 ==> x - 0.5 < n as real <= x + 0.5
    ensures x < 0.0 ==> x - 0.5 <= n as real < x + 0.5
  {
    if x >= 0.0 then (x + 0.5).Floor else -((-x + 0.5).Floor)
  }

  /** `parseUnits(usd.toFixed(6), 15)`: micro-dollars, scaled by a further 10^9. */
  function ToWei(usd: real): (w: int)
    ensures usd >= 0.0 ==> w >= 0
  {
    RoundHalfAway(usd * 1000000.0) * 1000000000
  }

  /** A price in whole cents converts to exactly 10^13 wei per cent. */
  lemma ToWeiCents(cents: int)
    ensures ToWei(cents as real / 100.0) == cents * 10000000000000
  {
    var x := cents as real / 100.0 * 1000000.0;
    assert x == (cents * 10000) as real;
  }

  // ---------------------------------------------------------------------------------------
  // extractQuote
  // ---------------------------------------------------------------------------------------

  /**
   * The fields read from the extraction model's JSON: `null`-safe property access on a
   * scalar yields nothing; `None` (no parse) and `null` are told apart by the caller.
   */
  function ModelFields(parsed: Option<JsonValue<QuoteFields>>, transcript: string): (f: QuoteFields)
    ensures parsed.None? ==> f == RegexExtract(transcript)
    ensures parsed == Some(Scalar) ==> f == QuoteFields(Missing, Missing, Missing)
    ensures parsed.Some? && parsed.value.Object? ==> f == parsed.value.fields
  {
    match parsed
    case None => RegexExtract(transcript)
    case Some(Object(f)) => f
    case Some(_) => QuoteFields(Missing, Missing, Missing)
  }

  /** `extracted.unitPriceUsd ?? regexPrice(transcript) ?? 5.0`. */
  function PriceValue(f: QuoteFields, transcript: string): (v: JsonField)
    ensures f.unitPriceUsd != Missing ==> v == f.unitPriceUsd
    ensures f.unitPriceUsd == Missing && RegexPrice(transcript).Some? ==> v == Num(RegexPrice(transcript).value)
    ensures f.unitPriceUsd == Missing && RegexPrice(transcript).None? ==> v == Num(DefaultPrice)
  {
    Coalesce(Coalesce(f.unitPriceUsd, NumOrMissing(RegexPrice(transcript))), Num(DefaultPrice))
  }

  /** `extracted.moq ?? regexMoq(transcript) ?? 100`. */
  function MoqValue(f: QuoteFields, transcript: string): (v: JsonField)
    ensures f.moq != Missing ==> v == f.moq
    ensures f.moq == Missing && RegexMoq(transcript).Some? ==> v == Num(RegexMoq(transcript).value as real)
    ensures f.moq == Missing && RegexMoq(transcript).None? ==> v == Num(DefaultMoq)
  {
    Coalesce(Coalesce(f.moq, NumOrMissing(match RegexMoq(transcript) case None => None case Some(m) => Some(m as real))),
             Num(DefaultMoq))
  }

  /** `extracted.leadTimeDays ?? regexLeadTime(transcript) ?? 14`. */
  function LeadTimeValue(f: QuoteFields, transcript: string): (v: JsonField)
    ensures f.leadTimeDays != Missing ==> v == f.leadTimeDays
    ensures f.leadTimeDays == Missing && RegexLeadTime(transcript).Some? ==> v == Num(RegexLeadTime(transcript).value as real)
    ensures f.leadTimeDays == Missing && RegexLeadTime(transcript).None? ==> v == Num(DefaultLeadTime)
  {
    Coalesce(Coalesce(f.leadTimeDays, NumOrMissing(match RegexLeadTime(transcript) case None => None case Some(d) => Some(d as real))),
             Num(DefaultLeadTime))
  }

  /**
   * `extractQuote(transcript, supplierLabel)` given the extraction model's reply, `JSON.parse`,
   * `Number(string)` and the clock (milliseconds). It throws when the reply parses to `null`
   * (the property access), when the price it settles on is not a number (`toFixed` is not a
   * function of a string, a boolean or an object), and when the MOQ or the lead time does not
   * coerce to a finite number (`BigInt(NaN)`); every other reply, the empty one included,
   * yields a quote.
   */
  function ExtractQuote(transcript: string, supplierLabel: string, response: string,
                        parse: string -> Option<JsonValue<QuoteFields>>, toNumber: string -> Option<real>,
                        nowMs: nat): (r: Result<ExtractedQuote>)
    ensures var parsed := parse(CleanResponse(response));
      var f := ModelFields(parsed, transcript);
      r.Err? <==> (parsed == Some(Null) || !PriceValue(f, transcript).Num?
                   || NumberOf(MoqValue(f, transcript), toNumber).None?
                   || NumberOf(LeadTimeValue(f, transcript), toNumber).None?)
    ensures r.Ok? ==> var f := ModelFields(parse(CleanResponse(response)), transcript);
              && r.value.supplierLabel == supplierLabel
              && r.value.unitPriceUsd == PriceValue(f, transcript).n
              && r.value.unitPriceWei == ToWei(r.value.unitPriceUsd)
              && r.value.moq == MathRound(NumberOf(MoqValue(f, transcript), toNumber).value)
              && r.value.leadTimeDays == MathRound(NumberOf(LeadTimeValue(f, transcript), toNumber).value)
              && r.value.validUntil == nowMs / 1000 + SevenDays
  {
    var parsed := parse(CleanResponse(response));
    if parsed == Some(Null) then Err("TypeError")
    else QuoteOf(ModelFields(parsed, transcript), transcript, supplierLabel, toNumber, nowMs)
  }

  /** The part of `extractQuote` after the parse: defaults, the price conversion and the two `BigInt`s. */
  function QuoteOf(f: QuoteFields, transcript: string, supplierLabel: string, toNumber: string -> Option<real>,
                   nowMs: nat): (r: Result<ExtractedQuote>)
    ensures r.Err? <==> (!PriceValue(f, transcript).Num?
                         || NumberOf(MoqValue(f, transcript), toNumber).None?
                         || NumberOf(LeadTimeValue(f, transcript), toNumber).None?)
    ensures r.Ok? ==>
              && r.value.supplierLabel == supplierLabel
              && r.value.unitPriceUsd == PriceValue(f, transcript).n
              && r.value.unitPriceWei == ToWei(r.value.unitPriceUsd)
              && r.value.moq == MathRound(NumberOf(MoqValue(f, transcript), toNumber).value)
              && r.value.leadTimeDays == MathRound(NumberOf(LeadTimeValue(f, transcript), toNumber).value)
              && r.value.validUntil == nowMs / 1000 + SevenDays
  {
    var price := PriceValue(f, transcript);
    var moq := NumberOf(MoqValue(f, transcript), toNumber);
    var lead := NumberOf(LeadTimeValue(f, transcript), toNumber);
    if !price.Num? then Err("TypeError")
    else if moq.None? || lead.None? then Err("RangeError")
    else Ok(ExtractedQuote(supplierLabel, ToWei(price.n), price.n, MathRound(moq.value), MathRound(lead.value),
                           nowMs / 1000 + SevenDays))
  }

  /**
   * An unparseable reply (the "" a failed completion returns, for one) takes every field from
   * the transcript scans, each with its constant default, and always yields a quote.
   */
  lemma UnparseableReply(transcript: string, supplierLabel: string, response: string,
                         parse: string -> Option<JsonValue<QuoteFields>>, toNumber: string -> Option<real>,
                         nowMs: nat)
    requires parse(CleanResponse(response)).None?
    ensures var price := RegexPrice(transcript).GetOr(DefaultPrice);
      ExtractQuote(transcript, supplierLabel, response, parse, toNumber, nowMs)
      == Ok(ExtractedQuote(supplierLabel, ToWei(price), price,
                           if RegexMoq(transcript).Some? then RegexMoq(transcript).value else 100,
                           if RegexLeadTime(transcript).Some? then RegexLeadTime(transcript).value else 14,
                           nowMs / 1000 + SevenDays))
  {
    assert ExtractQuote(transcript, supplierLabel, response, parse, toNumber, nowMs)
           == QuoteOf(RegexExtract(transcript), transcript, supplierLabel, toNumber, nowMs);
    ScannedFields(transcript, toNumber);
    MathRoundInt(if RegexMoq(transcript).Some? then RegexMoq(transcript).value else 100);
    MathRoundInt(if RegexLeadTime(transcript).Some? then RegexLeadTime(transcript).value else 14);
  }

  /** The scanned fields settle on numbers: the scan's result, else the default. */
  lemma ScannedFields(transcript: string, toNumber: string -> Option<real>)
    ensures var f := RegexExtract(transcript);
      && PriceValue(f, transcript) == Num(RegexPrice(transcript).GetOr(DefaultPrice))
      && NumberOf(MoqValue(f, transcript), toNumber)
         == Some((if RegexMoq(transcript).Some? then RegexMoq(transcript).value else 100) as real)
      && NumberOf(LeadTimeValue(f, transcript), toNumber)
         == Some((if RegexLeadTime(transcript).Some? then RegexLeadTime(transcript).value else 14) as real)
  {
  }

  /** A reply with the three numbers the prompt asks for yields exactly those, rounded where the source rounds. */
  lemma NumericReply(transcript: string, supplierLabel: string, response: string,
                     parse: string -> Option<JsonValue<QuoteFields>>, toNumber: string -> Option<real>,
                     nowMs: nat, price: real, moq: real, lead: real)
    requires parse(CleanResponse(response)) == Some(Object(QuoteFields(Num(price), Num(moq), Num(lead))))
    ensures ExtractQuote(transcript, supplierLabel, response, parse, toNumber, nowMs)
            == Ok(ExtractedQuote(supplierLabel, ToWei(price), price, MathRound(moq), MathRound(lead),
                                 nowMs / 1000 + SevenDays))
  {
    var f := QuoteFields(Num(price), Num(moq), Num(lead));
    var parsed := parse(CleanResponse(response));
    assert parsed != Some(Null) && ModelFields(parsed, transcript) == f;
    assert PriceValue(f, transcript) == Num(price);
    assert MoqValue(f, transcript) == Num(moq) && LeadTimeValue(f, transcript) == Num(lead);
    assert NumberOf(Num(moq), toNumber) == Some(moq) && NumberOf(Num(lead), toNumber) == Some(lead);
    NumbersQuote(f, transcript, supplierLabel, toNumber, nowMs, price, moq, lead);
    assert ExtractQuote(transcript, supplierLabel, response, parse, toNumber, nowMs)
           == QuoteOf(f, transcript, supplierLabel, toNumber, nowMs);
  }

  /** Settled fields that are three numbers give the quote of those numbers. */
  lemma NumbersQuote(f: QuoteFields, transcript: string, supplierLabel: string, toNumber: string -> Option<real>,
                     nowMs: nat, price: real, moq: real, lead: real)
    requires PriceValue(f, transcript) == Num(price)
    requires MoqValue(f, transcript) == Num(moq) && LeadTimeValue(f, transcript) == Num(lead)
    ensures QuoteOf(f, transcript, supplierLabel, toNumber, nowMs)
            == Ok(ExtractedQuote(supplierLabel, ToWei(price), price, MathRound(moq), MathRound(lead),
                                 nowMs / 1000 + SevenDays))
  {
    assert NumberOf(Num(moq), toNumber) == Some(moq) && NumberOf(Num(lead), toNumber) == Some(lead);
  }

  /**
   * A price that is present but not a number ("4.80" as a string, say) is kept by `??` and
   * makes `toFixed` throw, whatever the transcript says.
   */
  lemma NonNumberPriceThrows(transcript: string, supplierLabel: string, response: string,
                             parse: string -> Option<JsonValue<QuoteFields>>, toNumber: string -> Option<real>,
                             nowMs: nat, f: QuoteFields)
    requires parse(CleanResponse(response)) == Some(Object(f))
    requires f.unitPriceUsd.Str? || f.unitPriceUsd.Bool? || f.unitPriceUsd.Compound?
    ensures ExtractQuote(transcript, supplierLabel, response, parse, toNumber, nowMs).Err?
  {
    var parsed := parse(CleanResponse(response));
    assert parsed != Some(Null) && ModelFields(parsed, transcript) == f;
    assert PriceValue(f, transcript) == f.unitPriceUsd;
  }

  /**
   * A text MOQ is coerced: one that reads as a number is rounded like a number, one that does
   * not ("n/a", say) makes `BigInt` throw.
   */
  lemma TextMoqCoerced(transcript: string, supplierLabel: string, response: string,
                       parse: string -> Option<JsonValue<QuoteFields>>, toNumber: string -> Option<real>,
                       nowMs: nat, price: real, moq: string, lead: real)
    requires parse(CleanResponse(response)) == Some(Object(QuoteFields(Num(price), Str(moq), Num(lead))))
    ensures var r := ExtractQuote(transcript, supplierLabel, response, parse, toNumber, nowMs);
      && (toNumber(moq).None? <==> r.Err?)
      && (r.Ok? ==> r.value.moq == MathRound(toNumber(moq).value))
  {
    var f := QuoteFields(Num(price), Str(moq), Num(lead));
    var parsed := parse(CleanResponse(response));
    assert parsed != Some(Null) && ModelFields(parsed, transcript) == f;
    TextMoqFields(transcript, toNumber, price, moq, lead);
  }

  /** The values a number price, a text MOQ and a number lead time settle to. */
  lemma TextMoqFields(transcript: string, toNumber: string -> Option<real>, price: real, moq: string, lead: real)
    ensures var f := QuoteFields(Num(price), Str(moq), Num(lead));
      && PriceValue(f, transcript) == Num(price)
      && NumberOf(MoqValue(f, transcript), toNumber) == toNumber(moq)
      && NumberOf(LeadTimeValue(f, transcript), toNumber) == Some(lead)
  {
  }

  /** The empty reply cleans to the empty text. */
  lemma EmptyReplyClean()
    ensures CleanResponse("") == ""
  {
  }
}
