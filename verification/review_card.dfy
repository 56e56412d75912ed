/**
 * The texts `showReviewPreview` derives from a review's meta data: the
 * labels (overridden by the configuration for guest-language reviews), the
 * star row and rating number, the participation month, the attribution, the
 * reviewer's initial and the written date.
 */
module ReviewCard {
  import opened JsValues

  // ---------------------------------------------------------------------
  // Labels

  /** The four label texts the tool keeps in instance fields. */
  datatype Labels = Labels(moreText: string, moreCloseText: string, participationDateText: string, writtenDateText: string)

  const DefaultLabels: Labels := Labels("See More", "Show Less", "Participation Date", "Posted Date")

  /** The review-related settings after the constructor's `|| ''` and `|| {}` defaults. */
  datatype ReviewConfig = ReviewConfig(
    seeMoreText: Value, showLessText: Value, participationDateText: Value, writtenDateText: Value,
    supplierName: Value, attribution: map<string, Value>)

  /**
   * A review written in the guest's language replaces all four labels by the
   * configured texts (as `String(x)`, which the later concatenations and
   * `textContent` produce); otherwise the labels stay as they are.
   */
  function LabelsFor(current: Labels, meta: Value, config: ReviewConfig): (r: Labels)
    requires !Nullish(meta)
    ensures !Truthy(Get(meta, "guest_language")) ==> r == current
    ensures Truthy(Get(meta, "guest_language")) ==>
      r == Labels(ToJsString(config.seeMoreText), ToJsString(config.showLessText),
                  ToJsString(config.participationDateText), ToJsString(config.writtenDateText))
  {
    if Truthy(Get(meta, "guest_language")) then
      Labels(ToJsString(config.seeMoreText), ToJsString(config.showLessText),
             ToJsString(config.participationDateText), ToJsString(config.writtenDateText))
    else current
  }

  /** With the settings left out of the configuration, a guest-language review shows empty labels. */
  lemma UnsetSettingsBlankLabels(current: Labels, meta: Value, raw: Value)
    requires !Nullish(meta) && !Nullish(raw) && Truthy(Get(meta, "guest_language"))
    requires !Truthy(Get(raw, "seeMoreText")) && !Truthy(Get(raw, "showLessText"))
    requires !Truthy(Get(raw, "participationDateText")) && !Truthy(Get(raw, "writtenDateText"))
    ensures var config := ReviewConfig(OrEmpty(raw, "seeMoreText"), OrEmpty(raw, "showLessText"),
                                       OrEmpty(raw, "participationDateText"), OrEmpty(raw, "writtenDateText"),
                                       OrEmpty(raw, "supplierName"), map[]);
            LabelsFor(current, meta, config) == Labels("", "", "", "")
  {
  }

  // ---------------------------------------------------------------------
  // Number conversion (`i < rate` compares a number with a string)

  /** The numbers `Number(text)` can produce in this model. */
  datatype Number = NaN | Finite(r: real) | PosInfinity | NegInfinity

  /** The first `.` in `t`. */
  function DotIndex(t: string): (k: Option<nat>)
    ensures k.None? ==> forall j :: 0 <= j < |t| ==> t[j] != '.'
    ensures k.Some? ==> k.value < |t| && t[k.value] == '.' && forall j :: 0 <= j < k.value ==> t[j] != '.'
    decreases |t|
  {
    if t == [] then None
    else if t[0] == '.' then Some(0)
    else match DotIndex(t[1..])
      case None => None
      case Some(k) => Some(k + 1)
  }

  /** Digits with an optional fraction part: `12`, `12.`, `12.5` or `.5`. */
  predicate DecimalText(t: string) {
    match DotIndex(t)
    case None => |t| >= 1 && AllDigits(t)
    case Some(k) => |t| >= 2 && AllDigits(t[..k]) && AllDigits(t[k + 1..])
  }

  function Pow10(n: nat): (p: nat)
    ensures p >= 1
  {
    if n == 0 then 1 else 10 * Pow10(n - 1)
  }

  function DecimalValue(t: string): (v: real)
    requires DecimalText(t)
    ensures v >= 0.0
  {
    match DotIndex(t)
    case None => DigitsValue(t) as real
    case Some(k) => DigitsValue(t[..k]) as real + (DigitsValue(t[k + 1..]) as real) / (Pow10(|t| - k - 1) as real)
  }

  /** `Infinity` or a decimal after the optional sign; anything else is NaN. */
  function UnsignedNumber(body: string, negative: bool): (x: Number)
    ensures x.Finite? ==> DecimalText(body) && (negative ==> x.r <= 0.0) && (!negative ==> x.r >= 0.0)
  {
    if body == "Infinity" then (if negative then NegInfinity else PosInfinity)
    else if DecimalText(body) then Finite(if negative then -DecimalValue(body) else DecimalValue(body))
    else NaN
  }

  /**
   * `Number(text)`: surrounding white space is ignored, the empty string is
   * 0, an optional sign precedes `Infinity` or a decimal, anything else is NaN.
   */
  function ToNumber(text: string): Number {
    var t := Trim(text);
    if t == "" then Finite(0.0)
    else if t[0] == '-' then UnsignedNumber(t[1..], true)
    else if t[0] == '+' then UnsignedNumber(t[1..], false)
    else UnsignedNumber(t, false)
  }

  /** A blank text (only white space, or nothing) converts to 0. */
  lemma BlankIsZero(text: string)
    requires AllSpace(text)
    ensures ToNumber(text) == Finite(0.0)
  {
    TrimEmptyIff(text);
  }

  lemma {:induction false} NoDotInDigits(s: string)
    requires AllDigits(s)
    ensures DotIndex(s).None?
    decreases |s|
  {
    if s != [] {
      NoDotInDigits(s[1..]);
    }
  }

  lemma UnsignedOfDigits(s: string)
    requires |s| >= 1 && AllDigits(s)
    ensures UnsignedNumber(s, false) == Finite(DigitsValue(s) as real)
  {
    NoDotInDigits(s);
    assert IsDigit(s[0]);
    assert s != "Infinity" by { assert s[0] != "Infinity"[0]; }
  }

  /** Text with no white space at either end and no sign converts as it stands. */
  lemma UnsignedWhenPlain(s: string)
    requires s != [] && !IsJsSpace(s[0]) && !IsJsSpace(s[|s| - 1]) && s[0] != '-' && s[0] != '+'
    ensures ToNumber(s) == UnsignedNumber(s, false)
  {
    TrimUntouched(s);
  }

  /** A run of digits converts to its value. */
  lemma NumberOfDigits(s: string)
    requires |s| >= 1 && AllDigits(s)
    ensures ToNumber(s) == Finite(DigitsValue(s) as real)
  {
    DigitNotSpace(s[0]);
    DigitNotSpace(s[|s| - 1]);
    UnsignedWhenPlain(s);
    UnsignedOfDigits(s);
  }

  /** The decimal text of a natural number converts back to that number. */
  lemma NumberOfNatText(n: nat)
    ensures ToNumber(NatToString(n)) == Finite(n as real)
  {
    NumberOfDigits(NatToString(n));
    NatToStringRoundTrip(n);
  }

  /** `i < x` for a number `i` and a converted number `x`; every comparison with NaN is false. */
  predicate Below(i: int, x: Number) {
    match x
    case NaN => false
    case Finite(r) => (i as real) < r
    case PosInfinity => true
    case NegInfinity => false
  }

  // ---------------------------------------------------------------------
  // Stars

  /** The first `count` stars for rating `x`: star `i` is on when `i < x`. */
  function StarSpec(x: Number, count: nat): (stars: seq<bool>)
    ensures |stars| == count
    ensures forall i :: 0 <= i < count ==> (stars[i] <==> Below(i, x))
  {
    if count == 0 then [] else StarSpec(x, count - 1) + [Below(count - 1, x)]
  }

  /** The star loop: five images, each on or off. */
  method StarRow(rate: string) returns (stars: seq<bool>)
    ensures stars == StarSpec(ToNumber(rate), 5)
  {
    var x := ToNumber(rate);
    stars := [];
    for i := 0 to 5
      invariant stars == StarSpec(x, i)
    {
      if Below(i, x) {
        stars := stars + [true];
      } else {
        stars := stars + [false];
      }
    }
  }

  function CountOn(stars: seq<bool>): (n: nat)
    ensures n <= |stars|
  {
    if stars == [] then 0 else CountOn(stars[..|stars| - 1]) + (if stars[|stars| - 1] then 1 else 0)
  }

  function Clamp(n: int, lo: int, hi: int): int
    requires lo <= hi
  {
    if n < lo then lo else if n > hi then hi else n
  }

  /** Counting the row one star at a time. */
  lemma LastStar(x: Number, count: nat)
    requires count > 0
    ensures CountOn(StarSpec(x, count)) == CountOn(StarSpec(x, count - 1)) + (if Below(count - 1, x) then 1 else 0)
  {
    var stars := StarSpec(x, count);
    assert stars[..count - 1] == StarSpec(x, count - 1);
  }

  /** For a whole-number rating `n`, the first `count` stars hold `n` clamped to `[0, count]` lit ones. */
  lemma {:induction false} StarCountOfInteger(n: int, count: nat)
    ensures CountOn(StarSpec(Finite(n as real), count)) == Clamp(n, 0, count)
    decreases count
  {
    if count > 0 {
      var x := Finite(n as real);
      LastStar(x, count);
      assert Below(count - 1, x) <==> count - 1 < n;
      StarCountOfInteger(n, count - 1);
    }
  }

  /** A rating that is not a number lights no star. */
  lemma {:induction false} StarCountOfNaN(count: nat)
    ensures CountOn(StarSpec(NaN, count)) == 0
    decreases count
  {
    if count > 0 {
      LastStar(NaN, count);
      StarCountOfNaN(count - 1);
    }
  }

  // ---------------------------------------------------------------------
  // The rating: `meta.rating.replace('REVIEW_RATING_', '')`

  predicate OccursAt(s: string, p: string, k: nat) {
    k + |p| <= |s| && s[k..k + |p|] == p
  }

  /** The first position at or after `from` where `p` occurs. */
  function FindFrom(s: string, p: string, from: nat): (k: Option<nat>)
    requires from <= |s|
    ensures k.None? ==> forall j :: from <= j <= |s| ==> !OccursAt(s, p, j)
    ensures k.Some? ==> from <= k.value && OccursAt(s, p, k.value)
                        && forall j :: from <= j < k.value ==> !OccursAt(s, p, j)
    decreases |s| - from
  {
    if OccursAt(s, p, from) then Some(from)
    else if from == |s| then None
    else FindFrom(s, p, from + 1)
  }

  /** `String.prototype.replace` with a string pattern: only the first occurrence is replaced. */
  function ReplaceFirst(s: string, p: string, replacement: string): (r: string)
    ensures (forall j :: 0 <= j <= |s| ==> !OccursAt(s, p, j)) ==> r == s
    ensures forall k :: 0 <= k <= |s| && OccursAt(s, p, k) && (forall j :: 0 <= j < k ==> !OccursAt(s, p, j))
                        ==> r == s[..k] + replacement + s[k + |p|..]
  {
    match FindFrom(s, p, 0)
    case None => s
    case Some(k) => s[..k] + replacement + s[k + |p|..]
  }

  const RatingPrefix: string := "REVIEW_RATING_"

  /** The rating string of the meta data with its prefix removed. */
  function RateText(rating: string): string {
    ReplaceFirst(rating, RatingPrefix, "")
  }

  /** A rating of the form `REVIEW_RATING_<rest>` yields `<rest>`. */
  lemma RateTextOfPrefixed(rest: string)
    ensures RateText(RatingPrefix + rest) == rest
  {
    var s := RatingPrefix + rest;
    assert OccursAt(s, RatingPrefix, 0) by { assert s[..14] == RatingPrefix; }
    assert s[14..] == rest;
  }

  /** What a truthy `meta.rating` puts on the card: the star row and the number text. */
  datatype RatingView = RatingView(stars: seq<bool>, numberText: string)

  /**
   * The rating part of the card. A rating that is not a string has no
   * `replace` method: the call throws (`None`).
   */
  function RatingFor(rating: Value): (v: Option<RatingView>)
    requires Truthy(rating)
    ensures v.None? <==> !rating.Str?
    ensures v.Some? ==> |v.value.stars| == 5 && v.value.numberText == RateText(rating.s)
    ensures v.Some? ==> v.value.stars == StarSpec(ToNumber(RateText(rating.s)), 5)
  {
    if rating.Str? then Some(RatingView(StarSpec(ToNumber(RateText(rating.s)), 5), RateText(rating.s)))
    else None
  }

  /**
   * `REVIEW_RATING_<n>` shows `n` as its number and `n` clamped to 5 lit stars out of five.
   */
  lemma RatingOfLevel(n: nat)
    ensures var v := RatingFor(Str(RatingPrefix + NatToString(n)));
            v.Some? && v.value.numberText == NatToString(n)
            && CountOn(v.value.stars) == (if n > 5 then 5 else n)
  {
    RateTextOfPrefixed(NatToString(n));
    NumberOfNatText(n);
    StarCountOfInteger(n, 5);
  }

  // ---------------------------------------------------------------------
  // Other texts

  /**
   * The participation line: the label, a colon and the first seven
   * characters (year and month of an ISO date) of the value, which must be a
   * string to have `substring`.
   */
  function ParticipationText(caption: string, value: Value): (t: Option<string>)
    requires Truthy(value)
    ensures t.None? <==> !value.Str?
    ensures t.Some? ==> t.value == caption + ":" + value.s[..if |value.s| < 7 then |value.s| else 7]
  {
    if value.Str? then
      var s := value.s;
      Some(caption + ":" + s[..if |s| < 7 then |s| else 7])
    else None
  }

  /** The participation line keeps exactly the first seven characters, all of a shorter value. */
  lemma ParticipationKeepsPrefix(caption: string, s: string)
    requires s != ""
    ensures var t := ParticipationText(caption, Str(s)).value;
            var n := if |s| < 7 then |s| else 7;
            |t| == |caption| + 1 + n && t[..|caption| + 1] == caption + ":" && t[|caption| + 1..] == s[..n]
  {
    var n := if |s| < 7 then |s| else 7;
    var t := caption + ":" + s[..n];
    assert t[..|caption| + 1] == caption + ":";
    assert t[|caption| + 1..] == s[..n];
  }

  /** The attribution line: the configured text for the key `String(meta.attribution)`, empty when none is configured. */
  function AttributionText(attribution: map<string, Value>, value: Value): (t: string)
    ensures ToJsString(value) !in attribution ==> t == ""
    ensures ToJsString(value) in attribution ==> t == TextContent(attribution[ToJsString(value)])
  {
    var key := ToJsString(value);
    if key in attribution then TextContent(attribution[key]) else ""
  }

  /**
   * With no attribution configured every review shows an empty line; a
   * string configured for the key `String(value)` is shown as it is.
   */
  lemma AttributionLookup(value: Value, text: string)
    ensures AttributionText(map[], value) == ""
    ensures AttributionText(map[ToJsString(value) := Str(text)], value) == text
  {
  }

  /** The reviewer's icon letter: the first character of the nickname, which must be a string. */
  function Initial(nickname: Value): (c: Option<string>)
    requires Truthy(nickname)
    ensures c.None? <==> !nickname.Str?
    ensures c.Some? ==> |c.value| == 1 && c.value[0] == nickname.s[0]
  {
    if nickname.Str? then Some(nickname.s[..1]) else None
  }

  // ---------------------------------------------------------------------
  // Written date

  /** The UTC components of a parsed date (month counted from 0), or an invalid date. */
  datatype UtcDate = InvalidDate | UtcDate(year: int, month0: nat, day: nat)

  predicate WellFormedDate(d: UtcDate) {
    d.UtcDate? ==> d.month0 < 12 && 1 <= d.day <= 31
  }

  /** `year/month/day` with the components given; `NaN` for each of them on an invalid date. */
  function DateLine(d: UtcDate, month: nat): string {
    if d.InvalidDate? then "NaN/NaN/NaN"
    else IntToString(d.year) + "/" + NatToString(month) + "/" + NatToString(d.day)
  }

  /** The written-date line as the card builds it: `getUTCMonth()` as it is, counted from 0. */
  function WrittenDateAsWritten(caption: string, d: UtcDate): (t: string)
    requires WellFormedDate(d)
    ensures d.InvalidDate? ==> t == caption + ":NaN/NaN/NaN"
  {
    caption + ":" + (if d.InvalidDate? then "NaN/NaN/NaN" else DateLine(d, d.month0))
  }

  /** The written-date line with the calendar month number (1 to 12). */
  function WrittenDate(caption: string, d: UtcDate): (t: string)
    requires WellFormedDate(d)
    ensures d.InvalidDate? ==> t == caption + ":NaN/NaN/NaN"
  {
    caption + ":" + (if d.InvalidDate? then "NaN/NaN/NaN" else DateLine(d, d.month0 + 1))
  }

  /** The first `/` in `s`. */
  function SlashIndex(s: string): (k: Option<nat>)
    ensures k.Some? ==> k.value < |s| && s[k.value] == '/'
    decreases |s|
  {
    if s == [] then None
    else if s[0] == '/' then Some(0)
    else match SlashIndex(s[1..])
      case None => None
      case Some(k) => Some(k + 1)
  }

  lemma {:induction false} SlashAfterDigits(a: string, rest: string)
    requires AllDigits(a)
    ensures SlashIndex(a + "/" + rest) == Some(|a|)
    decreases |a|
  {
    if a != [] {
      assert (a + "/" + rest)[1..] == a[1..] + "/" + rest;
      SlashAfterDigits(a[1..], rest);
    }
  }

  /** Reads a `year/month/day` line of non-negative numbers back into its three numbers. */
  function ReadDateLine(s: string): Option<(nat, nat, nat)> {
    match SlashIndex(s)
    case None => None
    case Some(i) =>
      var rest := s[i + 1..];
      match SlashIndex(rest)
      case None => None
      case Some(j) =>
        var y, m, d := s[..i], rest[..j], rest[j + 1..];
        if AllDigits(y) && AllDigits(m) && AllDigits(d) then Some((DigitsValue(y), DigitsValue(m), DigitsValue(d)))
        else None
  }

  lemma DateLineReadsBack(date: UtcDate, month: nat)
    requires date.UtcDate? && date.year >= 0
    ensures ReadDateLine(DateLine(date, month)) == Some((date.year as nat, month, date.day))
  {
    var year, day := date.year as nat, date.day;
    var y, m, d := NatToString(year), NatToString(month), NatToString(day);
    var s := y + "/" + m + "/" + d;
    assert DateLine(date, month) == s;
    SlashAfterDigits(y, m + "/" + d);
    assert s == y + "/" + (m + "/" + d);
    assert s[|y| + 1..] == m + "/" + d;
    assert s[..|y|] == y;
    SlashAfterDigits(m, d);
    assert (m + "/" + d)[..|m|] == m;
    assert (m + "/" + d)[|m| + 1..] == d;
    NatToStringRoundTrip(year);
    NatToStringRoundTrip(month);
    NatToStringRoundTrip(day);
  }

  lemma AfterCaption(caption: string, line: string)
    ensures |caption + ":" + line| > |caption| && (caption + ":" + line)[|caption| + 1..] == line
  {
  }

  /**
   * After the label and colon, the corrected line reads back as the year,
   * the calendar month (1 to 12) and the day.
   */
  lemma WrittenDateReadsCalendarMonth(caption: string, year: nat, month0: nat, day: nat)
    requires month0 < 12 && 1 <= day <= 31
    ensures var t := WrittenDate(caption, UtcDate(year, month0, day));
            |t| > |caption| && ReadDateLine(t[|caption| + 1..]) == Some((year, month0 + 1, day))
            && 1 <= month0 + 1 <= 12
  {
    var line := DateLine(UtcDate(year, month0, day), month0 + 1);
    DateLineReadsBack(UtcDate(year, month0, day), month0 + 1);
    assert WrittenDate(caption, UtcDate(year, month0, day)) == caption + ":" + line;
    AfterCaption(caption, line);
  }

  /**
   * As the card builds it, the line reads back as the year, the month counted
   * from 0 (one below the month `WrittenDateReadsCalendarMonth` reads) and the day.
   */
  lemma AsWrittenReadsMonthFromZero(caption: string, year: nat, month0: nat, day: nat)
    requires month0 < 12 && 1 <= day <= 31
    ensures var t := WrittenDateAsWritten(caption, UtcDate(year, month0, day));
            |t| > |caption| && ReadDateLine(t[|caption| + 1..]) == Some((year, month0, day))
  {
    var line := DateLine(UtcDate(year, month0, day), month0);
    DateLineReadsBack(UtcDate(year, month0, day), month0);
    assert WrittenDateAsWritten(caption, UtcDate(year, month0, day)) == caption + ":" + line;
    AfterCaption(caption, line);
  }

  /** As the card builds it, a January date shows month 0, which is no calendar month. */
  lemma AsWrittenJanuaryReadsZero(caption: string, year: nat, day: nat)
    requires 1 <= day <= 31
    ensures var t := WrittenDateAsWritten(caption, UtcDate(year, 0, day));
            |t| > |caption| && ReadDateLine(t[|caption| + 1..]) == Some((year, 0, day))
  {
    AsWrittenReadsMonthFromZero(caption, year, 0, day);
  }
}
