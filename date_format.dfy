/**
 * The relay's `dateFormat(fmt, date)`: for each pattern letter Y, m, d, H, M, S
 * in that order, the leftmost maximal run of the letter in the format string is
 * replaced by the matching date field, left-padded with '0' to the run's length
 * when the run is longer than one character.
 */
module DateFormatting {
  import opened Wrappers
  import opened Decimal
  import opened Text

  /**
   * The fields dateFormat reads from its `Date`: full year, month counted from 1
   * (`getMonth() + 1`), day of month, hours, minutes and seconds, in local time.
   */
  datatype DateFields = DateFields(year: nat, month: nat, day: nat, hours: nat, minutes: nat, seconds: nat)

  /** The pattern letters of the option table, in the order the for-in loop visits them. */
  const Letters: seq<char> := ['Y', 'm', 'd', 'H', 'M', 'S']

  /** `opt[k]`: the text of the field that pattern letter `Letters[k]` stands for. */
  function FieldText(date: DateFields, k: nat): (r: string)
    requires k < |Letters|
    ensures |r| >= 1 && AllDigits(r)
  {
    var fields := [date.year, date.month, date.day, date.hours, date.minutes, date.seconds];
    NatToString(fields[k])
  }

  /** A match of the pattern `c+`: it starts at `start` and is `len` characters long. */
  datatype Run = Run(start: nat, len: nat)

  /** `run` is the leftmost maximal run of `c` in `s`: what the regex `(c+)` matches. */
  ghost predicate IsFirstRun(s: string, c: char, run: Run) {
    && run.len >= 1
    && run.start + run.len <= |s|
    && (forall i :: 0 <= i < run.start ==> s[i] != c)
    && (forall i :: run.start <= i < run.start + run.len ==> s[i] == c)
    && (run.start + run.len == |s| || s[run.start + run.len] != c)
  }

  /** The end of the run of `c` that starts at `i`. */
  function RunEnd(s: string, c: char, i: nat): (e: nat)
    requires i <= |s|
    ensures i <= e <= |s|
    ensures forall j :: i <= j < e ==> s[j] == c
    ensures e == |s| || s[e] != c
    decreases |s| - i
  {
    if i == |s| || s[i] != c then i else RunEnd(s, c, i + 1)
  }

  function FirstRunFrom(s: string, c: char, i: nat): (r: Option<Run>)
    requires i <= |s|
    ensures r.None? ==> forall j :: i <= j < |s| ==> s[j] != c
    ensures r.Some? ==> r.value.start < |s| && s[r.value.start] == c
    ensures r.Some? ==> i <= r.value.start && r.value.len >= 1 && r.value.start + r.value.len <= |s|
    ensures r.Some? ==> forall j :: i <= j < r.value.start ==> s[j] != c
    ensures r.Some? ==> forall j :: r.value.start <= j < r.value.start + r.value.len ==> s[j] == c
    ensures r.Some? ==> r.value.start + r.value.len == |s| || s[r.value.start + r.value.len] != c
    decreases |s| - i
  {
    if i == |s| then None
    else if s[i] == c then Some(Run(i, RunEnd(s, c, i) - i))
    else FirstRunFrom(s, c, i + 1)
  }

  /**
   * `new RegExp("(" + c + "+)").exec(s)`: no match when `c` does not occur in `s`,
   * otherwise the leftmost, greedy run of `c`.
   */
  function FirstRun(s: string, c: char): (r: Option<Run>)
    ensures r.None? <==> forall i :: 0 <= i < |s| ==> s[i] != c
    ensures r.Some? ==> IsFirstRun(s, c, r.value)
  {
    FirstRunFrom(s, c, 0)
  }

  /**
   * The text a run of length `width` is replaced by: the field as it is for a
   * one-letter run, else the field left-padded with '0' to the run's length.
   * Padding never truncates: the field's own text always ends the result.
   */
  function Render(field: string, width: nat): (r: string)
    ensures width == 1 ==> r == field
    ensures width != 1 ==> |r| == if |field| >= width then |field| else width
    ensures |r| >= |field| && r[|r| - |field|..] == field
    ensures forall i :: 0 <= i < |r| - |field| ==> r[i] == '0'
  {
    if width == 1 then field else PadStart(field, width, '0')
  }

  /**
   * `fmt.replace(ret[1], ...)`: the first occurrence of the matched text is
   * replaced by the field rendered to the run's length.
   */
  function ReplaceRun(s: string, run: Run, field: string): string
    requires run.start + run.len <= |s|
  {
    Replace(s, s[run.start..run.start + run.len], Render(field, run.len))
  }

  /** One turn of the for-in loop: rewrite the first run of `c` in `s` with `field`. */
  function Step(s: string, c: char, field: string): string {
    match FirstRun(s, c)
    case None => s
    case Some(run) => ReplaceRun(s, run, field)
  }

  /** The format string after the first `k` turns of the loop. */
  function FormatUpTo(fmt: string, date: DateFields, k: nat): string
    requires k <= |Letters|
  {
    if k == 0 then fmt else Step(FormatUpTo(fmt, date, k - 1), Letters[k - 1], FieldText(date, k - 1))
  }

  /** What dateFormat returns. */
  function Format(fmt: string, date: DateFields): string {
    FormatUpTo(fmt, date, |Letters|)
  }

  /** dateFormat itself: the for-in loop over the option table, reassigning the format string. */
  method DateFormat(fmt: string, date: DateFields) returns (r: string)
    ensures r == Format(fmt, date)
  {
    r := fmt;
    for k := 0 to |Letters|
      invariant r == FormatUpTo(fmt, date, k)
    {
      var ret := FirstRun(r, Letters[k]);
      if ret.Some? {
        r := ReplaceRun(r, ret.value, FieldText(date, k));
      }
    }
  }

  /**
   * A step rewrites exactly the first run of its letter: what precedes the run
   * and everything after it (later runs of the same letter included) is kept
   * verbatim; a format without the letter is left as it is.
   */
  lemma StepRewritesFirstRun(s: string, c: char, field: string)
    ensures FirstRun(s, c).None? ==> Step(s, c, field) == s
    ensures FirstRun(s, c).Some? ==>
      var run := FirstRun(s, c).value;
      Step(s, c, field) == s[..run.start] + Render(field, run.len) + s[run.start + run.len..]
  {
    if FirstRun(s, c).Some? {
      var run := FirstRun(s, c).value;
      RunIsFirstOccurrence(s, c, run);
      assert Step(s, c, field) == ReplaceRun(s, run, field);
    }
  }

  /**
   * `fmt.replace(ret[1], ...)` finds the matched text where the regex matched it:
   * the first occurrence of the leftmost run is that run.
   */
  lemma RunIsFirstOccurrence(s: string, c: char, run: Run)
    requires IsFirstRun(s, c, run)
    ensures IndexOf(s, s[run.start..run.start + run.len]) == Some(run.start)
  {
    var matched := s[run.start..run.start + run.len];
    assert matched[0] == c;
    forall j | 0 <= j < run.start
      ensures !OccursAt(s, matched, j)
    {
      NotOccursAt(s, matched, j);
    }
    IndexOfIsFirstOccurrence(s, matched, run.start);
  }

  /** The leftmost maximal run is determined by the string: two such runs are the same. */
  lemma FirstRunUnique(s: string, c: char, a: Run, b: Run)
    requires IsFirstRun(s, c, a) && IsFirstRun(s, c, b)
    ensures a == b
  {
    assert s[a.start] == c && s[b.start] == c;
    assert a.start + a.len < |s| ==> s[a.start + a.len] != c;
    assert b.start + b.len < |s| ==> s[b.start + b.len] != c;
  }

  /**
   * A format laid out as `pre`, a run of `k` letters `c`, then `post` (which
   * does not continue the run) is rewritten to `pre`, the rendered field, then
   * `post`, whatever further runs of `c` `post` contains.
   */
  lemma StepAt(pre: string, c: char, k: nat, post: string, field: string)
    requires k >= 1
    requires forall i :: 0 <= i < |pre| ==> pre[i] != c
    requires post == [] || post[0] != c
    ensures Step(pre + Repeat(c, k) + post, c, field) == pre + Render(field, k) + post
  {
    var s := pre + Repeat(c, k) + post;
    var expected := Run(|pre|, k);
    assert IsFirstRun(s, c, expected) by {
      assert forall i :: 0 <= i < |pre| ==> s[i] == pre[i];
      assert forall i :: |pre| <= i < |pre| + k ==> s[i] == Repeat(c, k)[i - |pre|];
      assert |pre| + k < |s| ==> s[|pre| + k] == post[0];
    }
    assert s[|pre|] == c;
    FirstRunUnique(s, c, FirstRun(s, c).value, expected);
    StepRewritesFirstRun(s, c, field);
    assert s[..|pre|] == pre;
    assert s[|pre| + k..] == post;
  }

  /** A string with none of the letters passes through a step unchanged. */
  lemma StepWithoutLetter(s: string, c: char, field: string)
    requires forall i :: 0 <= i < |s| ==> s[i] != c
    ensures Step(s, c, field) == s
  {
  }

  /** Characters other than the pattern letters are never rewritten: a format without them comes back unchanged. */
  lemma {:induction false} FormatWithoutLetters(fmt: string, date: DateFields, k: nat)
    requires k <= |Letters|
    requires forall i :: 0 <= i < |fmt| ==> fmt[i] !in Letters
    ensures FormatUpTo(fmt, date, k) == fmt
  {
    if k > 0 {
      FormatWithoutLetters(fmt, date, k - 1);
      StepWithoutLetter(fmt, Letters[k - 1], FieldText(date, k - 1));
    }
  }

  /** The field texts dateFormat inserts are made of decimal digits. */
  lemma RenderIsDigits(v: nat, width: nat)
    ensures AllDigits(Render(NatToString(v), width))
  {
    var field := NatToString(v);
    var r := Render(field, width);
    forall i | |r| - |field| <= i < |r|
      ensures IsDigit(r[i])
    {
      assert r[i] == r[|r| - |field|..][i - (|r| - |field|)];
    }
  }

  /** A string of digits holds none of the pattern letters. */
  lemma DigitsHoldNoLetter(s: string, c: char)
    requires AllDigits(s) && c in Letters
    ensures forall i :: 0 <= i < |s| ==> s[i] != c
  {
  }

  /** Turn `k` of the loop rewrites the result of the turns before it. */
  lemma FormatUpToNext(fmt: string, date: DateFields, k: nat)
    requires k < |Letters|
    ensures FormatUpTo(fmt, date, k + 1) == Step(FormatUpTo(fmt, date, k), Letters[k], FieldText(date, k))
  {
  }

  /**
   * Turn `k` of the loop on a format that reads: digits, a run of `n` letters
   * `Letters[k]`, then text that does not continue the run. The run becomes the
   * field rendered to `n` places and the rest is kept.
   */
  lemma TurnAt(fmt: string, date: DateFields, k: nat, pre: string, rest: string, n: nat, post: string)
    requires k < |Letters| && n >= 1
    requires FormatUpTo(fmt, date, k) == pre + rest && rest == Repeat(Letters[k], n) + post
    requires AllDigits(pre)
    requires post == [] || post[0] != Letters[k]
    ensures FormatUpTo(fmt, date, k + 1) == pre + Render(FieldText(date, k), n) + post
  {
    assert pre + rest == pre + Repeat(Letters[k], n) + post;
    DigitsHoldNoLetter(pre, Letters[k]);
    StepAt(pre, Letters[k], n, post, FieldText(date, k));
    FormatUpToNext(fmt, date, k);
  }

  /** Once the format is all digits, the remaining turns find nothing to rewrite. */
  lemma {:induction false} DigitsStay(fmt: string, date: DateFields, k: nat, s: string)
    requires k <= |Letters|
    requires FormatUpTo(fmt, date, k) == s && AllDigits(s)
    ensures Format(fmt, date) == s
    decreases |Letters| - k
  {
    if k < |Letters| {
      DigitsHoldNoLetter(s, Letters[k]);
      StepWithoutLetter(s, Letters[k], FieldText(date, k));
      FormatUpToNext(fmt, date, k);
      DigitsStay(fmt, date, k + 1, s);
    }
  }

  /** The texts of the year, month and day fields, the first three in the option table. */
  lemma DateFieldTexts(date: DateFields)
    ensures FieldText(date, 0) == NatToString(date.year)
    ensures FieldText(date, 1) == NatToString(date.month)
    ensures FieldText(date, 2) == NatToString(date.day)
  {
  }

  /** The stamp after the year's turn. */
  lemma YmdAfterYear(date: DateFields)
    ensures FormatUpTo("YYYYmmdd", date, 1) == Render(NatToString(date.year), 4) + "mmdd"
  {
    var fmt := "YYYYmmdd";
    var y := Render(FieldText(date, 0), 4);
    DateFieldTexts(date);
    assert FormatUpTo(fmt, date, 0) == [] + fmt;
    TurnAt(fmt, date, 0, [], fmt, 4, "mmdd");
    assert [] + y == y;
  }

  /** The month's turn, on the stamp as the year's turn left it. */
  lemma YmdAfterMonth(fmt: string, date: DateFields)
    requires FormatUpTo(fmt, date, 1) == Render(NatToString(date.year), 4) + "mmdd"
    ensures FormatUpTo(fmt, date, 2) ==
      Render(NatToString(date.year), 4) + Render(NatToString(date.month), 2) + "dd"
  {
    var y := Render(NatToString(date.year), 4);
    DateFieldTexts(date);
    RenderIsDigits(date.year, 4);
    TurnAt(fmt, date, 1, y, "mmdd", 2, "dd");
  }

  /** The day's turn, on the stamp as the month's turn left it. */
  lemma YmdAfterDay(fmt: string, date: DateFields)
    requires FormatUpTo(fmt, date, 2) ==
      Render(NatToString(date.year), 4) + Render(NatToString(date.month), 2) + "dd"
    ensures FormatUpTo(fmt, date, 3) ==
      Render(NatToString(date.year), 4) + Render(NatToString(date.month), 2) + Render(NatToString(date.day), 2)
  {
    var ym := Render(NatToString(date.year), 4) + Render(NatToString(date.month), 2);
    RenderIsDigits(date.year, 4);
    RenderIsDigits(date.month, 2);
    DigitsConcat(Render(NatToString(date.year), 4), Render(NatToString(date.month), 2));
    DateFieldTexts(date);
    TurnAt(fmt, date, 2, ym, "dd", 2, []);
    assert ym + Render(NatToString(date.day), 2) + [] == ym + Render(NatToString(date.day), 2);
  }

  /**
   * The stamp the relay builds at start-up, dateFormat('YYYYmmdd', now): the year
   * rendered to four places, then month and day each rendered to two.
   */
  lemma YmdLayout(date: DateFields)
    ensures Format("YYYYmmdd", date) ==
      Render(NatToString(date.year), 4) + Render(NatToString(date.month), 2) + Render(NatToString(date.day), 2)
  {
    var y, m, d := Render(NatToString(date.year), 4), Render(NatToString(date.month), 2), Render(NatToString(date.day), 2);
    YmdAfterYear(date);
    YmdAfterMonth("YYYYmmdd", date);
    YmdAfterDay("YYYYmmdd", date);
    RenderIsDigits(date.year, 4);
    RenderIsDigits(date.month, 2);
    RenderIsDigits(date.day, 2);
    DigitsConcat(y, m);
    DigitsConcat(y + m, d);
    DigitsStay("YYYYmmdd", date, 3, y + m + d);
  }

  /** The stamp is always a string of at least eight digits, so `parseInt` reads all of it. */
  lemma YmdIsDigits(date: DateFields)
    ensures AllDigits(Format("YYYYmmdd", date)) && |Format("YYYYmmdd", date)| >= 8
  {
    YmdLayout(date);
    RenderIsDigits(date.year, 4);
    RenderIsDigits(date.month, 2);
    RenderIsDigits(date.day, 2);
  }

  /** A two-digit field rendered to width two extends a positive number by two decimal places. */
  lemma AppendTwoPlaces(a: nat, b: nat)
    requires a >= 1 && b < 100
    ensures NatToString(a * 100 + b) == NatToString(a) + Render(NatToString(b), 2)
  {
    var hi, lo := b / 10, b % 10;
    var ah := a * 10 + hi;
    assert NatToString(ah) == NatToString(a) + [DigitChar(hi)] by {
      NatToStringAppendDigit(a, hi);
    }
    assert NatToString(a * 100 + b) == NatToString(ah) + [DigitChar(lo)] by {
      NatToStringAppendDigit(ah, lo);
      assert ah * 10 + lo == a * 100 + b;
    }
    TwoPlaces(b);
    assert NatToString(a) + [DigitChar(hi)] + [DigitChar(lo)] == NatToString(a) + [DigitChar(hi), DigitChar(lo)];
  }

  /** A number below 100 rendered to width two is its tens digit, then its units digit. */
  lemma TwoPlaces(b: nat)
    requires b < 100
    ensures Render(NatToString(b), 2) == [DigitChar(b / 10), DigitChar(b % 10)]
  {
    var hi, lo := b / 10, b % 10;
    var field, r := NatToString(b), Render(NatToString(b), 2);
    if b < 10 {
      assert hi == 0 && lo == b;
      assert field == [DigitChar(lo)];
      assert DigitChar(hi) == '0';
      assert |r| == 2 && r[0] == '0' && r[1..] == field;
    } else {
      assert hi < 10;
      assert NatToString(hi) == [DigitChar(hi)];
      assert field == [DigitChar(hi)] + [DigitChar(lo)];
      assert |r| == 2 && r[0..] == field;
    }
    assert r == [DigitChar(hi), DigitChar(lo)];
  }

  /** A year of four or more digits fills its four-letter run without padding. */
  lemma WideYearUnpadded(year: nat)
    requires year >= 1000
    ensures Render(NatToString(year), 4) == NatToString(year)
  {
    assert Pow10(3) == 1000;
    NatToStringLongerThan(year, 3);
  }

  /**
   * A year of four or more digits rendered to four places, then a month and a
   * day below 100 rendered to two, spell the number `y * 10000 + m * 100 + d`.
   */
  lemma LayoutAsNumber(y: nat, m: nat, d: nat)
    requires y >= 1000 && m < 100 && d < 100
    ensures Render(NatToString(y), 4) + Render(NatToString(m), 2) + Render(NatToString(d), 2)
      == NatToString(y * 10000 + m * 100 + d)
  {
    var ym := y * 100 + m;
    AppendTwoPlaces(y, m);
    AppendTwoPlaces(ym, d);
    WideYearUnpadded(y);
    assert ym * 100 + d == y * 10000 + m * 100 + d;
  }

  /**
   * For a year of four or more digits and a month and day below 100, the stamp is
   * the decimal text of `year * 10000 + month * 100 + day`, so `parseInt` followed
   * by printing the number gives back the stamp.
   */
  lemma YmdAsNumber(date: DateFields)
    requires date.year >= 1000 && date.month < 100 && date.day < 100
    ensures Format("YYYYmmdd", date) == NatToString(date.year * 10000 + date.month * 100 + date.day)
    ensures ParseDecimal(Format("YYYYmmdd", date)) == date.year * 10000 + date.month * 100 + date.day
  {
    YmdLayout(date);
    LayoutAsNumber(date.year, date.month, date.day);
    ParseNatToString(date.year * 10000 + date.month * 100 + date.day);
  }

  /** For a four-digit year the stamp is exactly eight digits long. */
  lemma YmdLength(date: DateFields)
    requires 1000 <= date.year < 10000 && date.month < 100 && date.day < 100
    ensures |Format("YYYYmmdd", date)| == 8
  {
    YmdLayout(date);
    WideYearUnpadded(date.year);
    assert Pow10(4) == 10000 && Pow10(2) == 100;
    NatToStringAtMost(date.year, 4);
    NatToStringAtMost(date.month, 2);
    NatToStringAtMost(date.day, 2);
  }

  /** The fields of 7 March 2024, rendered as the stamp renders them. */
  lemma StampFields()
    ensures Render(NatToString(2024), 4) + Render(NatToString(3), 2) + Render(NatToString(7), 2) == "20240307"
  {
    WideYearUnpadded(2024);
    assert NatToString(2024) == "2024";
    TwoPlaces(3);
    TwoPlaces(7);
    assert DigitChar(0) == '0' && DigitChar(3) == '3' && DigitChar(7) == '7';
  }

  /** Any time on 7 March 2024 gives the stamp "20240307". */
  lemma StampExample(date: DateFields)
    requires date.year == 2024 && date.month == 3 && date.day == 7
    ensures Format("YYYYmmdd", date) == "20240307"
  {
    YmdLayout(date);
    StampFields();
  }

}
