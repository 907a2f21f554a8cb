/**
 * The three transcript scans on a representative supplier answer. The general facts first: a
 * scan that starts at some position never looks at the text before it, so the text in front of
 * a piece can be cut away, and pieces in which no match starts can be passed over. The answer is
 * then taken apart piece by piece.
 */
module ExtractorSample {
  import opened Wrappers
  import opened Text
  import opened Extractor

  // ---------------------------------------------------------------------------------------
  // The scans read nothing before their start
  // ---------------------------------------------------------------------------------------

  lemma {:induction false} DigitRunEndShift(a: string, t: string, j: nat)
    requires j <= |t|
    ensures DigitRunEnd(a + t, |a| + j) == |a| + DigitRunEnd(t, j)
    decreases |t| - j
  {
    if j < |t| && IsDigit(t[j]) {
      DigitRunEndShift(a, t, j + 1);
    }
  }

  lemma {:induction false} SpaceRunEndShift(a: string, t: string, j: nat)
    requires j <= |t|
    ensures SpaceRunEnd(a + t, |a| + j) == |a| + SpaceRunEnd(t, j)
    decreases |t| - j
  {
    if j < |t| && IsSpace(t[j]) {
      SpaceRunEndShift(a, t, j + 1);
    }
  }

  lemma {:induction false} FirstDigitFromShift(a: string, t: string, j: nat)
    requires j <= |t|
    ensures FirstDigitFrom(a + t, |a| + j) == |a| + FirstDigitFrom(t, j)
    decreases |t| - j
  {
    if j < |t| && !IsDigit(t[j]) {
      FirstDigitFromShift(a, t, j + 1);
    }
  }

  lemma {:induction false} MatchCIFromShift(a: string, t: string, j: nat, p: string, k: nat)
    ensures MatchCIFrom(a + t, |a| + j, p, k) == MatchCIFrom(t, j, p, k)
    decreases |p| - k
  {
    if k < |p| {
      MatchCIFromShift(a, t, j, p, k + 1);
    }
  }

  lemma {:induction false} RunValueShift(a: string, t: string, i: nat, e: nat)
    requires i <= e <= |t|
    ensures RunValue(a + t, |a| + i, |a| + e) == RunValue(t, i, e)
    decreases e - i
  {
    if e > i {
      RunValueShift(a, t, i, e - 1);
    }
  }

  lemma KeywordEndShift(a: string, t: string, j: nat)
    requires j <= |t|
    ensures KeywordEnd(a + t, |a| + j) == match KeywordEnd(t, j) case None => None case Some(e) => Some(|a| + e)
  {
    MatchCIFromShift(a, t, j, "moq", 0);
    MatchCIFromShift(a, t, j, "minimum", 0);
    if MatchCI(t, j, "minimum") && !MatchCI(t, j, "moq") {
      assert j + 7 <= |t|;
      SpaceRunEndShift(a, t, j + 7);
      MatchCIFromShift(a, t, SpaceRunEnd(t, j + 7), "order", 0);
    }
  }

  lemma MoqAtShift(a: string, t: string, j: nat)
    requires j <= |t|
    ensures MoqAt(a + t, |a| + j) == MoqAt(t, j)
  {
    KeywordEndShift(a, t, j);
    if KeywordEnd(t, j).Some? {
      var e := KeywordEnd(t, j).value;
      FirstDigitFromShift(a, t, e);
      var d := FirstDigitFrom(t, e);
      if d < |t| {
        DigitRunEndShift(a, t, d);
        RunValueShift(a, t, d, DigitRunEnd(t, d));
      }
    }
  }

  lemma LeadPhraseAtShift(a: string, t: string, q: nat)
    requires q <= |t|
    ensures LeadPhraseAt(a + t, |a| + q) == LeadPhraseAt(t, q)
  {
    MatchCIFromShift(a, t, q, "delivery", 0);
    MatchCIFromShift(a, t, q, "lead", 0);
    if MatchCI(t, q, "lead") {
      SpaceRunEndShift(a, t, q + 4);
      MatchCIFromShift(a, t, SpaceRunEnd(t, q + 4), "time", 0);
    }
  }

  lemma SpacedPhraseAtShift(a: string, t: string, p: nat)
    requires p <= |t|
    ensures SpacedPhraseAt(a + t, |a| + p) == SpacedPhraseAt(t, p)
  {
    SpaceRunEndShift(a, t, p);
    LeadPhraseAtShift(a, t, SpaceRunEnd(t, p));
  }

  lemma DaysEndShift(a: string, t: string, e: nat)
    requires e + 4 <= |t|
    ensures DaysEnd(a + t, |a| + e) == |a| + DaysEnd(t, e)
  {
    if e + 4 < |t| {
      assert (a + t)[|a| + e + 4] == t[e + 4];
    }
  }

  lemma DaysPhraseAtShift(a: string, t: string, e: nat)
    requires e <= |t|
    ensures DaysPhraseAt(a + t, |a| + e) == DaysPhraseAt(t, e)
  {
    if e < |t| {
      assert (a + t)[|a| + e] == t[e];
      MatchCIFromShift(a, t, e + 1, "day", 0);
      if MatchCI(t, e + 1, "day") {
        MatchCIFits(t, e + 1, "day", 0);
        DaysEndShift(a, t, e);
        SpacedPhraseAtShift(a, t, DaysEnd(t, e));
      }
    }
  }

  /** A case-insensitive match of the rest of `p` lies inside the text. */
  lemma {:induction false} MatchCIFits(s: string, i: nat, p: string, k: nat)
    requires k < |p| && MatchCIFrom(s, i, p, k)
    ensures i + |p| <= |s|
    decreases |p| - k
  {
    if k + 1 < |p| {
      MatchCIFits(s, i, p, k + 1);
    }
  }

  lemma LeadTimeAtShift(a: string, t: string, j: nat)
    requires j <= |t|
    ensures LeadTimeAt(a + t, |a| + j) == LeadTimeAt(t, j)
  {
    if j < |t| && IsDigit(t[j]) {
      DigitRunEndShift(a, t, j);
      RunValueShift(a, t, j, DigitRunEnd(t, j));
      DaysPhraseAtShift(a, t, DigitRunEnd(t, j));
    }
  }

  lemma {:induction false} MoqSearchShift(a: string, t: string, j: nat)
    requires j <= |t|
    ensures FirstMatch(a + t, |a| + j, MoqAt) == FirstMatch(t, j, MoqAt)
    decreases |t| - j
  {
    if j < |t| {
      MoqAtShift(a, t, j);
      MoqSearchShift(a, t, j + 1);
    }
  }

  lemma {:induction false} LeadSearchShift(a: string, t: string, j: nat)
    requires j <= |t|
    ensures FirstMatch(a + t, |a| + j, LeadTimeAt) == FirstMatch(t, j, LeadTimeAt)
    decreases |t| - j
  {
    if j < |t| {
      LeadTimeAtShift(a, t, j);
      LeadSearchShift(a, t, j + 1);
    }
  }

  /** A search passes over positions where no match starts. */
  lemma {:induction false} SkipNoMatch<T>(s: string, i: nat, j: nat, at: (string, nat) -> Option<T>)
    requires i <= j <= |s| && forall k :: i <= k < j ==> at(s, k).None?
    ensures FirstMatch(s, i, at) == FirstMatch(s, j, at)
    decreases j - i
  {
    if i < j {
      SkipNoMatch(s, i + 1, j, at);
    }
  }

  /** The MOQ search passes over a piece without an "m". */
  lemma MoqPeel(a: string, t: string)
    requires forall k :: 0 <= k < |a| ==> LowerChar(a[k]) != 'm'
    ensures FirstMatch(a + t, 0, MoqAt) == FirstMatch(t, 0, MoqAt)
  {
    forall k | 0 <= k < |a| ensures MoqAt(a + t, k).None? {
      assert (a + t)[k] == a[k];
    }
    SkipNoMatch(a + t, 0, |a|, MoqAt);
    MoqSearchShift(a, t, 0);
  }

  /** The lead-time search passes over a piece in which no match starts. */
  lemma LeadPeel(a: string, t: string)
    requires forall k :: 0 <= k < |a| ==> LeadTimeAt(a + t, k).None?
    ensures FirstMatch(a + t, 0, LeadTimeAt) == FirstMatch(t, 0, LeadTimeAt)
  {
    SkipNoMatch(a + t, 0, |a|, LeadTimeAt);
    LeadSearchShift(a, t, 0);
  }

  /** A piece without digits holds no lead-time match. */
  lemma LeadPeelNoDigits(a: string, t: string)
    requires forall k :: 0 <= k < |a| ==> !IsDigit(a[k])
    ensures FirstMatch(a + t, 0, LeadTimeAt) == FirstMatch(t, 0, LeadTimeAt)
  {
    forall k | 0 <= k < |a| ensures LeadTimeAt(a + t, k).None? {
      assert (a + t)[k] == a[k];
    }
    LeadPeel(a, t);
  }

  // ---------------------------------------------------------------------------------------
  // The representative answer
  // ---------------------------------------------------------------------------------------

  /** From the lead time on: "10-day lead time". */
  const LeadPart: string := "10" + ("-" + ("day" + (" " + ("lead" + (" " + "time")))))

  /** From the MOQ on: "MOQ 250, 10-day lead time". */
  const MoqPart: string := "MOQ" + (" " + ("250" + (", " + LeadPart)))

  /** The whole answer: "$4.80 per unit, MOQ 250, 10-day lead time". */
  const Sample: string := "$" + ("4" + ("." + ("80" + (" per unit, " + MoqPart))))

  /** On the representative answer the price scan finds $4.80 ... */
  lemma SamplePrice()
    ensures RegexPrice(Sample) == Some(4.80)
  {
    assert Sample[0] == '$' && Sample[1] == '4' && Sample[2] == '.' && Sample[3] == '8' && Sample[4] == '0';
    assert DigitRunEnd(Sample, 2) == 2;
    assert DigitRunEnd(Sample, 1) == 2;
    assert RunValue(Sample, 1, 2) == 4;
    assert PriceAt(Sample, 0) == Some(4.80);
  }

  /** ... the MOQ scan finds 250 ... */
  lemma SampleMoq()
    ensures RegexMoq(Sample) == Some(250)
  {
    var t4 := " per unit, " + MoqPart;
    var t3 := "80" + t4;
    var t2 := "." + t3;
    var t1 := "4" + t2;
    MoqPeel("$", t1);
    MoqPeel("4", t2);
    MoqPeel(".", t3);
    MoqPeel("80", t4);
    MoqPeel(" per unit, ", MoqPart);
    MoqPartMatch();
  }

  lemma MoqPartMatch()
    ensures FirstMatch(MoqPart, 0, MoqAt) == Some(250)
  {
    var m := MoqPart;
    assert m[0] == 'M' && m[1] == 'O' && m[2] == 'Q' && m[3] == ' ';
    assert m[4] == '2' && m[5] == '5' && m[6] == '0' && m[7] == ',';
    assert MatchCI(m, 0, "moq");
    assert FirstDigitFrom(m, 4) == 4;
    assert FirstDigitFrom(m, 3) == 4;
    assert DigitRunEnd(m, 7) == 7 && DigitRunEnd(m, 6) == 7;
    assert DigitRunEnd(m, 5) == 7 && DigitRunEnd(m, 4) == 7;
    assert RunValue(m, 4, 5) == 2 && RunValue(m, 4, 6) == 25;
    assert RunValue(m, 4, 7) == 250;
    assert MoqAt(m, 0) == Some(250);
  }

  /** ... and the lead-time scan finds 10 days. */
  lemma SampleLeadTime()
    ensures RegexLeadTime(Sample) == Some(10)
  {
    PricePartLead();
    UnitPartLead();
    MoqPartLead();
    LeadPartMatch();
  }

  /** The search passes over "$4.", ... */
  lemma PricePartLead()
    ensures FirstMatch(Sample, 0, LeadTimeAt) == FirstMatch("80" + (" per unit, " + MoqPart), 0, LeadTimeAt)
  {
    var t3 := "80" + (" per unit, " + MoqPart);
    var t2 := "." + t3;
    var t1 := "4" + t2;
    LeadPeelNoDigits("$", t1);
    LeadPeelOneDigit("4", t2);
    LeadPeelNoDigits(".", t3);
  }

  /** ... then over "80 per unit, ", ... */
  lemma UnitPartLead()
    ensures FirstMatch("80" + (" per unit, " + MoqPart), 0, LeadTimeAt) == FirstMatch(MoqPart, 0, LeadTimeAt)
  {
    var t4 := " per unit, " + MoqPart;
    LeadPeelEighty(t4);
    LeadPeelNoDigits(" per unit, ", MoqPart);
  }

  /** ... and over "MOQ 250, ". */
  lemma MoqPartLead()
    ensures FirstMatch(MoqPart, 0, LeadTimeAt) == FirstMatch(LeadPart, 0, LeadTimeAt)
  {
    var u3 := ", " + LeadPart;
    var u2 := "250" + u3;
    var u1 := " " + u2;
    LeadPeelNoDigits("MOQ", u1);
    LeadPeelNoDigits(" ", u2);
    LeadPeelThreeDigits(u3);
    LeadPeelNoDigits(", ", LeadPart);
  }

  /** A one-digit piece followed by neither "-" nor " " holds no lead-time match. */
  lemma LeadPeelOneDigit(d: string, t: string)
    requires |d| == 1 && IsDigit(d[0]) && |t| > 0 && !IsDigit(t[0]) && t[0] != '-' && t[0] != ' '
    ensures FirstMatch(d + t, 0, LeadTimeAt) == FirstMatch(t, 0, LeadTimeAt)
  {
    var s := d + t;
    assert s[1] == t[0];
    assert DigitRunEnd(s, 1) == 1 && DigitRunEnd(s, 0) == 1;
    LeadPeel(d, t);
  }

  lemma LeadPeelEighty(t: string)
    requires |t| > 1 && t[0] == ' ' && t[1] == 'p'
    ensures FirstMatch("80" + t, 0, LeadTimeAt) == FirstMatch(t, 0, LeadTimeAt)
  {
    var s := "80" + t;
    assert s[0] == '8' && s[1] == '0' && s[2] == ' ' && s[3] == 'p';
    assert DigitRunEnd(s, 2) == 2 && DigitRunEnd(s, 1) == 2 && DigitRunEnd(s, 0) == 2;
    assert !MatchCI(s, 3, "day");
    LeadPeel("80", t);
  }

  lemma LeadPeelThreeDigits(t: string)
    requires |t| > 0 && t[0] == ','
    ensures FirstMatch("250" + t, 0, LeadTimeAt) == FirstMatch(t, 0, LeadTimeAt)
  {
    var s := "250" + t;
    assert s[0] == '2' && s[1] == '5' && s[2] == '0' && s[3] == ',';
    assert DigitRunEnd(s, 3) == 3 && DigitRunEnd(s, 2) == 3;
    assert DigitRunEnd(s, 1) == 3 && DigitRunEnd(s, 0) == 3;
    LeadPeel("250", t);
  }

  lemma LeadPartMatch()
    ensures FirstMatch(LeadPart, 0, LeadTimeAt) == Some(10)
  {
    var l := LeadPart;
    assert l[0] == '1' && l[1] == '0' && l[2] == '-' && l[3] == 'd' && l[4] == 'a' && l[5] == 'y';
    assert l[6] == ' ' && l[7] == 'l' && l[8] == 'e' && l[9] == 'a' && l[10] == 'd' && l[11] == ' ';
    assert l[12] == 't' && l[13] == 'i' && l[14] == 'm' && l[15] == 'e' && |l| == 16;
    assert DigitRunEnd(l, 2) == 2 && DigitRunEnd(l, 1) == 2 && DigitRunEnd(l, 0) == 2;
    assert RunValue(l, 0, 1) == 1 && RunValue(l, 0, 2) == 10;
    assert MatchCI(l, 3, "day");
    assert SpaceRunEnd(l, 7) == 7 && SpaceRunEnd(l, 6) == 7;
    assert SpaceRunEnd(l, 12) == 12 && SpaceRunEnd(l, 11) == 12;
    assert MatchCI(l, 7, "lead") && MatchCI(l, 12, "time");
    assert LeadPhraseAt(l, 7);
    assert LeadTimeAt(l, 0) == Some(10);
  }
}
