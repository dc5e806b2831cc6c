/**
 * The query parser: free text to a structured query (regions, a pair of
 * years, an indicator) by closed-vocabulary substring matching against the
 * region names of the dataset.
 */
module Parse {
  import opened Wrappers
  import opened Strings
  import opened Seqs
  import opened Sorting
  import Dataset

  datatype ParsedQuery = ParsedQuery(
    regions: seq<string>,
    yearCurrent: int,
    yearPrevious: int,
    indicator: string,
    isMultiRegion: bool)

  /** The `ValueError` raised when no region can be identified. */
  datatype ParseError = RegionNotFound(message: string)

  const RegionNotFoundMessage := "无法从问题中识别地区（region）。请在问题中包含如：安徽/上海/浙江/江苏等。"

  // ---------------------------------------------------------------- region names

  /** The administrative suffixes "province" and "city". */
  predicate IsSuffixChar(c: char) {
    c == '省' || c == '市'
  }

  /** `name.rstrip("省市")`: every trailing 省 or 市 removed. */
  function NormalizeRegionName(name: string): (r: string)
    ensures |r| <= |name| && r == name[..|r|]
    ensures r == [] || !IsSuffixChar(r[|r| - 1])
    ensures forall k | |r| <= k < |name| :: IsSuffixChar(name[k])
  {
    if name != [] && IsSuffixChar(name[|name| - 1]) then
      var r := NormalizeRegionName(name[..|name| - 1]);
      assert name[..|name| - 1][..|r|] == name[..|r|];
      r
    else name
  }

  /** Appending a suffix character does not change the normalized name. */
  lemma NormalizeSuffixed(name: string, c: char)
    requires IsSuffixChar(c)
    ensures NormalizeRegionName(name + [c]) == NormalizeRegionName(name)
  {
    assert (name + [c])[..|name|] == name;
  }

  /**
   * The spellings under which a region is looked for: a suffixed name and the
   * name without its last suffix character, or a bare name with either suffix.
   */
  function RegionVariants(name: string): (vs: set<string>)
    ensures name in vs
    ensures forall v | v in vs :: NormalizeRegionName(v) == NormalizeRegionName(name)
  {
    if name != [] && IsSuffixChar(name[|name| - 1]) then
      assert name == name[..|name| - 1] + [name[|name| - 1]];
      NormalizeSuffixed(name[..|name| - 1], name[|name| - 1]);
      {name, name[..|name| - 1]}
    else
      NormalizeSuffixed(name, '省');
      NormalizeSuffixed(name, '市');
      {name, name + "省", name + "市"}
  }

  /** Some non-empty variant of `cand` occurs in the text. */
  predicate Mentions(q: string, cand: string) {
    exists v | v in RegionVariants(cand) :: v != "" && Contains(q, v)
  }

  // ---------------------------------------------------------------- indicator

  predicate MentionsCpi(q: string) {
    Contains(Upper(q), "CPI") || Contains(q, "物价")
  }

  predicate MentionsGdp(q: string) {
    Contains(Upper(q), "GDP") || Contains(q, "生产总值")
  }

  predicate MentionsStructure(q: string) {
    Contains(q, "三产") || Contains(q, "产业结构") || Contains(q, "三次产业")
  }

  /**
   * The indicator after the three overriding rules: GDP by default, CPI on a
   * price term, GDP again on an output term, the three-sector structure over
   * both.
   */
  function Indicator(q: string): (ind: string)
    ensures ind == "三产结构" <==> MentionsStructure(q)
    ensures ind == "GDP" <==> !MentionsStructure(q) && (MentionsGdp(q) || !MentionsCpi(q))
    ensures ind == "CPI" <==> !MentionsStructure(q) && !MentionsGdp(q) && MentionsCpi(q)
  {
    if MentionsStructure(q) then "三产结构"
    else if MentionsGdp(q) then "GDP"
    else if MentionsCpi(q) then "CPI"
    else "GDP"
  }

  // ---------------------------------------------------------------- years

  predicate IsDigit(c: char) {
    '0' <= c <= '9'
  }

  function DigitValue(c: char): nat
    requires IsDigit(c)
  {
    c as int - '0' as int
  }

  /** The text starts with a token matching `19\d{2}|20\d{2}`. */
  predicate YearAt(s: string) {
    |s| >= 4 && ((s[0] == '1' && s[1] == '9') || (s[0] == '2' && s[1] == '0'))
    && IsDigit(s[2]) && IsDigit(s[3])
  }

  function YearValue(s: string): int
    requires YearAt(s)
  {
    (if s[0] == '1' then 1900 else 2000) + 10 * DigitValue(s[2]) + DigitValue(s[3])
  }

  /** `re.findall(r"(19\d{2}|20\d{2})", s)` converted to ints: a left-to-right, non-overlapping scan. */
  function FindYears(s: string): (ys: seq<int>)
    ensures forall k | 0 <= k < |ys| :: 1900 <= ys[k] <= 2099
    ensures 4 * |ys| <= |s|
    decreases |s|
  {
    if |s| < 4 then []
    else if YearAt(s) then [YearValue(s)] + FindYears(s[4..])
    else FindYears(s[1..])
  }

  /** The four digits of a year in 1900..2099. */
  function YearText(y: int): string
    requires 1900 <= y <= 2099
  {
    var d := if y < 2000 then y - 1900 else y - 2000;
    (if y < 2000 then "19" else "20") + [DigitChar(d / 10), DigitChar(d % 10)]
  }

  /** A year written out is found again, ahead of whatever follows it. */
  lemma YearTextFound(y: int, rest: string)
    requires 1900 <= y <= 2099
    ensures FindYears(YearText(y) + rest) == [y] + FindYears(rest)
  {
    var s := YearText(y) + rest;
    assert YearAt(s);
    assert s[4..] == rest;
  }

  /** Text without ASCII digits holds no year. */
  lemma {:induction false} NoDigitNoYear(s: string)
    requires forall k | 0 <= k < |s| :: !IsDigit(s[k])
    ensures FindYears(s) == []
  {
    if |s| >= 4 {
      NoDigitNoYear(s[1..]);
    }
  }

  /** The (current, previous) pair chosen from the years found. */
  function SelectYears(ys: seq<int>): (int, int) {
    if |ys| >= 2 then (ys[0], ys[1])
    else if |ys| == 1 then (ys[0], ys[0] - 1)
    else (2023, 2022)
  }

  // ---------------------------------------------------------------- regions

  /** The phrases that switch the parser to multi-region matching. */
  predicate MultiTrigger(q: string) {
    Contains(q, "对比") || Contains(q, "比较") || Contains(q, "江浙沪")
    || Contains(q, "三省") || Contains(q, "长三角")
  }

  /** Single-region mode: the normalized name of the first candidate mentioned. */
  function FirstMatch(q: string, cands: seq<string>): Option<string> {
    if cands == [] then None
    else if Mentions(q, cands[0]) then Some(NormalizeRegionName(cands[0]))
    else FirstMatch(q, cands[1..])
  }

  /** The single-region match is the first mentioned candidate. */
  lemma {:induction false} FirstMatchAt(q: string, cands: seq<string>, i: nat)
    requires i < |cands| && Mentions(q, cands[i])
    requires forall k | 0 <= k < i :: !Mentions(q, cands[k])
    ensures FirstMatch(q, cands) == Some(NormalizeRegionName(cands[i]))
  {
    if i > 0 {
      var tail := cands[1..];
      forall k | 0 <= k < i - 1
        ensures !Mentions(q, tail[k])
      {
        assert tail[k] == cands[k + 1];
      }
      assert tail[i - 1] == cands[i];
      FirstMatchAt(q, tail, i - 1);
      assert !Mentions(q, cands[0]);
    }
  }

  /** There is no single-region match exactly when no candidate is mentioned. */
  lemma {:induction false} FirstMatchNone(q: string, cands: seq<string>)
    ensures FirstMatch(q, cands).None? <==> forall i | 0 <= i < |cands| :: !Mentions(q, cands[i])
  {
    if cands != [] && !Mentions(q, cands[0]) {
      var tail := cands[1..];
      FirstMatchNone(q, tail);
      assert forall i | 1 <= i < |cands| :: tail[i - 1] == cands[i];
    }
  }

  /** The normalized names of the mentioned candidates, in candidate order, with repeats. */
  function MatchedNames(q: string, cands: seq<string>): seq<string> {
    if cands == [] then []
    else
      MatchedNames(q, cands[..|cands| - 1])
      + (if Mentions(q, cands[|cands| - 1]) then [NormalizeRegionName(cands[|cands| - 1])] else [])
  }

  lemma {:induction false} MatchedNamesMembers(q: string, cands: seq<string>, x: string)
    ensures x in MatchedNames(q, cands)
        <==> exists i | 0 <= i < |cands| :: Mentions(q, cands[i]) && NormalizeRegionName(cands[i]) == x
  {
    if cands != [] {
      var init := cands[..|cands| - 1];
      MatchedNamesMembers(q, init, x);
      assert forall i | 0 <= i < |init| :: init[i] == cands[i];
    }
  }

  /** Multi-region mode: every mentioned candidate's normalized name, once, in candidate order. */
  function MultiMatches(q: string, cands: seq<string>): seq<string> {
    Dedup(MatchedNames(q, cands))
  }

  /** What the multi-region mode yields: exactly the mentioned regions, each once. */
  lemma MultiMatchesSpec(q: string, cands: seq<string>)
    ensures Distinct(MultiMatches(q, cands))
    ensures forall x :: (x in MultiMatches(q, cands)
      <==> exists i | 0 <= i < |cands| :: Mentions(q, cands[i]) && NormalizeRegionName(cands[i]) == x)
  {
    DedupSpec(MatchedNames(q, cands));
    forall x ensures x in MultiMatches(q, cands)
      <==> exists i | 0 <= i < |cands| :: Mentions(q, cands[i]) && NormalizeRegionName(cands[i]) == x
    {
      MatchedNamesMembers(q, cands, x);
    }
  }

  /** The CJK unified ideographs `[一-鿿]`. */
  predicate IsCjk(c: char) {
    0x4E00 <= c as int <= 0x9FFF
  }

  predicate AllCjk(s: string) {
    forall k | 0 <= k < |s| :: IsCjk(s[k])
  }

  /**
   * The group that `([一-鿿]{2,6})(省|市)` captures at the start of
   * `s` trying lengths from `k` down to 2 (the greedy quantifier backtracking),
   * or 0 when there is no match here.
   */
  function CaptureLength(s: string, k: nat): (n: nat)
    requires k <= 6
    ensures n == 0 || (2 <= n <= k && n < |s| && AllCjk(s[..n]) && IsSuffixChar(s[n]))
  {
    if k < 2 then 0
    else if k < |s| && AllCjk(s[..k]) && IsSuffixChar(s[k]) then k
    else CaptureLength(s, k - 1)
  }

  /** `re.findall(r"([一-鿿]{2,6})(省|市)", s)`, the first groups only. */
  function FallbackMatches(s: string): seq<string>
    decreases |s|
  {
    if s == [] then []
    else
      var n := CaptureLength(s, 6);
      if n >= 2 then [s[..n]] + FallbackMatches(s[n + 1..])
      else FallbackMatches(s[1..])
  }

  /** Every captured name is two to six CJK characters. */
  lemma {:induction false} FallbackShape(s: string)
    ensures forall m | m in FallbackMatches(s) :: 2 <= |m| <= 6 && AllCjk(m)
    decreases |s|
  {
    if s != [] {
      var n := CaptureLength(s, 6);
      if n >= 2 {
        FallbackShape(s[n + 1..]);
      } else {
        FallbackShape(s[1..]);
      }
    }
  }

  /** Every captured name stands in the text followed by 省 or 市. */
  lemma {:induction false} FallbackFollowedBySuffix(s: string)
    ensures forall m | m in FallbackMatches(s) :: Contains(s, m + "省") || Contains(s, m + "市")
    decreases |s|
  {
    if s != [] {
      var n := CaptureLength(s, 6);
      var next := if n >= 2 then n + 1 else 1;
      FallbackFollowedBySuffix(s[next..]);
      assert s[next..|s|] == s[next..];
      forall m | m in FallbackMatches(s[next..])
        ensures Contains(s, m + "省") || Contains(s, m + "市")
      {
        if Contains(s[next..], m + "省") {
          ContainsInSlice(s, next, |s|, m + "省");
        } else {
          ContainsInSlice(s, next, |s|, m + "市");
        }
      }
      if n >= 2 {
        assert s[..n + 1] == s[..n] + [s[n]];
        SliceContained(s, 0, n + 1);
      }
    }
  }

  /** Without a 省 or 市 in the text, the fallback finds nothing. */
  lemma {:induction false} NoSuffixNoFallback(s: string)
    requires forall k | 0 <= k < |s| :: !IsSuffixChar(s[k])
    ensures FallbackMatches(s) == []
    decreases |s|
  {
    if s != [] {
      assert CaptureLength(s, 6) == 0;
      NoSuffixNoFallback(s[1..]);
    }
  }

  const TriRegion: seq<string> := ["江苏", "浙江", "上海"]

  /** The dataset-driven matches of the mode the question selects. */
  function DatasetMatches(q: string, cands: seq<string>): seq<string> {
    if MultiTrigger(q) then MultiMatches(q, cands)
    else match FirstMatch(q, cands)
      case Some(name) => [name]
      case None => []
  }

  /** The region list: dataset matches, else the regex fallback, overridden by 江浙沪. */
  function Regions(q: string, cands: seq<string>): seq<string> {
    var found := DatasetMatches(q, cands);
    var found := if found == [] then Dedup(FallbackMatches(q)) else found;
    if Contains(q, "江浙沪") then TriRegion else found
  }

  /** The question as every rule sees it: stripped, then every whitespace character removed. */
  function Normalized(question: string): (q: string)
    ensures NoSpace(q)
  {
    RemoveWhitespace(Strip(question))
  }

  /** `parse_query(question)` with the dataset's region names, longest first, as `cands`. */
  function Parse(question: string, cands: seq<string>): Result<ParsedQuery, ParseError> {
    var q := Normalized(question);
    var regions := Regions(q, cands);
    var (cur, prev) := SelectYears(FindYears(q));
    if regions == [] then Failure(RegionNotFound(RegionNotFoundMessage))
    else Success(ParsedQuery(regions, cur, prev, Indicator(q), |regions| > 1))
  }

  /** Only the non-whitespace characters of a question matter: inserting or removing whitespace anywhere changes nothing. */
  lemma ParseIgnoresWhitespace(a: string, b: string, cands: seq<string>)
    requires RemoveWhitespace(a) == RemoveWhitespace(b)
    ensures Parse(a, cands) == Parse(b, cands)
  {
    StripThenRemove(a);
    StripThenRemove(b);
  }

  /** A question fails exactly when no region is found, and a parsed query lists one or more regions. */
  lemma ParseOutcome(question: string, cands: seq<string>)
    ensures Parse(question, cands).Failure? <==> Regions(Normalized(question), cands) == []
    ensures Parse(question, cands).Success? ==>
      var p := Parse(question, cands).value;
      && p.regions == Regions(Normalized(question), cands)
      && (p.isMultiRegion <==> |p.regions| > 1)
      && p.indicator == Indicator(Normalized(question))
      && (p.yearCurrent, p.yearPrevious) == SelectYears(FindYears(Normalized(question)))
  {
  }

  /** "江浙沪" in the question fixes the three regions, whatever matched before. */
  lemma TriRegionOverride(q: string, cands: seq<string>)
    requires Contains(q, "江浙沪")
    ensures Regions(q, cands) == ["江苏", "浙江", "上海"]
  {
  }

  /** The regex fallback is consulted only when dataset matching found nothing. */
  lemma FallbackOnlyWhenUnmatched(q: string, cands: seq<string>)
    requires !Contains(q, "江浙沪") && DatasetMatches(q, cands) != []
    ensures Regions(q, cands) == DatasetMatches(q, cands)
  {
  }

  /** Without a trigger word the dataset scan yields at most one region. */
  lemma SingleModeAtMostOne(q: string, cands: seq<string>)
    requires !MultiTrigger(q)
    ensures |DatasetMatches(q, cands)| <= 1
  {
  }

  /** The test question character by character. */
  predicate SpellsCpiQuestion(q: string) {
    && |q| == 12 && q[0] == '上' && q[1] == '海' && q[2] == '2' && q[3] == '0' && q[4] == '2' && q[5] == '3'
    && q[6] == '年' && q[7] == 'C' && q[8] == 'P' && q[9] == 'I' && q[10] == '数' && q[11] == '据'
  }

  /** Its years: 2023 is written out after the region, and nothing after it is a digit. */
  lemma CpiQuestionYears(q: string)
    requires SpellsCpiQuestion(q)
    ensures FindYears(q) == [2023]
  {
    assert YearAt(q[2..]) && YearValue(q[2..]) == 2023 && q[2..][4..] == q[6..];
    NoDigitNoYear(q[6..]);
    assert FindYears(q[2..]) == [2023];
    assert !YearAt(q[1..]) && q[1..][1..] == q[2..];
    assert FindYears(q[1..]) == [2023];
    assert !YearAt(q);
  }

  /** Upper-casing leaves the question as it is: it has no lower-case ASCII letter. */
  lemma CpiQuestionUpper(q: string)
    requires SpellsCpiQuestion(q)
    ensures Upper(q) == q
  {
    forall k | 0 <= k < |q|
      ensures Upper(q)[k] == q[k]
    {
      assert !('a' <= q[k] <= 'z');
    }
  }

  /** Its indicator: "CPI" occurs, and no GDP or structure term does. */
  lemma CpiQuestionIndicator(q: string)
    requires SpellsCpiQuestion(q)
    ensures Indicator(q) == "CPI"
  {
    CpiQuestionUpper(q);
    assert forall k | 0 <= k < |q| :: q[k] != 'G' && q[k] != '生' && q[k] != '三' && q[k] != '产';
    assert q[7..10] == "CPI";
    ContainsWitness(q, "CPI", 7);
    AbsentFirstChar(q, "GDP");
    AbsentFirstChar(q, "生产总值");
    AbsentFirstChar(q, "三产");
    AbsentFirstChar(q, "产业结构");
    AbsentFirstChar(q, "三次产业");
  }

  /** Some region is found in a question that names a candidate. */
  lemma MentionedRegionFound(q: string, cands: seq<string>, i: nat)
    requires i < |cands| && Mentions(q, cands[i])
    ensures Regions(q, cands) != []
  {
    if !Contains(q, "江浙沪") {
      if MultiTrigger(q) {
        MultiMatchesSpec(q, cands);
        assert NormalizeRegionName(cands[i]) in MultiMatches(q, cands);
      } else {
        FirstMatchNone(q, cands);
      }
    }
  }

  /** The question has no whitespace, so normalising leaves it as it is. */
  lemma CpiQuestionNormalized(q: string)
    requires SpellsCpiQuestion(q)
    ensures Normalized(q) == q
  {
    assert NoSpace(q);
    StripThenRemove(q);
    RemoveWhitespaceFixes(q);
  }

  /** The test suite's CPI question is spelled as `SpellsCpiQuestion` says. */
  lemma CpiQuestionSpelled()
    ensures SpellsCpiQuestion("上海2023年CPI数据")
  {
  }

  /**
   * The test suite's CPI case: with 上海 among the dataset's regions,
   * "上海2023年CPI数据" parses, with indicator CPI, current year 2023 and
   * previous year 2022.
   */
  lemma CpiQuestionParse(q: string, cands: seq<string>)
    requires SpellsCpiQuestion(q) && "上海" in cands
    ensures Parse(q, cands).Success?
    ensures var p := Parse(q, cands).value;
      p.indicator == "CPI" && p.yearCurrent == 2023 && p.yearPrevious == 2022
  {
    CpiQuestionNormalized(q);
    CpiQuestionYears(q);
    CpiQuestionIndicator(q);
    CpiQuestionRegions(q, cands);
    ParseOutcome(q, cands);
  }

  /** With 上海 among the candidates, the question finds some region. */
  lemma CpiQuestionRegions(q: string, cands: seq<string>)
    requires SpellsCpiQuestion(q) && "上海" in cands
    ensures Regions(q, cands) != []
  {
    var i :| 0 <= i < |cands| && cands[i] == "上海";
    CpiQuestionMentions(q);
    MentionedRegionFound(q, cands, i);
  }

  /** The question names 上海. */
  lemma CpiQuestionMentions(q: string)
    requires SpellsCpiQuestion(q)
    ensures Mentions(q, "上海")
  {
    assert q[0..2] == "上海";
    ContainsWitness(q, "上海", 0);
    assert "上海" in RegionVariants("上海");
  }

  // ---------------------------------------------------------------- candidates

  /** The region column of the long table. */
  function RegionNames(table: seq<Dataset.DataPoint>): (names: seq<string>)
    ensures |names| == |table|
    ensures forall i | 0 <= i < |table| :: names[i] == table[i].region
  {
    if table == [] then [] else [table[0].region] + RegionNames(table[1..])
  }

  /** Longer names first: `sorted(..., key=len, reverse=True)` as an ascending sort on the negated length. */
  function LengthKey(name: string): real {
    -(|name| as real)
  }

  /**
   * The distinct region names of the dataset, longest first. Among names of
   * equal length the model keeps their first-seen order, one of the orders
   * iterating a Python set can produce.
   */
  function Candidates(table: seq<Dataset.DataPoint>): seq<string> {
    SortBy(Dedup(RegionNames(table)), LengthKey)
  }

  /** The candidates are the dataset's region names, each listed once, in non-increasing length. */
  lemma CandidatesSpec(table: seq<Dataset.DataPoint>)
    ensures Distinct(Candidates(table))
    ensures forall x :: x in Candidates(table) <==> exists i | 0 <= i < |table| :: table[i].region == x
    ensures forall i, j | 0 <= i < j < |Candidates(table)| :: |Candidates(table)[i]| >= |Candidates(table)[j]|
  {
    var names := RegionNames(table);
    var d := Dedup(names);
    DedupSpec(names);
    SortByPermutation(d, LengthKey);
    SortByAscending(d, LengthKey);
    var c := Candidates(table);
    PermutationDistinct(d, c);
    forall x ensures x in c <==> exists i | 0 <= i < |table| :: table[i].region == x {
      assert x in c <==> x in multiset(c);
      assert x in d <==> x in multiset(d);
      if x in names {
        var i :| 0 <= i < |names| && names[i] == x;
        assert table[i].region == x;
      }
    }
    forall i, j | 0 <= i < j < |c|
      ensures |c[i]| >= |c[j]|
    {
      assert LengthKey(c[i]) <= LengthKey(c[j]);
    }
  }

  /** `parse_query` reading its candidates from the dataset. */
  function ParseWithDataset(question: string, table: seq<Dataset.DataPoint>): Result<ParsedQuery, ParseError> {
    Parse(question, Candidates(table))
  }

  // ---------------------------------------------------------------- the parser

  /** One candidate of the multi-region scan: every variant tried, the region appended once when new. */
  method MatchCandidate(qNorm: string, cand: string, found: seq<string>) returns (found': seq<string>)
    ensures found' == if Mentions(qNorm, cand) && NormalizeRegionName(cand) !in found
                      then found + [NormalizeRegionName(cand)] else found
  {
    found' := found;
    var variants := RegionVariants(cand);
    ghost var seen: set<string> := {};
    while variants != {}
      invariant variants <= RegionVariants(cand)
      invariant seen == RegionVariants(cand) - variants
      invariant found' == if (exists v | v in seen :: v != "" && Contains(qNorm, v)) && NormalizeRegionName(cand) !in found
                          then found + [NormalizeRegionName(cand)] else found
      decreases variants
    {
      var v :| v in variants;
      variants := variants - {v};
      if v != "" && Contains(qNorm, v) {
        var regionName := NormalizeRegionName(cand);
        if regionName !in found' {
          found' := found' + [regionName];
        }
      }
      seen := seen + {v};
    }
  }

  /** One more candidate in the multi-region scan: its name appended when it is mentioned and new. */
  lemma MultiMatchesSnoc(q: string, cands: seq<string>, i: nat)
    requires i < |cands|
    ensures MultiMatches(q, cands[..i + 1])
         == if Mentions(q, cands[i]) && NormalizeRegionName(cands[i]) !in MultiMatches(q, cands[..i])
            then MultiMatches(q, cands[..i]) + [NormalizeRegionName(cands[i])]
            else MultiMatches(q, cands[..i])
  {
    var base := MatchedNames(q, cands[..i]);
    var name := NormalizeRegionName(cands[i]);
    assert cands[..i + 1][..i] == cands[..i];
    if Mentions(q, cands[i]) {
      assert MatchedNames(q, cands[..i + 1]) == base + [name];
      DedupSnoc(base, name);
    } else {
      assert MatchedNames(q, cands[..i + 1]) == base + [];
      assert base + [] == base;
    }
  }

  /** The multi-region scan of `parse_query`: every candidate, every variant, append when new. */
  method MatchAllCandidates(qNorm: string, candidates: seq<string>) returns (found: seq<string>)
    ensures found == MultiMatches(qNorm, candidates)
  {
    found := [];
    var i := 0;
    while i < |candidates|
      invariant 0 <= i <= |candidates|
      invariant found == MultiMatches(qNorm, candidates[..i])
    {
      MultiMatchesSnoc(qNorm, candidates, i);
      found := MatchCandidate(qNorm, candidates[i], found);
      i := i + 1;
    }
    assert candidates[..|candidates|] == candidates;
  }

  /** The single-region scan of `parse_query`: stop at the first candidate with a variant in the text. */
  method MatchFirstCandidate(qNorm: string, candidates: seq<string>) returns (found: seq<string>)
    ensures found == match FirstMatch(qNorm, candidates)
      case Some(regionName) => [regionName]
      case None => []
  {
    found := [];
    var i := 0;
    while i < |candidates|
      invariant 0 <= i <= |candidates|
      invariant found == []
      invariant FirstMatch(qNorm, candidates) == FirstMatch(qNorm, candidates[i..])
    {
      var cand := candidates[i];
      var variants := RegionVariants(cand);
      ghost var seen: set<string> := {};
      while variants != {}
        invariant variants <= RegionVariants(cand)
        invariant seen == RegionVariants(cand) - variants
        invariant forall v | v in seen :: !(v != "" && Contains(qNorm, v))
        decreases variants
      {
        var v :| v in variants;
        variants := variants - {v};
        if v != "" && Contains(qNorm, v) {
          var regionName := NormalizeRegionName(cand);
          found := [regionName];
          break;
        }
        seen := seen + {v};
      }
      if found != [] {
        assert Mentions(qNorm, candidates[i..][0]);
        break;
      }
      assert !Mentions(qNorm, candidates[i..][0]);
      assert candidates[i..][1..] == candidates[i + 1..];
      i := i + 1;
    }
  }

  /** The regex fallback of `parse_query`: each captured name appended when new. */
  method CollectFallback(qNorm: string) returns (found: seq<string>)
    ensures found == Dedup(FallbackMatches(qNorm))
  {
    found := [];
    var matches := FallbackMatches(qNorm);
    var k := 0;
    while k < |matches|
      invariant 0 <= k <= |matches|
      invariant found == Dedup(matches[..k])
    {
      var regionName := matches[k];
      assert matches[..k + 1] == matches[..k] + [regionName];
      DedupSnoc(matches[..k], regionName);
      if regionName !in found {
        found := found + [regionName];
      }
      k := k + 1;
    }
    assert matches[..|matches|] == matches;
  }

  /** The three indicator rules of `parse_query`, each overriding the one before. */
  method DetectIndicator(qNorm: string) returns (indicator: string)
    ensures indicator == Indicator(qNorm)
  {
    indicator := "GDP";
    if Contains(Upper(qNorm), "CPI") || Contains(qNorm, "物价") {
      indicator := "CPI";
    }
    if Contains(Upper(qNorm), "GDP") || Contains(qNorm, "生产总值") {
      indicator := "GDP";
    }
    if Contains(qNorm, "三产") || Contains(qNorm, "产业结构") || Contains(qNorm, "三次产业") {
      indicator := "三产结构";
    }
  }

  /** The year rules of `parse_query`: the defaults 2023/2022, overwritten by the years found. */
  method PickYears(qNorm: string) returns (yearCurrent: int, yearPrevious: int)
    ensures (yearCurrent, yearPrevious) == SelectYears(FindYears(qNorm))
  {
    yearCurrent, yearPrevious := 2023, 2022;
    var years := FindYears(qNorm);
    if |years| >= 2 {
      yearCurrent, yearPrevious := years[0], years[1];
    } else if |years| == 1 {
      yearCurrent := years[0];
      yearPrevious := years[0] - 1;
    }
  }

  /** The region rules of `parse_query`: dataset scan in the selected mode, regex fallback, 江浙沪 override. */
  method FindRegions(qNorm: string, candidates: seq<string>) returns (found: seq<string>)
    ensures found == Regions(qNorm, candidates)
  {
    var isMulti := Contains(qNorm, "对比") || Contains(qNorm, "比较") || Contains(qNorm, "江浙沪")
                   || Contains(qNorm, "三省") || Contains(qNorm, "长三角");
    if isMulti {
      found := MatchAllCandidates(qNorm, candidates);
    } else {
      found := MatchFirstCandidate(qNorm, candidates);
    }
    assert found == DatasetMatches(qNorm, candidates);
    if found == [] {
      found := CollectFallback(qNorm);
    }
    if Contains(qNorm, "江浙沪") {
      found := ["江苏", "浙江", "上海"];
    }
  }

  /** `parse_query(question)` over the loaded dataset `table`. */
  method ParseQuery(question: string, table: seq<Dataset.DataPoint>) returns (r: Result<ParsedQuery, ParseError>)
    ensures r == ParseWithDataset(question, table)
  {
    var q := Strip(question);
    var qNorm := RemoveWhitespace(q);
    var indicator := DetectIndicator(qNorm);
    var yearCurrent, yearPrevious := PickYears(qNorm);
    var candidates := Candidates(table);
    var found := FindRegions(qNorm, candidates);
    if found == [] {
      return Failure(RegionNotFound(RegionNotFoundMessage));
    }
    return Success(ParsedQuery(found, yearCurrent, yearPrevious, indicator, |found| > 1));
  }
}
