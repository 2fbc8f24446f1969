/** The paste extractor `parseVerticalData`: a form copied out of the business
    system arrives as one label or value per line, and a line-indexed scanner
    picks out the fields the minutes need. Each line is dispatched through a
    fixed chain of tests (the first test that holds decides), some lines look
    ahead a bounded number of rows, and the two multi-line captures consume the
    rows they take so that these are never dispatched themselves. */
module Paste {
  import opened Text
  import opened Values

  /** The properties the extractor may put on its result object. */
  datatype Field =
    | BusinessCode | Budget | GrossMargin | NetMargin | Content | ProcurementSituation
    | ExtBudget | ProjectName | Client | Level | CapacityType | Procurement
    | BusinessType | BiddingMethod | BiddingEntity | Duration | Pm | Sales | Solution | Delivery

  /** The result object: a property is present once some line assigned it. */
  type Extracted = map<Field, string>

  // ---------------------------------------------------------------------------
  // Lines

  /** Trims every piece and drops the ones left empty (`map(l => l.trim())`
      followed by `filter(l => l)`). */
  function NonBlankTrimmed(pieces: seq<string>): (r: seq<string>)
    ensures |r| <= |pieces|
    ensures forall k | 0 <= k < |r| :: r[k] != [] && !IsSpace(r[k][0]) && !IsSpace(r[k][|r[k]| - 1])
  {
    if pieces == [] then []
    else
      var t := Trim(pieces[0]);
      (if t == [] then [] else [t]) + NonBlankTrimmed(pieces[1..])
  }

  /** The pasted text split at line breaks, trimmed, without blank lines. A
      carriage return before a line feed ends up at the end of a piece and is
      trimmed away, so splitting at `\r?\n` and at `\n` give the same lines. */
  function PasteLines(text: string): (lines: seq<string>)
    ensures forall k | 0 <= k < |lines| :: lines[k] != [] && !IsSpace(lines[k][0])
  {
    NonBlankTrimmed(Split(text, '\n'))
  }

  // ---------------------------------------------------------------------------
  // Line predicates

  const Keys: seq<string> := [
    "项目预算", "项目名称", "商机编号", "合同编号", "基本信息", "会前信息",
    "会议内容记录", "问题及解决方案", "会议决议", "参会人员", "铁三角",
    "项目后向采购是否", "核心能力标签", "项目各板块需求", "项目实施可行性",
    "技术要求", "总体方案", "招标文件", "运维服务要求", "应急方案",
    "是否包含监控", "请确认项目类型", "是否需要签订", "项目外采评估",
    "人工成本评估", "列收方式", "外采评估", "是否需要标前引入",
    "项目后向采购基本情况"
  ]

  /** `keys.some(k => s.startsWith(k))`. */
  predicate StartsWithAny(s: string, keys: seq<string>) {
    keys != [] && (StartsWith(s, keys[0]) || StartsWithAny(s, keys[1..]))
  }

  lemma {:induction false} StartsWithAnyIff(s: string, keys: seq<string>)
    ensures StartsWithAny(s, keys) <==> exists k | 0 <= k < |keys| :: StartsWith(s, keys[k])
  {
    if keys != [] {
      StartsWithAnyIff(s, keys[1..]);
      if StartsWithAny(s, keys[1..]) {
        var k :| 0 <= k < |keys[1..]| && StartsWith(s, keys[1..][k]);
        assert StartsWith(s, keys[k + 1]);
      }
      if exists k | 0 <= k < |keys| :: StartsWith(s, keys[k]) {
        var k :| 0 <= k < |keys| && StartsWith(s, keys[k]);
        if k > 0 {
          assert StartsWith(s, keys[1..][k - 1]);
        }
      }
    }
  }

  /** `isKey`: a line that reads as a label or a section heading. */
  predicate IsKey(s: string) {
    || EndsWith(s, "：") || EndsWith(s, ":")
    || s == "请选择" || StartsWith(s, "请选择")
    || StartsWithAny(s, Keys)
  }

  /** `isMoneyLine`, as written: a line that may hold an amount. */
  predicate IsMoneyLine(s: string) {
    && HasDigit(s)
    && !Contains(s, "结构") && !Contains(s, "含税") && !Contains(s, "不含税")
    && !(Contains(s, "合同金额") && !HasDigit(ReplaceFirst(s, "合同金额", "")))
    && CountChar(s, '-') < 2 && CountChar(s, '/') < 2
  }

  /** Two of the tests in `isMoneyLine` never decide anything: a line holding
      `不含税` already holds `含税`, and removing the digit-free `合同金额` from a
      line that has a digit leaves the digit in place. A money line is a line
      with a digit, without `结构` or `含税`, and with fewer than two `-` and
      fewer than two `/`. */
  lemma MoneyLineIff(s: string)
    ensures IsMoneyLine(s) <==>
      HasDigit(s) && !Contains(s, "结构") && !Contains(s, "含税")
      && CountChar(s, '-') < 2 && CountChar(s, '/') < 2
  {
    if Contains(s, "不含税") {
      var k := IndexOf(s, "不含税").value;
      assert s[k + 1..k + 3] == s[k..k + 3][1..];
      assert OccursAt(s, "含税", k + 1);
      ContainsIff(s, "含税");
    }
    if HasDigit(s) {
      DigitSurvivesRemoval(s, "合同金额");
    }
  }

  /** Removing the first occurrence of a digit-free text keeps every digit. */
  lemma DigitSurvivesRemoval(s: string, p: string)
    requires HasDigit(s) && forall k | 0 <= k < |p| :: !IsDigit(p[k])
    ensures HasDigit(ReplaceFirst(s, p, ""))
  {
    match IndexOf(s, p)
    case None =>
    case Some(i) =>
      var d :| 0 <= d < |s| && IsDigit(s[d]);
      assert ReplaceFirst(s, p, "") == s[..i] + s[i + |p|..];
      DigitSurvivesCut(s, p, i, d);
  }

  /** Cutting a digit-free occurrence out at `i` keeps the digit at `d`. */
  lemma DigitSurvivesCut(s: string, p: string, i: nat, d: nat)
    requires OccursAt(s, p, i) && d < |s| && IsDigit(s[d])
    requires forall k | 0 <= k < |p| :: !IsDigit(p[k])
    ensures HasDigit(s[..i] + s[i + |p|..])
  {
    var t := s[..i] + s[i + |p|..];
    assert forall k | i <= k < i + |p| :: s[k] == p[k - i] by {
      assert s[i..i + |p|] == p;
    }
    if d < i {
      assert t[d] == s[d];
    } else if d >= i + |p| {
      assert t[d - |p|] == s[d];
    }
  }

  /** `/^\d+[、\.]/`: a numbered item such as `1、` or `2.`. */
  predicate NumberedItem(row: string) {
    var d := DigitRunEnd(row, 0);
    0 < d < |row| && (row[d] == '、' || row[d] == '.')
  }

  predicate IsColon(c: char) {
    c == ':' || c == '：'
  }

  predicate NoColon(t: string) {
    forall k | 0 <= k < |t| :: !IsColon(t[k])
  }

  /** The first colon at or after `from`, or the length of `s`. */
  function ColonFrom(s: string, from: nat): (r: nat)
    requires from <= |s|
    ensures from <= r <= |s|
    ensures forall k | from <= k < r :: !IsColon(s[k])
    ensures r == |s| || IsColon(s[r])
    decreases |s| - from
  {
    if from == |s| || IsColon(s[from]) then from else ColonFrom(s, from + 1)
  }

  /** `s.split(/[:：]/)[1]`, present when the split has a second piece. */
  function ColonSegment(s: string): (r: Option<string>)
    ensures r.None? <==> NoColon(s)
  {
    var a := ColonFrom(s, 0);
    if a == |s| then None else Some(s[a + 1..ColonFrom(s, a + 1)])
  }

  /** The segment is the second piece of the split: it follows the first colon,
      holds no colon, and runs to the next colon or to the end. */
  lemma ColonSegmentIsSecondPiece(s: string)
    requires ColonSegment(s).Some?
    ensures exists a | 0 <= a < |s| ::
      && IsColon(s[a]) && NoColon(s[..a])
      && a + 1 + |ColonSegment(s).value| <= |s|
      && ColonSegment(s).value == s[a + 1..a + 1 + |ColonSegment(s).value|]
      && NoColon(ColonSegment(s).value)
      && (a + 1 + |ColonSegment(s).value| == |s| || IsColon(s[a + 1 + |ColonSegment(s).value|]))
  {
    var a := ColonFrom(s, 0);
    var b := ColonFrom(s, a + 1);
    var seg := s[a + 1..b];
    assert ColonSegment(s).value == seg;
    assert NoColon(s[..a]) by {
      forall k | 0 <= k < a ensures !IsColon(s[..a][k]) {
        assert s[..a][k] == s[k];
      }
    }
    assert NoColon(seg) by {
      forall k | 0 <= k < |seg| ensures !IsColon(seg[k]) {
        assert seg[k] == s[a + 1 + k];
      }
    }
  }

  /** The colon found is the first one. */
  lemma FirstColon(s: string, from: nat, r: nat)
    requires from <= r < |s| && IsColon(s[r]) && forall k | from <= k < r :: !IsColon(s[k])
    ensures ColonFrom(s, from) == r
  {
  }

  /** The trimmed second piece, as a list of zero or one captured texts: what a
      multi-line capture starts from. */
  function InlineValue(line: string): (r: seq<string>)
    ensures |r| <= 1 && forall k | 0 <= k < |r| :: r[k] != []
  {
    match ColonSegment(line)
    case None => []
    case Some(seg) => if Trim(seg) != [] then [Trim(seg)] else []
  }

  /** `getValue`: the trimmed second piece of the line when it is not empty,
      else the next line when there is one, else the empty text. */
  function GetValue(lines: seq<string>, i: nat): string
    requires i < |lines|
  {
    var inline := InlineValue(lines[i]);
    if inline != [] then inline[0]
    else if i + 1 < |lines| then lines[i + 1]
    else ""
  }

  /** A value written after the label wins over the next line; without one the
      next line is taken whole. */
  lemma GetValueCases(lines: seq<string>, i: nat)
    requires i < |lines|
    ensures ColonSegment(lines[i]).Some? && Trim(ColonSegment(lines[i]).value) != [] ==>
      GetValue(lines, i) == Trim(ColonSegment(lines[i]).value)
    ensures (ColonSegment(lines[i]).None? || IsBlank(ColonSegment(lines[i]).value)) && i + 1 < |lines| ==>
      GetValue(lines, i) == lines[i + 1]
    ensures (ColonSegment(lines[i]).None? || IsBlank(ColonSegment(lines[i]).value)) && i + 1 == |lines| ==>
      GetValue(lines, i) == []
  {
    if ColonSegment(lines[i]).Some? {
      TrimEmptyIffBlank(ColonSegment(lines[i]).value);
    }
  }

  /** The value stops at the second colon: a business code copied together with
      the next label keeps that label's name. */
  lemma GetValueStopsAtSecondColon()
    ensures GetValue(["商机编号：ABC-123 合同编号：XYZ"], 0) == "ABC-123 合同编号"
  {
    ExampleSegment();
    ExampleTrimmed();
  }

  lemma ExampleSegment()
    ensures ColonSegment("商机编号：ABC-123 合同编号：XYZ") == Some("ABC-123 合同编号")
  {
    var a, b, c := "商机编号：", "ABC-123 合同编号", "：XYZ";
    var s := a + b + c;
    assert s == "商机编号：ABC-123 合同编号：XYZ";
    FirstColon(s, 0, 4);
    FirstColon(s, 5, 17);
    MiddleOfThree(a, b, c);
  }

  lemma ExampleTrimmed()
    ensures Trim("ABC-123 合同编号") == "ABC-123 合同编号"
  {
    var t := "ABC-123 合同编号";
    assert TrimStart(t) == t;
    assert TrimEnd(t) == t;
  }

  // ---------------------------------------------------------------------------
  // Look-ahead windows

  /** A row that ends the budget look-ahead: a label other than the amount
      labels `合同金额` and `软件金额`. */
  predicate BudgetStop(row: string) {
    IsKey(row) && !Contains(row, "合同金额") && !Contains(row, "软件金额")
  }

  /** The row the budget look-ahead settles on, searching rows `i + k` to
      `i + 8`: the first money line, unless a stopping row comes first. */
  function BudgetRow(lines: seq<string>, i: nat, k: nat): (r: Option<nat>)
    requires i < |lines| && 1 <= k
    ensures r.Some? ==>
      && i + k <= r.value <= i + 8 && r.value < |lines|
      && IsMoneyLine(lines[r.value]) && !BudgetStop(lines[r.value])
      && forall q | i + k <= q < r.value :: !BudgetStop(lines[q]) && !IsMoneyLine(lines[q])
    decreases 9 - k
  {
    if k > 8 || i + k >= |lines| then None
    else if BudgetStop(lines[i + k]) then None
    else if IsMoneyLine(lines[i + k]) then Some(i + k)
    else BudgetRow(lines, i, k + 1)
  }

  /** The look-ahead gives up only when every money line in its window comes
      after a stopping row. */
  lemma {:induction false} BudgetRowNone(lines: seq<string>, i: nat, k: nat, q: nat)
    requires i < |lines| && 1 <= k
    requires BudgetRow(lines, i, k).None?
    requires i + k <= q <= i + 8 && q < |lines| && IsMoneyLine(lines[q])
    ensures exists p | i + k <= p <= q :: BudgetStop(lines[p])
    decreases 9 - k
  {
    if !BudgetStop(lines[i + k]) {
      BudgetRowNone(lines, i, k + 1, q);
    }
  }

  /** The budget read from a `项目预算` line: the second piece of the line when it
      is a money line, else the row the look-ahead settles on. */
  function BudgetValue(lines: seq<string>, i: nat): (r: Option<string>)
    requires i < |lines|
    ensures r.Some? ==> IsMoneyLine(r.value)
    ensures ColonSegment(lines[i]).Some? && IsMoneyLine(ColonSegment(lines[i]).value) ==>
      r == ColonSegment(lines[i])
    ensures !(ColonSegment(lines[i]).Some? && IsMoneyLine(ColonSegment(lines[i]).value)) ==>
      (r.Some? <==> BudgetRow(lines, i, 1).Some?) && (r.Some? ==> r.value == lines[BudgetRow(lines, i, 1).value])
  {
    var seg := ColonSegment(lines[i]);
    if seg.Some? && IsMoneyLine(seg.value) then seg
    else match BudgetRow(lines, i, 1)
      case None => None
      case Some(q) => Some(lines[q])
  }

  /** A row that can hold the external purchase amount. */
  predicate ExtAmountRow(row: string) {
    HasDigit(row) && !Contains(row, "结构")
  }

  /** The first row among `i + k` to `i + 3` that can hold the external purchase
      amount. */
  function ExtRow(lines: seq<string>, i: nat, k: nat): (r: Option<nat>)
    requires 1 <= k
    ensures r.Some? ==>
      && i + k <= r.value <= i + 3 && r.value < |lines| && ExtAmountRow(lines[r.value])
      && forall q | i + k <= q < r.value :: !ExtAmountRow(lines[q])
    ensures r.None? ==> forall q | i + k <= q <= i + 3 && q < |lines| :: !ExtAmountRow(lines[q])
    decreases 4 - k
  {
    if k > 3 || i + k >= |lines| then None
    else if ExtAmountRow(lines[i + k]) then Some(i + k)
    else ExtRow(lines, i, k + 1)
  }

  // ---------------------------------------------------------------------------
  // Multi-line captures

  /** A row that ends a multi-line capture: a label that is not a numbered item,
      or (for the construction content) a row starting with `项目预算`. */
  predicate CaptureStop(row: string, atBudget: bool) {
    (atBudget && StartsWith(row, "项目预算")) || (IsKey(row) && !NumberedItem(row))
  }

  /** The first stopping row at or after `j`, or the number of lines. */
  function CaptureEnd(lines: seq<string>, j: nat, atBudget: bool): (e: nat)
    requires j <= |lines|
    ensures j <= e <= |lines|
    ensures forall q | j <= q < e :: !CaptureStop(lines[q], atBudget)
    ensures e == |lines| || CaptureStop(lines[e], atBudget)
    decreases |lines| - j
  {
    if j == |lines| || CaptureStop(lines[j], atBudget) then j
    else CaptureEnd(lines, j + 1, atBudget)
  }

  // ---------------------------------------------------------------------------
  // Percentages

  /** `-?\d+(\.\d+)?`: an optionally signed decimal number. */
  predicate Unsigned(u: string) {
    || (u != [] && AllDigits(u))
    || exists d | 0 < d < |u| - 1 :: u[d] == '.' && AllDigits(u[..d]) && AllDigits(u[d + 1..])
  }

  predicate IsNumber(t: string) {
    Unsigned(t) || (t != [] && t[0] == '-' && Unsigned(t[1..]))
  }

  /** The end of a match of `-?\d+(\.\d+)?%` that starts at `p`, if one does.
      Neither the digit runs nor the optional parts can give back characters to
      make a match, so one greedy pass decides. */
  function PercentEnd(s: string, p: nat): (r: Option<nat>)
    requires p <= |s|
    ensures r.Some? ==> p < r.value <= |s|
  {
    var q := if p < |s| && s[p] == '-' then p + 1 else p;
    if q < |s| && IsDigit(s[q]) then
      var d := DigitRunEnd(s, q);
      if d < |s| && s[d] == '%' then Some(d + 1)
      else if d + 1 < |s| && s[d] == '.' && IsDigit(s[d + 1]) then
        var e := DigitRunEnd(s, d + 1);
        if e < |s| && s[e] == '%' then Some(e + 1) else None
      else None
    else None
  }

  lemma AllDigitsSlice(s: string, a: nat, b: nat)
    requires a <= b <= |s| && forall k | a <= k < b :: IsDigit(s[k])
    ensures AllDigits(s[a..b])
  {
    forall k | 0 <= k < b - a ensures IsDigit(s[a..b][k]) {
      assert s[a..b][k] == s[a + k];
    }
  }

  lemma SliceAround(s: string, a: nat, b: nat, c: nat)
    requires a <= b < c <= |s|
    ensures s[a..c][..b - a] == s[a..b]
    ensures s[a..c][b - a] == s[b]
    ensures s[a..c][b - a + 1..] == s[b + 1..c]
  {
  }

  /** A digit run, then optionally `.` and a second digit run, is unsigned. */
  lemma UnsignedSlice(s: string, q: nat, d: nat, e: nat)
    requires q < d <= e <= |s|
    requires forall k | q <= k < d :: IsDigit(s[k])
    requires e > d ==> s[d] == '.' && e >= d + 2 && forall k | d + 1 <= k < e :: IsDigit(s[k])
    ensures Unsigned(s[q..e])
  {
    AllDigitsSlice(s, q, d);
    if e > d {
      AllDigitsSlice(s, d + 1, e);
      SliceAround(s, q, d, e);
      var u := s[q..e];
      assert u[d - q] == '.' && AllDigits(u[..d - q]) && AllDigits(u[d - q + 1..]);
    }
  }

  /** An unsigned number after an optional `-` is a number. */
  lemma SignedSlice(s: string, p: nat, q: nat, e: nat)
    requires p <= q <= e <= |s|
    requires q == p || (q == p + 1 && s[p] == '-')
    requires Unsigned(s[q..e])
    ensures IsNumber(s[p..e])
  {
    if q == p + 1 {
      assert s[p..e][1..] == s[q..e];
    }
  }

  /** What `PercentEnd` finds is a number followed by `%`. */
  lemma PercentEndSound(s: string, p: nat)
    requires p <= |s| && PercentEnd(s, p).Some?
    ensures s[PercentEnd(s, p).value - 1] == '%'
    ensures IsNumber(s[p..PercentEnd(s, p).value - 1])
  {
    var q := if p < |s| && s[p] == '-' then p + 1 else p;
    var d := DigitRunEnd(s, q);
    var m := PercentEnd(s, p).value - 1;
    UnsignedSlice(s, q, d, m);
    SignedSlice(s, p, q, m);
  }

  /** The first position at or after `p` where a percentage starts. */
  function PercentFrom(s: string, p: nat): (r: Option<nat>)
    requires p <= |s|
    ensures r.Some? ==> p <= r.value < |s| && PercentEnd(s, r.value).Some?
    ensures forall k | p <= k < |s| && (r.None? || k < r.value) :: PercentEnd(s, k).None?
    decreases |s| - p
  {
    if p == |s| then None
    else if PercentEnd(s, p).Some? then Some(p)
    else PercentFrom(s, p + 1)
  }

  /** `line.match(/(-?\d+(\.\d+)?)%/)[0]`: the leftmost percentage in the line. */
  function PercentToken(s: string): (r: Option<string>)
    ensures r.Some? ==> exists p | 0 <= p < |s| :: OccursAt(s, r.value, p)
  {
    match PercentFrom(s, 0)
    case None => None
    case Some(p) =>
      var e := PercentEnd(s, p).value;
      assert OccursAt(s, s[p..e], p);
      Some(s[p..e])
  }

  /** A percentage is a number followed by `%`, and it is found at the leftmost
      position where one starts: no number followed by `%` starts earlier. */
  lemma PercentTokenIsLeftmost(s: string)
    requires PercentToken(s).Some?
    ensures exists p | 0 <= p < |s| ::
      && OccursAt(s, PercentToken(s).value, p)
      && PercentToken(s).value[|PercentToken(s).value| - 1] == '%'
      && IsNumber(PercentToken(s).value[..|PercentToken(s).value| - 1])
      && forall k, q | 0 <= k < p && k < q < |s| && s[q] == '%' :: !IsNumber(s[k..q])
  {
    var p := PercentFrom(s, 0).value;
    var e := PercentEnd(s, p).value;
    var t := s[p..e];
    assert PercentToken(s).value == t;
    PercentEndSound(s, p);
    assert t[..|t| - 1] == s[p..e - 1];
    assert OccursAt(s, t, p);
    NoPercentBefore(s, p);
  }

  /** Where `PercentEnd` fails everywhere before `p`, no number followed by `%`
      starts before `p`. */
  lemma NoPercentBefore(s: string, p: nat)
    requires p <= |s| && forall k | 0 <= k < p :: PercentEnd(s, k).None?
    ensures forall k, q | 0 <= k < p && k < q < |s| && s[q] == '%' :: !IsNumber(s[k..q])
  {
    forall k, q | 0 <= k < p && k < q < |s| && s[q] == '%' ensures !IsNumber(s[k..q]) {
      if IsNumber(s[k..q]) {
        PercentEndComplete(s, k, q);
      }
    }
  }

  /** A line holding a number followed by `%` has a percentage token. */
  lemma PercentTokenFinds(s: string, k: nat, q: nat)
    requires k < q < |s| && s[q] == '%' && IsNumber(s[k..q])
    ensures PercentToken(s).Some?
  {
    PercentEndComplete(s, k, q);
  }

  /** `PercentEnd` finds every number followed by `%`, with its whole extent. */
  lemma PercentEndComplete(s: string, k: nat, q: nat)
    requires k < q < |s| && s[q] == '%' && IsNumber(s[k..q])
    ensures PercentEnd(s, k) == Some(q + 1)
  {
    var q0, d := NumberParts(s, k, q);
    PercentEndAt(s, k, q0, d, q);
  }

  /** A signed number followed by `%` at `e`, read as its parts. */
  lemma PercentEndAt(s: string, k: nat, q0: nat, d: nat, e: nat)
    requires k < |s| && q0 == (if s[k] == '-' then k + 1 else k)
    requires q0 < d <= e < |s| && s[e] == '%'
    requires forall j | q0 <= j < d :: IsDigit(s[j])
    requires d == e || (s[d] == '.' && d + 2 <= e && forall j | d + 1 <= j < e :: IsDigit(s[j]))
    ensures PercentEnd(s, k) == Some(e + 1)
  {
    if d == e {
      DigitRunEndAt(s, q0, e);
    } else {
      DigitRunEndAt(s, q0, d);
      DigitRunEndAt(s, d + 1, e);
    }
  }

  /** The sign, the integer digits and the fraction of a number in the text. */
  lemma NumberParts(s: string, k: nat, q: nat) returns (q0: nat, d: nat)
    requires k < q <= |s| && IsNumber(s[k..q])
    ensures q0 == (if s[k] == '-' then k + 1 else k)
    ensures q0 < d <= q && forall j | q0 <= j < d :: IsDigit(s[j])
    ensures d == q || (s[d] == '.' && d + 2 <= q && forall j | d + 1 <= j < q :: IsDigit(s[j]))
  {
    q0 := if s[k] == '-' then k + 1 else k;
    SignedUnsigned(s, k, q);
    var m := UnsignedParts(s[q0..q]);
    d := q0 + m;
    SliceDigits(s, q0, q, 0, m);
    if d < q {
      assert s[q0..q][m] == s[d];
      SliceDigits(s, q0, q, m + 1, q - q0);
    }
  }

  /** Past the optional sign, a number is unsigned. */
  lemma SignedUnsigned(s: string, k: nat, q: nat)
    requires k < q <= |s| && IsNumber(s[k..q])
    ensures s[k] == '-' ==> k + 1 <= q && Unsigned(s[k + 1..q])
    ensures s[k] != '-' ==> Unsigned(s[k..q])
  {
    var u := s[k..q];
    assert u[0] == s[k];
    if s[k] == '-' {
      assert !IsDigit(u[0]);
      assert u[1..] == s[k + 1..q];
    }
  }

  /** The integer digits and the fraction of an unsigned number. */
  lemma UnsignedParts(v: string) returns (m: nat)
    requires Unsigned(v)
    ensures 0 < m <= |v| && forall j | 0 <= j < m :: IsDigit(v[j])
    ensures m == |v| || (v[m] == '.' && m + 2 <= |v| && forall j | m + 1 <= j < |v| :: IsDigit(v[j]))
  {
    if v != [] && AllDigits(v) {
      m := |v|;
    } else {
      m :| 0 < m < |v| - 1 && v[m] == '.' && AllDigits(v[..m]) && AllDigits(v[m + 1..]);
      assert forall j | 0 <= j < m :: v[..m][j] == v[j];
      assert forall j | m + 1 <= j < |v| :: v[m + 1..][j - m - 1] == v[j];
    }
  }

  lemma SliceDigits(s: string, a: nat, b: nat, i: nat, j: nat)
    requires a <= b <= |s| && i <= j <= b - a
    requires forall x | i <= x < j :: IsDigit(s[a..b][x])
    ensures forall x | a + i <= x < a + j :: IsDigit(s[x])
  {
    forall x | a + i <= x < a + j ensures IsDigit(s[x]) {
      assert s[a..b][x - a] == s[x];
    }
  }

  // ---------------------------------------------------------------------------
  // Dispatch

  /** Code points above U+FFFF count twice in JavaScript's `length`. */
  function Utf16Length(s: string): (n: nat)
    ensures |s| <= n <= 2 * |s|
    ensures n == |s| <==> forall k | 0 <= k < |s| :: s[k] as int <= 0xFFFF
  {
    if s == [] then 0 else (if s[0] as int > 0xFFFF then 2 else 1) + Utf16Length(s[1..])
  }

  /** The length of a text is the sum of the lengths of its parts. */
  lemma {:induction false} Utf16LengthAppend(a: string, b: string)
    ensures Utf16Length(a + b) == Utf16Length(a) + Utf16Length(b)
  {
    if a != [] {
      assert (a + b)[1..] == a[1..] + b;
      Utf16LengthAppend(a[1..], b);
    } else {
      assert a + b == b;
    }
  }

  /** One character counts two exactly when it lies above U+FFFF. */
  lemma Utf16LengthChar(c: char)
    ensures Utf16Length([c]) == (if c as int > 0xFFFF then 2 else 1)
  {
    assert [c][1..] == [];
  }

  /** What a line does to the result, as decided by the dispatch chain. */
  datatype Kind =
    | ValueLine(field: Field)                    // the field takes `getValue()`
    | PercentLine(field: Field)                  // the percentage in the line, else `getValue()`
    | LevelLine                                  // `getValue()` when shorter than 10
    | BudgetLine                                 // the inline amount or the 8-row look-ahead
    | ExtBudgetLine                              // the 3-row look-ahead
    | CaptureLine(field: Field, atBudget: bool)  // the inline value plus the following rows
    | Plain                                      // nothing

  /** The field a kind of line may assign. */
  function Target(kind: Kind): set<Field> {
    match kind
    case ValueLine(f) => {f}
    case PercentLine(f) => {f}
    case LevelLine => {Level}
    case BudgetLine => {Budget}
    case ExtBudgetLine => {ExtBudget}
    case CaptureLine(f, _) => {f}
    case Plain => {}
  }

  /** The dispatch chain of the scanner, in its order: the first test that holds
      decides the kind of the line. */
  function Classify(line: string): (r: Kind)
    ensures Dedicated(r)
  {
    if Contains(line, "商机编号") && !Contains(line, "mss") then ValueLine(BusinessCode)
    else if StartsWith(line, "项目预算") then BudgetLine
    else if Contains(line, "毛利率") then PercentLine(GrossMargin)
    else if Contains(line, "净利润率") then PercentLine(NetMargin)
    else if StartsWith(line, "建设内容") then CaptureLine(Content, true)
    else if StartsWith(line, "项目后向采购基本情况") then CaptureLine(ProcurementSituation, false)
    else if Contains(line, "外部采购预算") || Contains(line, "外部采购金额") then ExtBudgetLine
    else if Contains(line, "项目名称") && !Contains(line, "ID") then ValueLine(ProjectName)
    else if StartsWith(line, "签约客户") || StartsWith(line, "客户名称") then ValueLine(Client)
    else if StartsWith(line, "项目级别") then LevelLine
    else if Contains(line, "产品能力") then ValueLine(CapacityType)
    else if Contains(line, "是否需要后向采购") then ValueLine(Procurement)
    else if StartsWith(line, "业务类型") then ValueLine(BusinessType)
    else if StartsWith(line, "投标方式") || StartsWith(line, "签约类型") then ValueLine(BiddingMethod)
    else if StartsWith(line, "投标主体") then ValueLine(BiddingEntity)
    else if Contains(line, "项目工期") || Contains(line, "服务期") then ValueLine(Duration)
    else if StartsWith(line, "项目经理") then ValueLine(Pm)
    else if StartsWith(line, "销售经理") then ValueLine(Sales)
    else if StartsWith(line, "方案经理") || StartsWith(line, "售前解方经理") then ValueLine(Solution)
    else if StartsWith(line, "交付经理") then ValueLine(Delivery)
    else Plain
  }

  /** What the extractor guarantees about the values it stores. */
  predicate WellFormed(res: Extracted) {
    && (Budget in res ==> IsMoneyLine(res[Budget]))
    && (ExtBudget in res ==> ExtAmountRow(res[ExtBudget]))
    && (Level in res ==> Utf16Length(res[Level]) < 10)
  }

  /** One turn of the scanner at line `i`: the updated result and the next line
      to dispatch. A capture jumps past the rows it consumed. */
  function Step(lines: seq<string>, i: nat, res: Extracted): (r: (Extracted, nat))
    requires i < |lines|
    ensures i < r.1 <= |lines|
    ensures Classify(lines[i]).CaptureLine? ==> r.1 == CaptureEnd(lines, i + 1, Classify(lines[i]).atBudget)
    ensures !Classify(lines[i]).CaptureLine? ==> r.1 == i + 1
  {
    StepAs(lines, i, res, Classify(lines[i]))
  }

  /** What line `i` does to the result once its kind is known. */
  function StepAs(lines: seq<string>, i: nat, res: Extracted, kind: Kind): (r: (Extracted, nat))
    requires i < |lines|
    ensures i < r.1 <= |lines|
    ensures kind.CaptureLine? ==> r.1 == CaptureEnd(lines, i + 1, kind.atBudget)
    ensures !kind.CaptureLine? ==> r.1 == i + 1
  {
    match kind
    case ValueLine(f) => (res[f := GetValue(lines, i)], i + 1)
    case PercentLine(f) =>
      var token := PercentToken(lines[i]);
      (res[f := if token.Some? then token.value else GetValue(lines, i)], i + 1)
    case LevelLine =>
      var v := GetValue(lines, i);
      (if Utf16Length(v) < 10 then res[Level := v] else res, i + 1)
    case BudgetLine =>
      var v := BudgetValue(lines, i);
      (if v.Some? then res[Budget := v.value] else res, i + 1)
    case ExtBudgetLine =>
      var q := ExtRow(lines, i, 1);
      (if q.Some? then res[ExtBudget := lines[q.value]] else res, i + 1)
    case CaptureLine(f, atBudget) =>
      var e := CaptureEnd(lines, i + 1, atBudget);
      (res[f := Join(InlineValue(lines[i]) + lines[i + 1..e], "\n")], e)
    case Plain => (res, i + 1)
  }

  /** The checked fields (budget, external amount, level) are only ever
      assigned by the lines that check them. */
  predicate Checked(f: Field) {
    f == Budget || f == ExtBudget || f == Level
  }

  predicate Dedicated(kind: Kind) {
    match kind
    case ValueLine(f) => !Checked(f)
    case PercentLine(f) => !Checked(f)
    case CaptureLine(f, _) => !Checked(f)
    case _ => true
  }

  /** A line assigns at most the field its kind names and leaves every other
      field as it was. */
  lemma StepFrame(lines: seq<string>, i: nat, res: Extracted)
    requires i < |lines|
    ensures Step(lines, i, res).0.Keys <= res.Keys + Target(Classify(lines[i]))
    ensures forall f | f in res && f !in Target(Classify(lines[i])) ::
      f in Step(lines, i, res).0 && Step(lines, i, res).0[f] == res[f]
  {
    match Classify(lines[i])
    case ValueLine(f) =>
    case PercentLine(f) =>
    case LevelLine =>
    case BudgetLine =>
    case ExtBudgetLine =>
    case CaptureLine(f, atBudget) =>
    case Plain =>
  }

  /** A line keeps the stored values well formed. */
  lemma StepWellFormed(lines: seq<string>, i: nat, res: Extracted)
    requires i < |lines| && WellFormed(res)
    ensures WellFormed(Step(lines, i, res).0)
  {
    StepAsWellFormed(lines, i, res, Classify(lines[i]));
  }

  lemma StepAsWellFormed(lines: seq<string>, i: nat, res: Extracted, kind: Kind)
    requires i < |lines| && WellFormed(res) && Dedicated(kind)
    ensures WellFormed(StepAs(lines, i, res, kind).0)
  {
  }

  /** The scanner from line `i` on. */
  function Scan(lines: seq<string>, i: nat, res: Extracted): Extracted
    requires i <= |lines|
    decreases |lines| - i
  {
    if i == |lines| then res
    else
      var s := Step(lines, i, res);
      Scan(lines, s.1, s.0)
  }

  /** `parseVerticalData(text)`. */
  function VerticalData(text: string): Extracted {
    Scan(PasteLines(text), 0, map[])
  }

  /** A field is present only if the input had a line whose kind assigns it. */
  lemma {:induction false} ScanOrigin(lines: seq<string>, i: nat, res: Extracted, f: Field)
    requires i <= |lines| && f in Scan(lines, i, res)
    ensures f in res || exists q | i <= q < |lines| :: f in Target(Classify(lines[q]))
    decreases |lines| - i
  {
    if i < |lines| {
      var s := Step(lines, i, res);
      ScanOrigin(lines, s.1, s.0, f);
      StepFrame(lines, i, res);
      if f !in res && f in s.0 {
        assert f in Target(Classify(lines[i]));
      }
    }
  }

  lemma VerticalDataOrigin(text: string, f: Field)
    requires f in VerticalData(text)
    ensures exists q | 0 <= q < |PasteLines(text)| :: f in Target(Classify(PasteLines(text)[q]))
  {
    ScanOrigin(PasteLines(text), 0, map[], f);
  }

  /** Every line keeps the stored values well formed. */
  lemma {:induction false} ScanWellFormed(lines: seq<string>, i: nat, res: Extracted)
    requires i <= |lines| && WellFormed(res)
    ensures WellFormed(Scan(lines, i, res))
    decreases |lines| - i
  {
    if i < |lines| {
      var s := Step(lines, i, res);
      StepWellFormed(lines, i, res);
      ScanWellFormed(lines, s.1, s.0);
    }
  }

  /** A stored budget is a money line, a stored external amount has a digit and
      no `结构`, and a stored level is shorter than ten UTF-16 units. */
  lemma VerticalDataWellFormed(text: string)
    ensures WellFormed(VerticalData(text))
  {
    ScanWellFormed(PasteLines(text), 0, map[]);
  }

  // ---------------------------------------------------------------------------
  // The scanner

  /** `parseVerticalData`. */
  method ParseVerticalData(text: string) returns (result: Extracted)
    ensures result == VerticalData(text)
  {
    var lines := PasteLines(text);
    result := map[];
    var i := 0;
    while i < |lines|
      invariant i <= |lines|
      invariant Scan(lines, i, result) == Scan(lines, 0, map[])
      decreases |lines| - i
    {
      result, i := ScanLine(lines, i, result);
    }
  }

  /** The body of the scanner's loop: dispatches line `i` and returns the index
      the loop continues after (`i`, or `j - 1` after a capture). */
  method ScanLine(lines: seq<string>, i: nat, result: Extracted) returns (res: Extracted, next: nat)
    requires i < |lines|
    ensures (res, next) == Step(lines, i, result)
  {
    var line := lines[i];
    res, next := result, i + 1;
    match Classify(line)
    case ValueLine(f) =>
      res := result[f := GetValue(lines, i)];
    case PercentLine(f) =>
      var token := PercentToken(line);
      res := result[f := if token.Some? then token.value else GetValue(lines, i)];
    case LevelLine =>
      var v := GetValue(lines, i);
      if Utf16Length(v) < 10 {
        res := result[Level := v];
      }
    case BudgetLine =>
      var seg := ColonSegment(line);
      if seg.Some? && IsMoneyLine(seg.value) {
        res := result[Budget := seg.value];
      } else {
        var row := FindBudgetRow(lines, i);
        if row.Some? {
          res := result[Budget := lines[row.value]];
        }
      }
    case ExtBudgetLine =>
      var row := FindExtRow(lines, i);
      if row.Some? {
        res := result[ExtBudget := lines[row.value]];
      }
    case CaptureLine(f, atBudget) =>
      var parts, j := CaptureRows(lines, i, atBudget);
      res, next := result[f := Join(parts, "\n")], j;
    case Plain =>
  }

  /** The budget look-ahead loop: up to eight rows after line `i`. */
  method FindBudgetRow(lines: seq<string>, i: nat) returns (row: Option<nat>)
    requires i < |lines|
    ensures row == BudgetRow(lines, i, 1)
  {
    row := None;
    var k := 1;
    while k <= 8
      invariant 1 <= k <= 9
      invariant BudgetRow(lines, i, k) == BudgetRow(lines, i, 1)
    {
      if i + k >= |lines| {
        break;
      }
      var nextRow := lines[i + k];
      if BudgetStop(nextRow) {
        break;
      }
      if IsMoneyLine(nextRow) {
        row := Some(i + k);
        break;
      }
      k := k + 1;
    }
  }

  /** The external purchase look-ahead loop: up to three rows after line `i`. */
  method FindExtRow(lines: seq<string>, i: nat) returns (row: Option<nat>)
    ensures row == ExtRow(lines, i, 1)
  {
    row := None;
    var k := 1;
    while k <= 3
      invariant 1 <= k <= 4
      invariant ExtRow(lines, i, k) == ExtRow(lines, i, 1)
    {
      if i + k >= |lines| {
        break;
      }
      var nextRow := lines[i + k];
      if ExtAmountRow(nextRow) {
        row := Some(i + k);
        break;
      }
      k := k + 1;
    }
  }

  /** A multi-line capture: the inline value of line `i`, then every row up to
      the first stopping row. Returns the captured texts and the stopping row's
      index, where the scanner resumes. */
  method CaptureRows(lines: seq<string>, i: nat, atBudget: bool) returns (parts: seq<string>, j: nat)
    requires i < |lines|
    ensures j == CaptureEnd(lines, i + 1, atBudget)
    ensures parts == InlineValue(lines[i]) + lines[i + 1..j]
  {
    parts := InlineValue(lines[i]);
    ghost var head := parts;
    j := i + 1;
    while j < |lines|
      invariant i + 1 <= j <= |lines|
      invariant CaptureEnd(lines, j, atBudget) == CaptureEnd(lines, i + 1, atBudget)
      invariant parts == head + lines[i + 1..j]
      decreases |lines| - j
    {
      if CaptureStop(lines[j], atBudget) {
        break;
      }
      SliceSnoc(lines, i + 1, j);
      AppendAssoc(head, lines[i + 1..j], [lines[j]]);
      parts := parts + [lines[j]];
      j := j + 1;
    }
  }
}
