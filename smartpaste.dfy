/** The "paste without typing" action (`handleSmartPaste`): once the extractor
    has read the pasted text, each extracted value is cleaned and written into
    the form, in a fixed order, and the action reports how many elements it
    filled. The decisions (what is written where) are pure and collected in
    `Requests`; the page is an object whose element values the setters update. */
module SmartPaste {
  import opened Text
  import opened Values
  import opened Paste

  // ---------------------------------------------------------------------------
  // Cleaning the extracted values

  /** The first position at or after `p` where `[\s\t\n]+|合同编号|项目类型`
      matches: white space or the start of either label. */
  function CodeCut(s: string, p: nat): (r: nat)
    requires p <= |s|
    ensures p <= r <= |s|
    ensures r < |s| ==> IsSpace(s[r]) || OccursAt(s, "合同编号", r) || OccursAt(s, "项目类型", r)
    ensures forall k | p <= k < r :: !IsSpace(s[k]) && !OccursAt(s, "合同编号", k) && !OccursAt(s, "项目类型", k)
    decreases |s| - p
  {
    if p == |s| || IsSpace(s[p]) || OccursAt(s, "合同编号", p) || OccursAt(s, "项目类型", p) then p
    else CodeCut(s, p + 1)
  }

  /** `code.split(/[\s\t\n]+|合同编号|项目类型/)[0]`: the business code up to the
      first white space or the first of the two labels that follow it. */
  function CleanCode(code: string): (r: string)
    ensures StartsWith(code, r)
    ensures forall k | 0 <= k < |r| :: !IsSpace(r[k])
  {
    code[..CodeCut(code, 0)]
  }

  /** The cleaned code is the longest prefix in which neither white space nor
      a label starts. */
  lemma CleanCodeLongest(code: string)
    ensures forall k | 0 <= k < |CleanCode(code)| ::
      !OccursAt(code, "合同编号", k) && !OccursAt(code, "项目类型", k)
    ensures |CleanCode(code)| < |code| ==>
      var n := |CleanCode(code)|;
      IsSpace(code[n]) || OccursAt(code, "合同编号", n) || OccursAt(code, "项目类型", n)
  {
  }

  /** A code copied together with the next label is cut before it. */
  lemma CleanCodeExample()
    ensures CleanCode("ABC-123 合同编号") == "ABC-123"
  {
    var s := "ABC-123 合同编号";
    assert IsSpace(s[7]);
    forall k | 0 <= k < 7
      ensures !IsSpace(s[k]) && !OccursAt(s, "合同编号", k) && !OccursAt(s, "项目类型", k)
    {
      assert s[k] != '合' && s[k] != '项' && !IsSpace(s[k]);
      NotOccursAt(s, "合同编号", k);
      NotOccursAt(s, "项目类型", k);
    }
    FirstCut(s, 7);
    assert s[..7] == "ABC-123";
  }

  lemma FirstCut(s: string, c: nat)
    requires c < |s| && IsSpace(s[c])
    requires forall k | 0 <= k < c :: !IsSpace(s[k]) && !OccursAt(s, "合同编号", k) && !OccursAt(s, "项目类型", k)
    ensures CodeCut(s, 0) == c
  {
  }

  predicate IsDigitOrComma(c: char) {
    IsDigit(c) || c == ','
  }

  /** The end of the run of digits and commas that starts at `i`. */
  function AmountRunEnd(s: string, i: nat): (j: nat)
    requires i <= |s|
    ensures i <= j <= |s|
    ensures forall k | i <= k < j :: IsDigitOrComma(s[k])
    ensures j == |s| || !IsDigitOrComma(s[j])
    decreases |s| - i
  {
    if i < |s| && IsDigitOrComma(s[i]) then AmountRunEnd(s, i + 1) else i
  }

  /** The first digit or comma at or after `p`. */
  function AmountStart(s: string, p: nat): (r: nat)
    requires p <= |s|
    ensures p <= r <= |s|
    ensures r < |s| ==> IsDigitOrComma(s[r])
    ensures forall k | p <= k < r :: !IsDigitOrComma(s[k])
    decreases |s| - p
  {
    if p == |s| || IsDigitOrComma(s[p]) then p else AmountStart(s, p + 1)
  }

  /** `(\.\d+)?` taken greedily at `d` ends at `e`: a point followed by a digit
      is taken together with its whole digit run, anything else is skipped. */
  predicate FractionAt(s: string, d: nat, e: nat)
    requires d <= e <= |s|
  {
    if d + 1 < |s| && s[d] == '.' && IsDigit(s[d + 1]) then
      e >= d + 2 && (forall k | d + 1 <= k < e :: IsDigit(s[k])) && (e == |s| || !IsDigit(s[e]))
    else e == d
  }

  /** The end of an optional `\.\d+` at `e`. */
  function FractionEnd(s: string, e: nat): (r: nat)
    requires e <= |s|
    ensures e <= r <= |s|
    ensures FractionAt(s, e, r)
  {
    if e + 1 < |s| && s[e] == '.' && IsDigit(s[e + 1]) then DigitRunEnd(s, e + 1) else e
  }

  /** `s.match(/[\d,]+(\.\d+)?/)[0]`, when there is a match. */
  function AmountMatch(s: string): (r: Option<string>)
    ensures r.Some? ==> r.value != [] && exists p | 0 <= p < |s| :: OccursAt(s, r.value, p)
    ensures r.None? <==> forall k | 0 <= k < |s| :: !IsDigitOrComma(s[k])
  {
    var p := AmountStart(s, 0);
    if p == |s| then None
    else
      var e := FractionEnd(s, AmountRunEnd(s, p));
      assert OccursAt(s, s[p..e], p);
      Some(s[p..e])
  }

  /** The match is the leftmost-longest token: for the first digit or comma at
      `p`, the maximal run of digits and commas up to `d` and the greedy
      fraction up to `e`, the match is `s[p..e]`. */
  lemma AmountMatchLeftmostLongest(s: string, p: nat, d: nat, e: nat)
    requires p < d <= e <= |s|
    requires forall k | 0 <= k < p :: !IsDigitOrComma(s[k])
    requires forall k | p <= k < d :: IsDigitOrComma(s[k])
    requires d == |s| || !IsDigitOrComma(s[d])
    requires FractionAt(s, d, e)
    ensures AmountMatch(s) == Some(s[p..e])
  {
    AmountStartAt(s, p);
    AmountRunEndAt(s, p, d);
    FractionEndAt(s, d, e);
  }

  lemma AmountStartAt(s: string, p: nat)
    requires p < |s| && IsDigitOrComma(s[p])
    requires forall k | 0 <= k < p :: !IsDigitOrComma(s[k])
    ensures AmountStart(s, 0) == p
  {
  }

  lemma AmountRunEndAt(s: string, p: nat, d: nat)
    requires p <= d <= |s|
    requires forall k | p <= k < d :: IsDigitOrComma(s[k])
    requires d == |s| || !IsDigitOrComma(s[d])
    ensures AmountRunEnd(s, p) == d
  {
  }

  lemma FractionEndAt(s: string, d: nat, e: nat)
    requires d <= e <= |s| && FractionAt(s, d, e)
    ensures FractionEnd(s, d) == e
  {
  }

  /** `t.replace(/,/g, '')`. */
  function RemoveCommas(t: string): (r: string)
    ensures |r| <= |t| && ',' !in r
    ensures forall c | c in r :: c in t
  {
    if t == [] then [] else (if t[0] == ',' then [] else [t[0]]) + RemoveCommas(t[1..])
  }

  /** The amount written into a money field: the first amount in the text with
      its thousands separators removed. It holds only digits and at most one
      decimal point, and it is empty when the amount was only commas. */
  function AmountText(s: string): (r: Option<string>)
    ensures r.None? <==> forall k | 0 <= k < |s| :: !IsDigitOrComma(s[k])
  {
    match AmountMatch(s)
    case None => None
    case Some(m) => Some(RemoveCommas(m))
  }

  /** The amount written is the leftmost-longest `[\d,]+(\.\d+)?` token with
      its commas removed. */
  lemma AmountTextLeftmostLongest(s: string, p: nat, d: nat, e: nat)
    requires p < d <= e <= |s|
    requires forall k | 0 <= k < p :: !IsDigitOrComma(s[k])
    requires forall k | p <= k < d :: IsDigitOrComma(s[k])
    requires d == |s| || !IsDigitOrComma(s[d])
    requires FractionAt(s, d, e)
    ensures AmountText(s) == Some(RemoveCommas(s[p..e]))
  {
    AmountMatchLeftmostLongest(s, p, d, e);
  }

  /** What an amount reads as: digits, then possibly one point and digits. */
  lemma AmountTextShape(s: string)
    requires AmountText(s).Some?
    ensures forall c | c in AmountText(s).value :: IsDigit(c) || c == '.'
    ensures CountChar(AmountText(s).value, '.') <= 1
  {
    var p := AmountStart(s, 0);
    var d := AmountRunEnd(s, p);
    var e := FractionEnd(s, d);
    var x, y := s[p..d], s[d..e];
    SliceSplit(s, p, d, e);
    forall k | 0 <= k < |x| ensures IsDigitOrComma(x[k]) {
      assert x[k] == s[p + k];
    }
    if y != [] {
      forall k | 1 <= k < |y| ensures IsDigit(y[k]) {
        assert y[k] == s[d + k];
      }
      assert y[0] == s[d];
    }
    CleanAmountShape(x, y);
  }

  lemma CleanAmountShape(x: string, y: string)
    requires forall k | 0 <= k < |x| :: IsDigitOrComma(x[k])
    requires y == [] || (y[0] == '.' && forall k | 1 <= k < |y| :: IsDigit(y[k]))
    ensures forall c | c in RemoveCommas(x + y) :: IsDigit(c) || c == '.'
    ensures CountChar(RemoveCommas(x + y), '.') <= 1
  {
    assert forall c | c in x :: IsDigitOrComma(c);
    if y != [] {
      forall c | c in y[1..] ensures IsDigit(c) {
        var k :| 0 <= k < |y[1..]| && y[1..][k] == c;
        assert y[k + 1] == c;
      }
    }
    RemoveCommasAppend(x, y);
    var a := RemoveCommas(x);
    assert forall c | c in a :: IsDigit(c);
    assert CountChar(a, '.') == 0;
    if y != [] {
      assert y == ['.'] + y[1..];
      RemoveCommasAppend(['.'], y[1..]);
      assert ',' !in y[1..];
      RemoveCommasNone(y[1..]);
      assert RemoveCommas(y) == ['.'] + y[1..];
      CountAppend(['.'], y[1..], '.');
      CountAppend(a, RemoveCommas(y), '.');
    } else {
      assert a + [] == a;
    }
  }

  lemma {:induction false} RemoveCommasAppend(x: string, y: string)
    ensures RemoveCommas(x + y) == RemoveCommas(x) + RemoveCommas(y)
  {
    if x != [] {
      assert (x + y)[1..] == x[1..] + y;
      RemoveCommasAppend(x[1..], y);
    } else {
      assert x + y == y;
    }
  }

  /** A text without commas is left as it is. */
  lemma {:induction false} RemoveCommasNone(x: string)
    requires ',' !in x
    ensures RemoveCommas(x) == x
  {
    if x != [] {
      assert x[0] in x;
      assert x == [x[0]] + x[1..];
      RemoveCommasNone(x[1..]);
    }
  }

  lemma {:induction false} CountAppend(x: string, y: string, c: char)
    ensures CountChar(x + y, c) == CountChar(x, c) + CountChar(y, c)
  {
    if x != [] {
      assert (x + y)[1..] == x[1..] + y;
      CountAppend(x[1..], y, c);
    } else {
      assert x + y == y;
    }
  }

  /** Thousands separators are dropped and the decimals kept. */
  lemma AmountTextExample()
    ensures AmountText("约1,234.50万元") == Some("1234.50")
  {
    ExampleAmountMatch();
    ExampleRemoveCommas();
  }

  lemma ExampleRemoveCommas()
    ensures RemoveCommas("1,234.50") == "1234.50"
  {
    var a, b := "1", "234.50";
    assert "1,234.50" == a + [','] + b;
    RemoveCommaBetween(a, b);
    assert a + b == "1234.50";
  }

  /** Removing the only comma of a text joins the parts around it. */
  lemma RemoveCommaBetween(a: string, b: string)
    requires ',' !in a && ',' !in b
    ensures RemoveCommas(a + [','] + b) == a + b
  {
    var c := [','];
    calc {
      RemoveCommas(a + c + b);
      { assert a + c + b == a + (c + b); }
      RemoveCommas(a + (c + b));
      { RemoveCommasAppend(a, c + b); RemoveCommasAppend(c, b); }
      RemoveCommas(a) + (RemoveCommas(c) + RemoveCommas(b));
      { assert c[1..] == []; RemoveCommasNone(a); RemoveCommasNone(b); }
      a + ([] + b);
      { assert [] + b == b; }
      a + b;
    }
  }

  lemma ExampleAmountMatch()
    ensures AmountMatch("约1,234.50万元") == Some("1,234.50")
  {
    var s := "约1,234.50万元";
    assert AmountStart(s, 0) == 1 by {
      assert !IsDigitOrComma(s[0]) && IsDigitOrComma(s[1]);
    }
    assert AmountRunEnd(s, 1) == 6 by {
      AmountRunAt(s, 1, 6);
    }
    assert FractionEnd(s, 6) == 9 by {
      assert s[6] == '.' && IsDigit(s[7]);
      DigitRunAt(s, 7, 9);
    }
    assert s[1..9] == "1,234.50";
  }

  lemma AmountRunAt(s: string, i: nat, j: nat)
    requires i <= j < |s| && !IsDigitOrComma(s[j]) && forall k | i <= k < j :: IsDigitOrComma(s[k])
    ensures AmountRunEnd(s, i) == j
  {
  }

  lemma DigitRunAt(s: string, i: nat, j: nat)
    requires i <= j < |s| && !IsDigit(s[j]) && forall k | i <= k < j :: IsDigit(s[k])
    ensures DigitRunEnd(s, i) == j
  {
  }

  /** Where a match of `-?\d+(\.\d+)?` starts. */
  predicate NumberStartsAt(s: string, p: nat)
    requires p < |s|
  {
    IsDigit(s[p]) || (s[p] == '-' && p + 1 < |s| && IsDigit(s[p + 1]))
  }

  function NumberStart(s: string, p: nat): (r: nat)
    requires p <= |s|
    ensures p <= r <= |s|
    ensures r < |s| ==> NumberStartsAt(s, r)
    ensures forall k | p <= k < r :: !NumberStartsAt(s, k)
    decreases |s| - p
  {
    if p == |s| || NumberStartsAt(s, p) then p else NumberStart(s, p + 1)
  }

  /** `s.match(/-?\d+(\.\d+)?/)[0]`: the leftmost signed decimal number. */
  function NumberMatch(s: string): (r: Option<string>)
    ensures r.None? <==> forall k | 0 <= k < |s| :: !NumberStartsAt(s, k)
  {
    var p := NumberStart(s, 0);
    if p == |s| then None
    else
      var q := if s[p] == '-' then p + 1 else p;
      Some(s[p..FractionEnd(s, DigitRunEnd(s, q))])
  }

  /** The margin written into the form is a number in the sense of the
      pattern, taken from the leftmost place where one starts. */
  lemma NumberMatchIsNumber(s: string)
    requires NumberMatch(s).Some?
    ensures IsNumber(NumberMatch(s).value)
    ensures exists p | 0 <= p < |s| ::
      OccursAt(s, NumberMatch(s).value, p) && forall k | 0 <= k < p :: !NumberStartsAt(s, k)
  {
    var p := NumberStart(s, 0);
    var q := if s[p] == '-' then p + 1 else p;
    var d := DigitRunEnd(s, q);
    var e := FractionEnd(s, d);
    var t := s[p..e];
    assert NumberMatch(s).value == t;
    UnsignedSlice(s, q, d, e);
    SignedSlice(s, p, q, e);
    assert OccursAt(s, t, p);
  }

  /** The margin is the leftmost-longest `-?\d+(\.\d+)?` match: from the first
      place `p` where a number starts, the optional sign, the maximal digit run
      from `q` to `d` and the greedy fraction up to `e`. */
  lemma NumberMatchLeftmostLongest(s: string, p: nat, q: nat, d: nat, e: nat)
    requires p < |s| && NumberStartsAt(s, p)
    requires forall k | 0 <= k < p :: !NumberStartsAt(s, k)
    requires q == (if s[p] == '-' then p + 1 else p)
    requires q < d <= e <= |s|
    requires forall k | q <= k < d :: IsDigit(s[k])
    requires d == |s| || !IsDigit(s[d])
    requires FractionAt(s, d, e)
    ensures NumberMatch(s) == Some(s[p..e])
  {
    NumberStartAt(s, p);
    DigitRunEndAt(s, q, d);
    FractionEndAt(s, d, e);
  }

  lemma NumberStartAt(s: string, p: nat)
    requires p < |s| && NumberStartsAt(s, p)
    requires forall k | 0 <= k < p :: !NumberStartsAt(s, k)
    ensures NumberStart(s, 0) == p
  {
  }

  /** The iron-triangle text the action writes: one line per role, a missing
      name left empty. */
  function IronText(pm: string, sales: string, solution: string, delivery: string): (r: string)
    ensures StartsWith(r, "项目经理：" + pm)
  {
    var t := "项目经理：" + pm + "\n销售经理：" + sales + "\n方案经理：" + solution + "\n交付经理：" + delivery;
    assert t == ("项目经理：" + pm) + ("\n销售经理：" + sales + "\n方案经理：" + solution + "\n交付经理：" + delivery);
    PrefixOfConcat("项目经理：" + pm, "\n销售经理：" + sales + "\n方案经理：" + solution + "\n交付经理：" + delivery);
    t
  }

  // ---------------------------------------------------------------------------
  // Option matching

  /** A `<select>` option: its value attribute and its text. */
  datatype SelectOption = SelectOption(value: string, text: string)

  predicate ExactHit(o: SelectOption, value: string) {
    o.value == value || o.text == value
  }

  /** The first option at or after `i` whose value or text equals `value`. */
  function ExactFrom(options: seq<SelectOption>, value: string, i: nat): (r: Option<nat>)
    requires i <= |options|
    ensures r.Some? ==> i <= r.value < |options| && ExactHit(options[r.value], value)
    ensures forall k | i <= k < |options| && (r.None? || k < r.value) :: !ExactHit(options[k], value)
    decreases |options| - i
  {
    if i == |options| then None
    else if ExactHit(options[i], value) then Some(i)
    else ExactFrom(options, value, i + 1)
  }

  /** Either text contains the other; an option without text never matches. */
  predicate FuzzyHit(o: SelectOption, t: string) {
    o.text != [] && (Contains(t, o.text) || Contains(o.text, t))
  }

  /** The first option at or after `i` whose text contains `t` or is contained
      in it. */
  function FuzzyFrom(options: seq<SelectOption>, t: string, i: nat): (r: Option<nat>)
    requires i <= |options|
    ensures r.Some? ==> i <= r.value < |options| && FuzzyHit(options[r.value], t)
    ensures forall k | i <= k < |options| && (r.None? || k < r.value) :: !FuzzyHit(options[k], t)
    decreases |options| - i
  {
    if i == |options| then None
    else if FuzzyHit(options[i], t) then Some(i)
    else FuzzyFrom(options, t, i + 1)
  }

  /** An option whose text is the searched text itself is a fuzzy match, so the
      fuzzy search succeeds no later than it. */
  lemma FuzzyFindsSameText(options: seq<SelectOption>, t: string, k: nat)
    requires k < |options| && t != [] && options[k].text == t
    ensures FuzzyFrom(options, t, 0).Some? && FuzzyFrom(options, t, 0).value <= k
  {
    assert OccursAt(t, t, 0);
    ContainsIff(t, t);
    assert FuzzyHit(options[k], t);
  }

  // ---------------------------------------------------------------------------
  // The page

  /** An element value: the action writes texts, and one number (the external
      purchase amount). */
  datatype Value = Text(s: string) | Number(x: real)

  /** JavaScript truthiness of the values the action writes. */
  predicate Truthy(v: Value) {
    match v
    case Text(s) => s != []
    case Number(x) => x != 0.0
  }

  /** The form elements the action writes, named by their element ids. */
  datatype ElementId =
    | projectName | businessCode | contractClient | constructionContent | budgetAmount
    | projectLevel | capacityType | procurement | procurementAmount | procurementRisk
    | SJ_grossMargin | TB_grossMargin | SJ_netMargin | TB_biddingMethod | JD_biddingMethod
    | TB_biddingEntity | JD_businessType | TB_businessType | JD_deliveryPeriod | TB_deliveryPeriod
    | ironTriangleInput

  /** Which elements the page has: those that take a value, and the select
      elements with their options. */
  datatype Layout = Layout(inputs: set<ElementId>, selects: map<ElementId, seq<SelectOption>>)

  /** What the action can change: element values and selected indexes. */
  datatype PageState = PageState(values: map<ElementId, Value>, selected: map<ElementId, nat>)

  /** A call of one of the three setters. */
  datatype Request =
    | SetInput(id: ElementId, value: Value)
    | SelectExact(id: ElementId, text: string)
    | SelectFuzzy(id: ElementId, text: string)

  /** A setter call, and whether its result is added to the count. */
  datatype Call = Call(request: Request, counted: bool)

  /** `setInputValue`, `setSelectValue` and `setSelectFuzzy`: the new state and
      the number of elements filled (0 or 1). */
  function Effect(layout: Layout, st: PageState, req: Request): (r: (PageState, nat))
    ensures r.1 <= 1
    ensures r.1 == 0 ==> r.0 == st
  {
    match req
    case SetInput(id, v) =>
      if Truthy(v) && id in layout.inputs then (st.(values := st.values[id := v]), 1) else (st, 0)
    case SelectExact(id, text) =>
      if text != [] && id in layout.selects && ExactFrom(layout.selects[id], text, 0).Some?
      then (st.(selected := st.selected[id := ExactFrom(layout.selects[id], text, 0).value]), 1)
      else (st, 0)
    case SelectFuzzy(id, text) =>
      if text != [] && id in layout.selects && FuzzyFrom(layout.selects[id], text, 0).Some?
      then (st.(selected := st.selected[id := FuzzyFrom(layout.selects[id], text, 0).value]), 1)
      else (st, 0)
  }

  /** One more call after a run: its effect on the state the run left, added
      to the count when the call is counted. */
  function Step(layout: Layout, prev: (PageState, nat), c: Call): (PageState, nat) {
    var e := Effect(layout, prev.0, c.request);
    (e.0, prev.1 + (if c.counted then e.1 else 0))
  }

  /** A sequence of calls: the final state and the total count. */
  function Perform(layout: Layout, st: PageState, calls: seq<Call>): (r: (PageState, nat))
    ensures r.1 <= |calls|
    decreases |calls|
  {
    if calls == [] then (st, 0)
    else Step(layout, Perform(layout, st, calls[..|calls| - 1]), calls[|calls| - 1])
  }

  /** A step adds to the count it starts from and does not look at it. */
  lemma StepShift(layout: Layout, x: (PageState, nat), m: nat, c: Call)
    ensures Step(layout, (x.0, m + x.1), c) == (Step(layout, x, c).0, m + Step(layout, x, c).1)
  {
  }

  /** Performing two sequences in turn is performing their concatenation. */
  lemma {:induction false} PerformAppend(layout: Layout, st: PageState, a: seq<Call>, b: seq<Call>)
    ensures Perform(layout, st, a + b) ==
      (Perform(layout, Perform(layout, st, a).0, b).0,
       Perform(layout, st, a).1 + Perform(layout, Perform(layout, st, a).0, b).1)
    decreases |b|
  {
    if b == [] {
      assert a + b == a;
    } else {
      var b', c := b[..|b| - 1], b[|b| - 1];
      assert (a + b)[..|a + b| - 1] == a + b';
      assert (a + b)[|a + b| - 1] == c;
      PerformAppend(layout, st, a, b');
      var mid := Perform(layout, st, a);
      StepShift(layout, Perform(layout, mid.0, b'), mid.1, c);
    }
  }

  /** Two runs in turn, the second from the state the first left. */
  lemma Chain(layout: Layout, st: PageState, a: seq<Call>, b: seq<Call>, mid: PageState, n: nat, last: PageState, m: nat)
    requires mid == Perform(layout, st, a).0 && n == Perform(layout, st, a).1
    requires last == Perform(layout, mid, b).0 && m == Perform(layout, mid, b).1
    ensures last == Perform(layout, st, a + b).0 && n + m == Perform(layout, st, a + b).1
  {
    PerformAppend(layout, st, a, b);
  }

  /** Four runs in turn, each from the state the previous one left. */
  lemma Chain4(layout: Layout, s0: PageState, a: seq<Call>, s1: PageState, n1: nat, b: seq<Call>, s2: PageState, n2: nat,
               c: seq<Call>, s3: PageState, n3: nat, d: seq<Call>, s4: PageState, n4: nat)
    requires s1 == Perform(layout, s0, a).0 && n1 == Perform(layout, s0, a).1
    requires s2 == Perform(layout, s1, b).0 && n2 == Perform(layout, s1, b).1
    requires s3 == Perform(layout, s2, c).0 && n3 == Perform(layout, s2, c).1
    requires s4 == Perform(layout, s3, d).0 && n4 == Perform(layout, s3, d).1
    ensures s4 == Perform(layout, s0, a + b + c + d).0 && n1 + n2 + n3 + n4 == Perform(layout, s0, a + b + c + d).1
  {
    Chain(layout, s0, a, b, s1, n1, s2, n2);
    Chain(layout, s0, a + b, c, s2, n1 + n2, s3, n3);
    Chain(layout, s0, a + b + c, d, s3, n1 + n2 + n3, s4, n4);
  }

  /** A single call is one step from the start. */
  lemma PerformOne(layout: Layout, st: PageState, c: Call)
    ensures Perform(layout, st, [c]) == Step(layout, (st, 0), c)
  {
    assert [c][..0] == [];
  }

  // ---------------------------------------------------------------------------
  // What the action asks for

  /** A property of the extractor's result, with a missing one read as the
      empty text (both are falsy and both print as nothing). */
  function Given(data: Extracted, f: Field): string {
    if f in data then data[f] else ""
  }

  function Counted(req: Request): Call {
    Call(req, true)
  }

  /** A: the basic fields; the business code is cut before it is written. */
  function BasicCalls(data: Extracted): seq<Call> {
    [Counted(SetInput(projectName, Text(Given(data, ProjectName))))]
    + CodeCalls(data)
    + [Counted(SetInput(contractClient, Text(Given(data, Client)))),
       Counted(SetInput(constructionContent, Text(Given(data, Content))))]
  }

  function CodeCalls(data: Extracted): seq<Call> {
    if Given(data, BusinessCode) != []
    then [Counted(SetInput(businessCode, Text(CleanCode(Given(data, BusinessCode)))))]
    else []
  }

  /** B: the budget amount, without thousands separators. */
  function BudgetCalls(data: Extracted): seq<Call> {
    if Given(data, Budget) != [] && AmountText(Given(data, Budget)).Some?
    then [Counted(SetInput(budgetAmount, Text(AmountText(Given(data, Budget)).value)))]
    else []
  }

  /** C: the two drop-downs chosen by exact value or text. */
  function LevelCalls(data: Extracted): seq<Call> {
    [Counted(SelectExact(projectLevel, Given(data, Level))),
     Counted(SelectExact(capacityType, Given(data, CapacityType)))]
  }

  /** The external purchase amount as `parseFloat` reads it, when the text holds
      an amount. */
  function ExtAmount(data: Extracted): Option<Option<real>> {
    match AmountText(Given(data, ExtBudget))
    case None => None
    case Some(t) => Some(ParseFloat(t))
  }

  /** An amount that parses to a positive number. */
  predicate Positive(amount: Option<Option<real>>) {
    amount.Some? && amount.value.Some? && amount.value.value > 0.0
  }

  predicate PositiveExt(data: Extracted) {
    Given(data, ExtBudget) != [] && Positive(ExtAmount(data))
  }

  /** D: a positive external purchase amount sets the purchase flag to `是`,
      writes the amount and the purchase situation; any other amount sets the
      flag to `否` without counting it; without an amount the extracted flag is
      used. */
  function ProcurementCalls(data: Extracted): seq<Call> {
    ProcurementFor(Given(data, ExtBudget), ExtAmount(data), Given(data, ProcurementSituation), Given(data, Procurement))
  }

  function ProcurementFor(ext: string, amount: Option<Option<real>>, situation: string, flag: string): seq<Call> {
    if ext != [] then
      match amount
      case None => []
      case Some(x) =>
        if x.Some? && x.value > 0.0 then
          [Counted(SelectExact(procurement, "是")),
           Counted(SetInput(procurementAmount, Number(x.value)))]
          + RiskCalls(situation)
        else [Call(SelectExact(procurement, "否"), false)]
    else if flag != [] then [Counted(SelectExact(procurement, flag))]
    else []
  }

  function RiskCalls(situation: string): seq<Call> {
    if situation != [] then [Counted(SetInput(procurementRisk, Text(situation)))] else []
  }

  /** E: the first number of each margin; the gross margin goes to two fields. */
  function MarginCalls(data: Extracted): seq<Call> {
    GrossCalls(data) + NetCalls(data)
  }

  function GrossCalls(data: Extracted): seq<Call> {
    if Given(data, GrossMargin) != [] && NumberMatch(Given(data, GrossMargin)).Some?
    then [Counted(SetInput(SJ_grossMargin, Text(NumberMatch(Given(data, GrossMargin)).value))),
          Counted(SetInput(TB_grossMargin, Text(NumberMatch(Given(data, GrossMargin)).value)))]
    else []
  }

  function NetCalls(data: Extracted): seq<Call> {
    if Given(data, NetMargin) != [] && NumberMatch(Given(data, NetMargin)).Some?
    then [Counted(SetInput(SJ_netMargin, Text(NumberMatch(Given(data, NetMargin)).value)))]
    else []
  }

  /** F: the bidding method by fuzzy match into both documents, the bidding
      entity, the business type and the delivery period. */
  function OtherCalls(data: Extracted): seq<Call> {
    MethodCalls(data)
    + [Counted(SelectExact(TB_biddingEntity, Given(data, BiddingEntity)))]
    + TypeCalls(data)
    + PeriodCalls(data)
  }

  function MethodCalls(data: Extracted): seq<Call> {
    if Given(data, BiddingMethod) != []
    then [Counted(SelectFuzzy(TB_biddingMethod, Given(data, BiddingMethod))),
          Counted(SelectFuzzy(JD_biddingMethod, Given(data, BiddingMethod)))]
    else []
  }

  function TypeCalls(data: Extracted): seq<Call> {
    if Given(data, BusinessType) != []
    then [Counted(SelectExact(JD_businessType, Given(data, BusinessType))),
          Counted(SelectExact(TB_businessType, Given(data, BusinessType)))]
    else []
  }

  function PeriodCalls(data: Extracted): seq<Call> {
    if Given(data, Duration) != []
    then [Counted(SetInput(JD_deliveryPeriod, Text(Given(data, Duration)))),
          Counted(SetInput(TB_deliveryPeriod, Text(Given(data, Duration))))]
    else []
  }

  predicate AnyRole(data: Extracted) {
    Given(data, Pm) != [] || Given(data, Sales) != [] || Given(data, Solution) != [] || Given(data, Delivery) != []
  }

  /** G: the iron-triangle text, when any of its four names was found. The
      source assigns it directly; as the text is never empty this is what
      `setInputValue` does. */
  function IronCalls(data: Extracted): seq<Call> {
    if AnyRole(data)
    then [Counted(SetInput(ironTriangleInput,
            Text(IronText(Given(data, Pm), Given(data, Sales), Given(data, Solution), Given(data, Delivery)))))]
    else []
  }

  /** Every setter call of the action, in the order the action makes them. */
  function Requests(data: Extracted): seq<Call> {
    BasicCalls(data) + BudgetCalls(data) + LevelCalls(data) + ProcurementCalls(data)
    + MarginCalls(data) + OtherCalls(data) + IronCalls(data)
  }

  /** The calls of sections A to D, then those of E, F and G. */
  lemma RequestsSections(data: Extracted)
    ensures Requests(data) ==
      (BasicCalls(data) + BudgetCalls(data) + LevelCalls(data) + ProcurementCalls(data))
      + MarginCalls(data) + OtherCalls(data) + IronCalls(data)
  {
  }

  predicate AllTarget(calls: seq<Call>, ids: set<ElementId>) {
    forall c | c in calls :: c.request.id in ids
  }

  /** Each section writes only its own elements. */
  lemma SectionTargets(data: Extracted)
    ensures AllTarget(BasicCalls(data), BasicIds)
    ensures AllTarget(BudgetCalls(data), {budgetAmount})
    ensures AllTarget(LevelCalls(data), {projectLevel, capacityType})
    ensures AllTarget(ProcurementCalls(data), ProcurementIds)
    ensures AllTarget(MarginCalls(data), {SJ_grossMargin, TB_grossMargin, SJ_netMargin})
    ensures AllTarget(OtherCalls(data), OtherIds)
    ensures AllTarget(IronCalls(data), {ironTriangleInput})
  {
    BasicTargets(data);
    ProcurementTargets(Given(data, ExtBudget), ExtAmount(data), Given(data, ProcurementSituation), Given(data, Procurement));
    MarginTargets(data);
    OtherTargets(data);
  }

  const BasicIds: set<ElementId> := {projectName, businessCode, contractClient, constructionContent}
  const ProcurementIds: set<ElementId> := {procurement, procurementAmount, procurementRisk}
  const OtherIds: set<ElementId> :=
    {TB_biddingMethod, JD_biddingMethod, TB_biddingEntity, JD_businessType, TB_businessType,
     JD_deliveryPeriod, TB_deliveryPeriod}

  lemma BasicTargets(data: Extracted)
    ensures AllTarget(BasicCalls(data), BasicIds)
  {
  }

  lemma MarginTargets(data: Extracted)
    ensures AllTarget(MarginCalls(data), {SJ_grossMargin, TB_grossMargin, SJ_netMargin})
  {
  }

  lemma OtherTargets(data: Extracted)
    ensures AllTarget(OtherCalls(data), OtherIds)
  {
  }

  lemma ProcurementTargets(ext: string, amount: Option<Option<real>>, situation: string, flag: string)
    ensures AllTarget(ProcurementFor(ext, amount, situation, flag), ProcurementIds)
  {
  }

  /** A call that writes the purchase flag comes from section D, and one that
      writes the iron-triangle text from section G. */
  lemma OwnSection(data: Extracted, c: Call)
    requires c in Requests(data)
    ensures c.request.id == procurement ==> c in ProcurementCalls(data)
    ensures c.request.id == ironTriangleInput ==> c in IronCalls(data)
  {
    SectionTargets(data);
    InSections(BasicCalls(data), BudgetCalls(data), LevelCalls(data), ProcurementCalls(data),
      MarginCalls(data), OtherCalls(data), IronCalls(data), c);
  }

  lemma InSections(a: seq<Call>, b: seq<Call>, l: seq<Call>, d: seq<Call>, e: seq<Call>, f: seq<Call>, g: seq<Call>, c: Call)
    requires AllTarget(a, BasicIds) && AllTarget(b, {budgetAmount}) && AllTarget(l, {projectLevel, capacityType})
    requires AllTarget(d, ProcurementIds) && AllTarget(e, {SJ_grossMargin, TB_grossMargin, SJ_netMargin})
    requires AllTarget(f, OtherIds) && AllTarget(g, {ironTriangleInput})
    requires c in a + b + l + d + e + f + g
    ensures c.request.id == procurement ==> c in d
    ensures c.request.id == ironTriangleInput ==> c in g
  {
  }

  /** The purchase flag is set to `是` exactly when the external purchase text
      holds a positive amount, or when there is no such text and the extracted
      flag is `是`. */
  lemma ProcurementYes(data: Extracted)
    ensures Counted(SelectExact(procurement, "是")) in Requests(data) <==>
      PositiveExt(data) || (Given(data, ExtBudget) == [] && Given(data, Procurement) == "是")
  {
    var c := Counted(SelectExact(procurement, "是"));
    if c in Requests(data) {
      OwnSection(data, c);
    }
    ProcurementForYes(Given(data, ExtBudget), ExtAmount(data), Given(data, ProcurementSituation), Given(data, Procurement));
  }

  lemma ProcurementForYes(ext: string, amount: Option<Option<real>>, situation: string, flag: string)
    ensures Counted(SelectExact(procurement, "是")) in ProcurementFor(ext, amount, situation, flag) <==>
      (ext != [] && Positive(amount)) || (ext == [] && flag == "是")
  {
    if ext != [] && Positive(amount) {
      assert ProcurementFor(ext, amount, situation, flag)[0] == Counted(SelectExact(procurement, "是"));
    }
  }

  /** The flag is set to `否`, without being counted, exactly when the external
      purchase text holds an amount that is not positive (or does not parse). */
  lemma ProcurementNo(data: Extracted)
    ensures Call(SelectExact(procurement, "否"), false) in Requests(data) <==>
      Given(data, ExtBudget) != [] && ExtAmount(data).Some? && !PositiveExt(data)
  {
    var c := Call(SelectExact(procurement, "否"), false);
    if c in Requests(data) {
      OwnSection(data, c);
    }
    ProcurementForNo(Given(data, ExtBudget), ExtAmount(data), Given(data, ProcurementSituation), Given(data, Procurement));
  }

  lemma ProcurementForNo(ext: string, amount: Option<Option<real>>, situation: string, flag: string)
    ensures Call(SelectExact(procurement, "否"), false) in ProcurementFor(ext, amount, situation, flag) <==>
      ext != [] && amount.Some? && !Positive(amount)
  {
  }

  /** The iron-triangle element is written exactly when a role name was found. */
  lemma IronWritten(data: Extracted)
    ensures (exists c | c in Requests(data) :: c.request.id == ironTriangleInput) <==> AnyRole(data)
  {
    if exists c | c in Requests(data) :: c.request.id == ironTriangleInput {
      var c :| c in Requests(data) && c.request.id == ironTriangleInput;
      OwnSection(data, c);
    }
    if AnyRole(data) {
      var c := IronCalls(data)[0];
      assert Requests(data)[|Requests(data)| - 1] == c;
    }
  }

  // ---------------------------------------------------------------------------
  // The page object

  class Page {
    const layout: Layout
    var values: map<ElementId, Value>
    var selected: map<ElementId, nat>

    function State(): PageState
      reads this
    {
      PageState(values, selected)
    }

    constructor(layout: Layout, values: map<ElementId, Value>, selected: map<ElementId, nat>)
      ensures this.layout == layout && State() == PageState(values, selected)
    {
      this.layout := layout;
      this.values := values;
      this.selected := selected;
    }

    /** `setInputValue`. */
    method SetInputValue(id: ElementId, value: Value) returns (n: nat)
      modifies this
      ensures (State(), n) == Effect(layout, old(State()), SetInput(id, value))
    {
      n := 0;
      if Truthy(value) && id in layout.inputs {
        values := values[id := value];
        n := 1;
      }
    }

    /** `setSelectValue`: the first option whose value or text is `text`. */
    method SetSelectValue(id: ElementId, text: string) returns (n: nat)
      modifies this
      ensures (State(), n) == Effect(layout, old(State()), SelectExact(id, text))
    {
      n := 0;
      if text != [] && id in layout.selects {
        var options := layout.selects[id];
        var i := 0;
        while i < |options|
          invariant i <= |options|
          invariant ExactFrom(options, text, i) == ExactFrom(options, text, 0)
          invariant n == 0 && State() == old(State())
        {
          if options[i].value == text || options[i].text == text {
            selected := selected[id := i];
            n := 1;
            return;
          }
          i := i + 1;
        }
      }
    }

    /** `setSelectFuzzy`: the first option whose text contains `text` or is
        contained in it. */
    method SetSelectFuzzy(id: ElementId, text: string) returns (n: nat)
      modifies this
      ensures (State(), n) == Effect(layout, old(State()), SelectFuzzy(id, text))
    {
      n := 0;
      if text != [] && id in layout.selects {
        var options := layout.selects[id];
        var i := 0;
        while i < |options|
          invariant i <= |options|
          invariant FuzzyFrom(options, text, i) == FuzzyFrom(options, text, 0)
          invariant n == 0 && State() == old(State())
        {
          var optText := options[i].text;
          if optText != [] && (Contains(text, optText) || Contains(optText, text)) {
            selected := selected[id := i];
            n := 1;
            return;
          }
          i := i + 1;
        }
      }
    }

    /** Performs one call and adds its count when it is counted. */
    method Apply(c: Call) returns (n: nat)
      modifies this
      ensures (State(), n) == (Effect(layout, old(State()), c.request).0,
                               if c.counted then Effect(layout, old(State()), c.request).1 else 0)
    {
      var filled: nat;
      match c.request {
        case SetInput(id, v) => filled := SetInputValue(id, v);
        case SelectExact(id, t) => filled := SetSelectValue(id, t);
        case SelectFuzzy(id, t) => filled := SetSelectFuzzy(id, t);
      }
      n := if c.counted then filled else 0;
    }

    /** Performs a single call. */
    method Run1(c: Call) returns (count: nat)
      modifies this
      ensures (State(), count) == Perform(layout, old(State()), [c])
    {
      count := Apply(c);
      PerformOne(layout, old(State()), c);
      ghost var r := Perform(layout, old(State()), [c]);
      assert State() == r.0 && count == r.1;
    }

    /** Performs two calls in turn. */
    method Run2(c: Call, d: Call) returns (count: nat)
      modifies this
      ensures (State(), count) == Perform(layout, old(State()), [c, d])
    {
      ghost var st0 := State();
      var n := Run1(c);
      ghost var mid := State();
      var m := Run1(d);
      Chain(layout, st0, [c], [d], mid, n, State(), m);
      assert [c] + [d] == [c, d];
      count := n + m;
    }

    /** A: the basic fields. */
    method FillBasics(data: Extracted) returns (count: nat)
      modifies this
      ensures (State(), count) == Perform(layout, old(State()), BasicCalls(data))
    {
      ghost var st0 := State();
      var n := Run1(Counted(SetInput(projectName, Text(Given(data, ProjectName)))));
      ghost var mid := State();
      var m := FillCode(data);
      Chain(layout, st0, [Counted(SetInput(projectName, Text(Given(data, ProjectName))))], CodeCalls(data), mid, n, State(), m);
      mid := State();
      var k := Run2(Counted(SetInput(contractClient, Text(Given(data, Client)))),
                    Counted(SetInput(constructionContent, Text(Given(data, Content)))));
      Chain(layout, st0, [Counted(SetInput(projectName, Text(Given(data, ProjectName))))] + CodeCalls(data),
        [Counted(SetInput(contractClient, Text(Given(data, Client)))),
         Counted(SetInput(constructionContent, Text(Given(data, Content))))],
        mid, n + m, State(), k);
      count := n + m + k;
    }

    /** The business code, cut at the first blank or label, when one was found. */
    method FillCode(data: Extracted) returns (count: nat)
      modifies this
      ensures (State(), count) == Perform(layout, old(State()), CodeCalls(data))
    {
      count := 0;
      if Given(data, BusinessCode) != [] {
        var cleanCode := CleanCode(Given(data, BusinessCode));
        count := Run1(Counted(SetInput(businessCode, Text(cleanCode))));
      }
    }

    /** B: the budget amount. */
    method FillBudget(data: Extracted) returns (count: nat)
      modifies this
      ensures (State(), count) == Perform(layout, old(State()), BudgetCalls(data))
    {
      count := 0;
      if Given(data, Budget) != [] {
        var money := AmountText(Given(data, Budget));
        if money.Some? {
          count := Run1(Counted(SetInput(budgetAmount, Text(money.value))));
        }
      }
    }

    /** C: the project level and the capacity type. */
    method FillLevels(data: Extracted) returns (count: nat)
      modifies this
      ensures (State(), count) == Perform(layout, old(State()), LevelCalls(data))
    {
      count := Run2(Counted(SelectExact(projectLevel, Given(data, Level))),
                    Counted(SelectExact(capacityType, Given(data, CapacityType))));
    }

    /** D: the purchase flag, amount and situation. */
    method FillProcurement(data: Extracted) returns (count: nat)
      modifies this
      ensures (State(), count) == Perform(layout, old(State()), ProcurementCalls(data))
    {
      count := 0;
      if Given(data, ExtBudget) != [] {
        var money := AmountText(Given(data, ExtBudget));
        if money.Some? {
          var extMoney := ParseFloat(money.value);
          assert ExtAmount(data) == Some(extMoney);
          if extMoney.Some? && extMoney.value > 0.0 {
            count := FillPositive(extMoney.value, Given(data, ProcurementSituation));
          } else {
            count := Run1(Call(SelectExact(procurement, "否"), false));
          }
        }
      } else if Given(data, Procurement) != [] {
        count := Run1(Counted(SelectExact(procurement, Given(data, Procurement))));
      }
    }

    /** D, for a positive amount: the flag `是`, the amount, the situation. */
    method FillPositive(amount: real, situation: string) returns (count: nat)
      modifies this
      ensures (State(), count) == Perform(layout, old(State()),
        [Counted(SelectExact(procurement, "是")), Counted(SetInput(procurementAmount, Number(amount)))]
        + RiskCalls(situation))
    {
      ghost var st0 := State();
      var n := Run2(Counted(SelectExact(procurement, "是")), Counted(SetInput(procurementAmount, Number(amount))));
      ghost var mid := State();
      var m := 0;
      if situation != [] {
        m := Run1(Counted(SetInput(procurementRisk, Text(situation))));
      }
      Chain(layout, st0, [Counted(SelectExact(procurement, "是")), Counted(SetInput(procurementAmount, Number(amount)))],
        RiskCalls(situation), mid, n, State(), m);
      count := n + m;
    }

    /** E: the gross and net margins. */
    method FillMargins(data: Extracted) returns (count: nat)
      modifies this
      ensures (State(), count) == Perform(layout, old(State()), MarginCalls(data))
    {
      ghost var st0 := State();
      var n := 0;
      if Given(data, GrossMargin) != [] {
        var gross := NumberMatch(Given(data, GrossMargin));
        if gross.Some? {
          n := Run2(Counted(SetInput(SJ_grossMargin, Text(gross.value))),
                    Counted(SetInput(TB_grossMargin, Text(gross.value))));
        }
      }
      ghost var mid := State();
      var m := 0;
      if Given(data, NetMargin) != [] {
        var net := NumberMatch(Given(data, NetMargin));
        if net.Some? {
          m := Run1(Counted(SetInput(SJ_netMargin, Text(net.value))));
        }
      }
      Chain(layout, st0, GrossCalls(data), NetCalls(data), mid, n, State(), m);
      count := n + m;
      ghost var r := Perform(layout, st0, MarginCalls(data));
      assert State() == r.0 && count == r.1;
    }

    /** F: the bidding method, bidding entity, business type and period. */
    method FillOthers(data: Extracted) returns (count: nat)
      modifies this
      ensures (State(), count) == Perform(layout, old(State()), OtherCalls(data))
    {
      ghost var s0 := State();
      var n1 := FillMethod(data);
      ghost var s1 := State();
      var n2 := Run1(Counted(SelectExact(TB_biddingEntity, Given(data, BiddingEntity))));
      ghost var s2 := State();
      var n3 := FillType(data);
      ghost var s3 := State();
      var n4 := FillPeriod(data);
      ghost var entity := [Counted(SelectExact(TB_biddingEntity, Given(data, BiddingEntity)))];
      Chain4(layout, s0, MethodCalls(data), s1, n1, entity, s2, n2,
        TypeCalls(data), s3, n3, PeriodCalls(data), State(), n4);
      count := n1 + n2 + n3 + n4;
      ghost var r := Perform(layout, s0, OtherCalls(data));
      assert State() == r.0 && count == r.1;
    }

    /** The bidding method, matched loosely in both documents. */
    method FillMethod(data: Extracted) returns (count: nat)
      modifies this
      ensures (State(), count) == Perform(layout, old(State()), MethodCalls(data))
    {
      count := 0;
      if Given(data, BiddingMethod) != [] {
        count := Run2(Counted(SelectFuzzy(TB_biddingMethod, Given(data, BiddingMethod))),
                      Counted(SelectFuzzy(JD_biddingMethod, Given(data, BiddingMethod))));
      }
    }

    /** The business type in both documents. */
    method FillType(data: Extracted) returns (count: nat)
      modifies this
      ensures (State(), count) == Perform(layout, old(State()), TypeCalls(data))
    {
      count := 0;
      if Given(data, BusinessType) != [] {
        count := Run2(Counted(SelectExact(JD_businessType, Given(data, BusinessType))),
                      Counted(SelectExact(TB_businessType, Given(data, BusinessType))));
      }
    }

    /** The delivery period in both documents. */
    method FillPeriod(data: Extracted) returns (count: nat)
      modifies this
      ensures (State(), count) == Perform(layout, old(State()), PeriodCalls(data))
    {
      count := 0;
      if Given(data, Duration) != [] {
        count := Run2(Counted(SetInput(JD_deliveryPeriod, Text(Given(data, Duration)))),
                      Counted(SetInput(TB_deliveryPeriod, Text(Given(data, Duration)))));
      }
    }

    /** G: the iron-triangle text, assigned directly to its element. */
    method FillIron(data: Extracted) returns (count: nat)
      modifies this
      ensures (State(), count) == Perform(layout, old(State()), IronCalls(data))
    {
      ghost var st0 := State();
      count := 0;
      if AnyRole(data) {
        var ironText := IronText(Given(data, Pm), Given(data, Sales), Given(data, Solution), Given(data, Delivery));
        ghost var c := Counted(SetInput(ironTriangleInput, Text(ironText)));
        if ironTriangleInput in layout.inputs {
          values := values[ironTriangleInput := Text(ironText)];
          count := count + 1;
        }
        assert (State(), count) == Effect(layout, st0, c.request);
        PerformOne(layout, st0, c);
        assert [c] == IronCalls(data);
        ghost var r := Perform(layout, st0, [c]);
        assert State() == r.0 && count == r.1;
      }
    }

    /** `handleSmartPaste` once the text is read: a blank text changes
        nothing; otherwise the extracted values are written section by section
        and the filled elements counted. */
    method HandleSmartPaste(text: string) returns (count: nat)
      modifies this
      ensures IsBlank(text) ==> count == 0 && State() == old(State())
      ensures !IsBlank(text) ==>
        (State(), count) == Perform(layout, old(State()), Requests(VerticalData(text)))
    {
      count := 0;
      TrimEmptyIffBlank(text);
      if Trim(text) == [] {
        return;
      }
      var data := ParseVerticalData(text);
      count := FillAll(data);
    }

    /** The seven sections in turn. */
    method FillAll(data: Extracted) returns (count: nat)
      modifies this
      ensures (State(), count) == Perform(layout, old(State()), Requests(data))
    {
      ghost var s0 := State();
      var n1 := FillFirst(data);
      ghost var s1 := State();
      var n2 := FillMargins(data);
      ghost var s2 := State();
      var n3 := FillOthers(data);
      ghost var s3 := State();
      var n4 := FillIron(data);
      Chain4(layout, s0, BasicCalls(data) + BudgetCalls(data) + LevelCalls(data) + ProcurementCalls(data), s1, n1,
        MarginCalls(data), s2, n2, OtherCalls(data), s3, n3, IronCalls(data), State(), n4);
      RequestsSections(data);
      count := n1 + n2 + n3 + n4;
      ghost var r := Perform(layout, s0, Requests(data));
      assert State() == r.0 && count == r.1;
    }

    /** Sections A to D. */
    method FillFirst(data: Extracted) returns (count: nat)
      modifies this
      ensures (State(), count) ==
        Perform(layout, old(State()), BasicCalls(data) + BudgetCalls(data) + LevelCalls(data) + ProcurementCalls(data))
    {
      ghost var s0 := State();
      var n1 := FillBasics(data);
      ghost var s1 := State();
      var n2 := FillBudget(data);
      ghost var s2 := State();
      var n3 := FillLevels(data);
      ghost var s3 := State();
      var n4 := FillProcurement(data);
      Chain4(layout, s0, BasicCalls(data), s1, n1, BudgetCalls(data), s2, n2,
        LevelCalls(data), s3, n3, ProcurementCalls(data), State(), n4);
      count := n1 + n2 + n3 + n4;
      ghost var r := Perform(layout, s0, BasicCalls(data) + BudgetCalls(data) + LevelCalls(data) + ProcurementCalls(data));
      assert State() == r.0 && count == r.1;
    }
  }
}
