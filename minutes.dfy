/** The three kinds of minutes the tool drafts from the form: the opportunity
    review (商机评估会), the bid review (投标评估会) and the project hand-over
    (项目交底会). Each is a header, a list of points numbered 1、2、... in which
    blank points are skipped and every point ends with a full stop, and a fixed
    closing. */
module Minutes {
  import opened Text
  import opened Values
  import opened Common

  // ---------------------------------------------------------------------------
  // Field access

  /** `temp[key]?.trim() || placeholder`. A field without a placeholder (the
      other-risk field) is read with the empty placeholder: `undefined` and the
      empty string are skipped alike when the points are numbered. */
  function GetVal(rec: Record, key: string, placeholder: string): string {
    if key in rec && Trim(rec[key]) != [] then Trim(rec[key]) else placeholder
  }

  /** A filled field reads as its trimmed value, a missing or blank one as the
      placeholder. */
  lemma GetValMeaning(rec: Record, key: string, placeholder: string)
    ensures key in rec && !IsBlank(rec[key]) ==> GetVal(rec, key, placeholder) == Trim(rec[key])
    ensures key !in rec || IsBlank(rec[key]) ==> GetVal(rec, key, placeholder) == placeholder
  {
    if key in rec { TrimEmptyIffBlank(rec[key]); }
  }

  /** With a non-blank placeholder a field never reads as blank. */
  lemma GetValNonBlank(rec: Record, key: string, placeholder: string)
    requires placeholder != [] && !IsSpace(placeholder[0])
    ensures !IsBlank(GetVal(rec, key, placeholder))
  {
    if key in rec && Trim(rec[key]) != [] {
      var t := Trim(rec[key]);
      assert !IsSpace(t[0]);
    }
  }

  /** A text whose first character is not white space is not blank. */
  lemma NonSpaceStartNonBlank(s: string)
    requires s != [] && !IsSpace(s[0])
    ensures !IsBlank(s)
  {
  }

  /** The customer clause: the contract customer as entered, then the end
      customer when it is filled and differs. */
  function ClientDescription(rec: Record): string {
    if !Filled(rec, "contractClient") then "【请补充签约客户】"
    else
      var contract := rec["contractClient"];
      contract
        + (if !Filled(rec, "endClient") || rec["endClient"] == contract then "。"
           else "，最终客户是" + rec["endClient"] + "。")
  }

  /** The customer clause opens with the contract customer and is one sentence;
      it names a different end customer at its end. */
  lemma ClientDescriptionShape(rec: Record)
    ensures Filled(rec, "contractClient") ==>
              StartsWith(ClientDescription(rec), rec["contractClient"]) && EndsWith(ClientDescription(rec), "。")
    ensures Filled(rec, "contractClient") && Filled(rec, "endClient") && rec["endClient"] != rec["contractClient"] ==>
              EndsWith(ClientDescription(rec), "，最终客户是" + rec["endClient"] + "。")
    ensures !Filled(rec, "contractClient") ==> ClientDescription(rec) == "【请补充签约客户】"
  {
    if Filled(rec, "contractClient") {
      var contract := rec["contractClient"];
      var tail := if !Filled(rec, "endClient") || rec["endClient"] == contract then "。"
                  else "，最终客户是" + rec["endClient"] + "。";
      PrefixOfConcat(contract, tail);
      SuffixOfConcat(contract, tail);
      if tail != "。" {
        assert tail == ("，最终客户是" + rec["endClient"]) + "。";
        SuffixOfConcat("，最终客户是" + rec["endClient"], "。");
        SuffixOfConcat(contract, "，最终客户是" + rec["endClient"] + "。");
      }
    }
  }

  /** A yes/no/unset question: the detail field (or its placeholder) on 是, a
      fixed sentence on 否, a prompt otherwise. */
  function Answer(rec: Record, flag: string, detail: string, placeholder: string, no: string, unset: string): string {
    if Lookup(rec, flag) == Some("是") then GetVal(rec, detail, placeholder)
    else if Lookup(rec, flag) == Some("否") then no
    else unset
  }

  /** An answer whose three texts are not blank is not blank. */
  lemma AnswerNonBlank(rec: Record, flag: string, detail: string, placeholder: string, no: string, unset: string)
    requires placeholder != [] && !IsSpace(placeholder[0])
    requires no != [] && !IsSpace(no[0]) && unset != [] && !IsSpace(unset[0])
    ensures !IsBlank(Answer(rec, flag, detail, placeholder, no, unset))
  {
    GetValNonBlank(rec, detail, placeholder);
  }

  function ProcurementRisk(rec: Record): string {
    Answer(rec, "procurement", "procurementRisk", "【请补充外采风险】", "本项目不涉及外采", "【请评估是否涉及外采】")
  }

  datatype Meeting = Opportunity | Bidding | Kickoff

  /** The procurement clause of the budget point: the procurement budget in
      units of ten thousand yuan, and for the bid and hand-over reviews also
      its share of the project budget. */
  function ProcurementText(rec: Record, f: Figures, meeting: Meeting): string {
    if Lookup(rec, "procurement") == Some("是") then
      "涉及外采，外采预算" + Fixed2(f.procurementWan) + "万元（含税），"
        + (match meeting
           case Opportunity => ""
           case Bidding => "外采占比" + Percent2(f.procurementRatio) + "，"
           case Kickoff => "外采占比" + Percent2(f.procurementRatio) + "。")
    else if Lookup(rec, "procurement") == Some("否") then
      (if meeting == Kickoff then "不涉及外采。" else "不涉及外采，")
    else "【请选择是否后向外采】，"
  }

  /** The three-way question: on 是 the trimmed detail field, or its
      placeholder when that field is missing or blank; on 否 the fixed
      sentence; on anything else, a missing flag included, the prompt. */
  lemma AnswerCases(rec: Record, flag: string, detail: string, placeholder: string, no: string, unset: string)
    ensures Lookup(rec, flag) == Some("是") && detail in rec && !IsBlank(rec[detail]) ==>
              Answer(rec, flag, detail, placeholder, no, unset) == Trim(rec[detail])
    ensures Lookup(rec, flag) == Some("是") && (detail !in rec || IsBlank(rec[detail])) ==>
              Answer(rec, flag, detail, placeholder, no, unset) == placeholder
    ensures Lookup(rec, flag) == Some("否") ==> Answer(rec, flag, detail, placeholder, no, unset) == no
    ensures Lookup(rec, flag) != Some("是") && Lookup(rec, flag) != Some("否") ==>
              Answer(rec, flag, detail, placeholder, no, unset) == unset
  {
    GetValMeaning(rec, detail, placeholder);
  }

  /** The procurement clause follows the same three-way flag: the amount in
      units of ten thousand yuan on 是, a fixed clause on 否 (closed with a full
      stop in the hand-over review), a prompt otherwise. */
  lemma ProcurementTextCases(rec: Record, f: Figures, meeting: Meeting)
    ensures Lookup(rec, "procurement") == Some("是") ==>
              StartsWith(ProcurementText(rec, f, meeting), "涉及外采，外采预算" + Fixed2(f.procurementWan) + "万元（含税），")
    ensures Lookup(rec, "procurement") == Some("否") ==>
              ProcurementText(rec, f, meeting) == (if meeting == Kickoff then "不涉及外采。" else "不涉及外采，")
    ensures Lookup(rec, "procurement") != Some("是") && Lookup(rec, "procurement") != Some("否") ==>
              ProcurementText(rec, f, meeting) == "【请选择是否后向外采】，"
  {
    var head := "涉及外采，外采预算" + Fixed2(f.procurementWan) + "万元（含税），";
    var share := match meeting
                 case Opportunity => ""
                 case Bidding => "外采占比" + Percent2(f.procurementRatio) + "，"
                 case Kickoff => "外采占比" + Percent2(f.procurementRatio) + "。";
    PrefixOfConcat(head, share);
  }

  /** `content.endsWith('。') ? content.slice(0, -1) : content`. */
  function StripPeriod(s: string): (r: string)
    ensures |r| <= |s|
  {
    if EndsWith(s, "。") then s[..|s| - 1] else s
  }

  /** Stripping one final 。 and writing one back never doubles the stop: the
      result is the text itself when it already ended with 。. */
  lemma StripPeriodRestores(s: string)
    ensures StripPeriod(s) + "。" == (if EndsWith(s, "。") then s else s + "。")
  {
    if EndsWith(s, "。") {
      assert s == s[..|s| - 1] + [s[|s| - 1]];
    }
  }

  // ---------------------------------------------------------------------------
  // Numbered points

  /** The points that are written out: those that are not blank, in order. */
  function Kept(points: seq<string>): (ks: seq<string>)
    ensures |ks| <= |points|
  {
    if points == [] then []
    else
      var last := points[|points| - 1];
      Kept(points[..|points| - 1]) + (if IsBlank(last) then [] else [last])
  }

  /** Exactly the non-blank points are kept. */
  lemma {:induction false} KeptExactly(points: seq<string>, p: string)
    ensures p in Kept(points) <==> p in points && !IsBlank(p)
  {
    if points != [] {
      var init := points[..|points| - 1];
      KeptExactly(init, p);
      assert points == init + [points[|points| - 1]];
    }
  }

  /** When no point is blank, all are kept. */
  lemma {:induction false} KeptAllFilled(points: seq<string>)
    requires forall i | 0 <= i < |points| :: !IsBlank(points[i])
    ensures Kept(points) == points
  {
    if points != [] {
      var init := points[..|points| - 1];
      KeptAllFilled(init);
      assert points == init + [points[|points| - 1]];
    }
  }

  /** A point added at the end is kept after the earlier ones, if it is not blank. */
  lemma KeptSnoc(points: seq<string>, p: string)
    ensures Kept(points + [p]) == Kept(points) + (if IsBlank(p) then [] else [p])
  {
    assert (points + [p])[..|points|] == points;
  }

  /** One numbered line, `${counter}、${text}\n`, for an already finished text. */
  function Line(n: nat, text: string): string {
    NatToString(n) + "、" + text + "\n"
  }

  /** The texts numbered consecutively from `n`. */
  function Lines(texts: seq<string>, n: nat): string {
    if texts == [] then []
    else Lines(texts[..|texts| - 1], n) + Line(n + |texts| - 1, texts[|texts| - 1])
  }

  /** Each kept point with its full stop made sure of (`_ensurePeriod`). */
  function Finished(points: seq<string>): (r: seq<string>)
    ensures |r| == |points|
  {
    if points == [] then []
    else Finished(points[..|points| - 1]) + [EnsurePeriod(points[|points| - 1])]
  }

  lemma {:induction false} FinishedAt(points: seq<string>, i: nat)
    requires i < |points|
    ensures Finished(points)[i] == EnsurePeriod(points[i])
  {
    if i < |points| - 1 {
      FinishedAt(points[..|points| - 1], i);
    }
  }

  /** Numbering read from the front: the first text gets number `n`, and the
      rest are numbered from `n + 1`. */
  lemma {:induction false} LinesFront(x: string, texts: seq<string>, n: nat)
    ensures Lines([x] + texts, n) == Line(n, x) + Lines(texts, n + 1)
    decreases |texts|
  {
    if texts == [] {
      assert [x][..0] == [];
    } else {
      var init := texts[..|texts| - 1];
      assert ([x] + texts)[..|texts|] == [x] + init;
      LinesFront(x, init, n);
    }
  }

  lemma LinesSnoc(texts: seq<string>, text: string, n: nat)
    ensures Lines(texts + [text], n) == Lines(texts, n) + Line(n + |texts|, text)
  {
    assert (texts + [text])[..|texts|] == texts;
  }

  lemma FinishedSnoc(points: seq<string>, p: string)
    ensures Finished(points + [p]) == Finished(points) + [EnsurePeriod(p)]
  {
    assert (points + [p])[..|points|] == points;
  }

  /** One more point either leaves the numbered text as it is (a blank point)
      or adds one line numbered after the kept points. */
  lemma NumberedSnoc(points: seq<string>, p: string)
    ensures !IsBlank(p) ==> Lines(Finished(Kept(points + [p])), 1)
                            == Lines(Finished(Kept(points)), 1) + Line(|Kept(points)| + 1, EnsurePeriod(p))
    ensures IsBlank(p) ==> Kept(points + [p]) == Kept(points)
  {
    var ks := Kept(points);
    KeptSnoc(points, p);
    if !IsBlank(p) {
      FinishedSnoc(ks, p);
      LinesSnoc(Finished(ks), EnsurePeriod(p), 1);
    }
  }

  /** Appending the next numbered line to a numbered text. */
  lemma LinesAppend(output: string, texts: seq<string>, text: string, out: string)
    requires out == output + Lines(texts, 1)
    ensures out + Line(|texts| + 1, text) == output + Lines(texts + [text], 1)
  {
    LinesSnoc(texts, text, 1);
    ConcatAssoc(output, Lines(texts, 1), Line(|texts| + 1, text));
  }

  /** The finished texts of the kept points grow by one finished text for
      each non-blank point and not at all for a blank one. */
  lemma FinishedKeptSnoc(done: seq<string>, p: string)
    ensures !IsBlank(p) ==> Finished(Kept(done + [p])) == Finished(Kept(done)) + [EnsurePeriod(p)]
    ensures IsBlank(p) ==> Finished(Kept(done + [p])) == Finished(Kept(done))
  {
    KeptSnoc(done, p);
    if !IsBlank(p) {
      FinishedSnoc(Kept(done), p);
    } else {
      assert Kept(done) + [] == Kept(done);
      assert Finished(Kept(done)) + [] == Finished(Kept(done));
    }
  }

  /** The loop shared by the three generators: append each non-blank point as
      a numbered line, the counter advancing only on written points. */
  method AppendPoints(output: string, points: seq<string>) returns (out: string)
    ensures out == output + Lines(Finished(Kept(points)), 1)
  {
    ghost var written: seq<string> := [];
    out := output;
    var counter := 1;
    var i := 0;
    while i < |points|
      invariant 0 <= i <= |points|
      invariant written == Finished(Kept(points[..i]))
      invariant out == output + Lines(written, 1)
      invariant counter == |written| + 1
    {
      var p := points[i];
      TakeSnoc(points, i);
      FinishedKeptSnoc(points[..i], p);
      // `String(p).trim()` is empty exactly when `p` is blank (TrimEmptyIffBlank).
      if !IsBlank(p) {
        var text := EnsurePeriod(p);
        LinesAppend(output, written, text, out);
        out := out + Line(counter, text);
        written := written + [text];
        counter := counter + 1;
      }
      i := i + 1;
    }
    TakeAll(points);
  }


  /** Every numbered point is written with a full stop at its end. */
  lemma FinishedPointsEndWithPeriod(points: seq<string>)
    ensures forall i | 0 <= i < |Kept(points)| :: EndsWithPeriod(Finished(Kept(points))[i])
  {
    var ks := Kept(points);
    forall i | 0 <= i < |ks|
      ensures EndsWithPeriod(Finished(ks)[i])
    {
      KeptExactly(points, ks[i]);
      FinishedAt(ks, i);
      assert EnsurePeriod(ks[i]) != [];
    }
  }

  /** A document: its header, the numbered non-blank points, its closing. */
  function Document(header: string, points: seq<string>, closing: string): string {
    header + Lines(Finished(Kept(points)), 1) + closing
  }

  lemma DocumentShape(header: string, points: seq<string>, closing: string)
    ensures StartsWith(Document(header, points, closing), header)
    ensures EndsWith(Document(header, points, closing), closing)
  {
    var body := Lines(Finished(Kept(points)), 1);
    PrefixOfConcat(header, body + closing);
    assert Document(header, points, closing) == header + (body + closing);
    SuffixOfConcat(header + body, closing);
  }

  /** With `k` points always present before one optional last point, the
      document numbers `k` items, or `k + 1` when the last one is filled. */
  lemma KeptCount(points: seq<string>, k: nat)
    requires |points| == k + 1
    requires forall i | 0 <= i < k :: !IsBlank(points[i])
    ensures |Kept(points)| == k + (if IsBlank(points[k]) then 0 else 1)
  {
    var init := points[..k];
    KeptAllFilled(init);
    SplitLast(points);
    KeptSnoc(init, points[k]);
  }

  /** The three point lists: every point but the last is known to be filled. */
  lemma KeptSeven(a: string, b: string, c: string, d: string, e: string, f: string, x: string)
    requires !IsBlank(a) && !IsBlank(b) && !IsBlank(c) && !IsBlank(d) && !IsBlank(e) && !IsBlank(f)
    ensures |Kept([a, b, c, d, e, f, x])| == 6 + (if IsBlank(x) then 0 else 1)
  {
    KeptCount([a, b, c, d, e, f, x], 6);
  }

  lemma KeptNine(a: string, b: string, c: string, d: string, e: string, f: string, g: string, h: string,
                 x: string)
    requires !IsBlank(a) && !IsBlank(b) && !IsBlank(c) && !IsBlank(d)
    requires !IsBlank(e) && !IsBlank(f) && !IsBlank(g) && !IsBlank(h)
    ensures |Kept([a, b, c, d, e, f, g, h, x])| == 8 + (if IsBlank(x) then 0 else 1)
  {
    KeptCount([a, b, c, d, e, f, g, h, x], 8);
  }

  lemma KeptEleven(a: string, b: string, c: string, d: string, e: string, f: string, g: string, h: string,
                   i: string, j: string, x: string)
    requires !IsBlank(a) && !IsBlank(b) && !IsBlank(c) && !IsBlank(d) && !IsBlank(e)
    requires !IsBlank(f) && !IsBlank(g) && !IsBlank(h) && !IsBlank(i) && !IsBlank(j)
    ensures |Kept([a, b, c, d, e, f, g, h, i, j, x])| == 10 + (if IsBlank(x) then 0 else 1)
  {
    KeptCount([a, b, c, d, e, f, g, h, i, j, x], 10);
  }

  // ---------------------------------------------------------------------------
  // Fields and sentences shared by the three meetings

  function ProjectName(rec: Record): string { GetVal(rec, "projectName", "【请补充项目名称】") }
  function BusinessCode(rec: Record): string { GetVal(rec, "businessCode", "【请补充项目商机编码】") }
  function ConstructionContent(rec: Record): string { GetVal(rec, "constructionContent", "【请补充建设内容】") }
  function CapacityType(rec: Record): string { GetVal(rec, "capacityType", "【请选择产能能力】") }
  function ProjectLevel(rec: Record): string { GetVal(rec, "projectLevel", "【请选择项目级别】") }
  function OtherRisk(rec: Record): string { GetVal(rec, "OT_risk", "") }

  /** The bid method as the templates test it: `!method` holds for a missing
      and for an empty value. */
  function Method(rec: Record, key: string): (m: Option<string>)
    ensures m.Some? <==> Filled(rec, key)
  {
    if Filled(rec, key) then Some(rec[key]) else None
  }

  /** Lead department, assisting departments, role sentence and delivery
      breakdown, as they follow 由…牵头，. */
  function Organisation(f: Figures): string {
    f.leadDepartment + "牵头，" + f.assistSummary + f.rolesSummary + f.deliverySummary
  }

  /** `本项目交付要求：交付周期为${period}，${risk}`.
      Never blank, so the point-count lemmas can count it as written. */
  function DeliveryRequirement(period: string, risk: string): (r: string)
    ensures !IsBlank(r)
  {
    var t := "本项目交付要求：交付周期为" + period + "，" + risk;
    assert t[0] == '本';
    t
  }

  const ChooseMethod := "【请选择投标方式】"

  // ---------------------------------------------------------------------------
  // 商机评估会

  const OpportunityClosing := "综合评估各要素，铁三角成员评估跟进此商机。"

  /** key1_text of the opportunity review.
      Never blank, so the point-count lemmas can count it as written. */
  function OpportunityOverview(name: string, client: string, content: string): (r: string)
    ensures !IsBlank(r)
  {
    var t := "本项目是" + name + "，项目签约客户是" + client + "项目建设内容为" + content;
    assert t[0] == '本';
    t
  }

  /** key2_text of the opportunity review.
      Never blank, so the point-count lemmas can count it as written. */
  function OpportunityOrganisation(capacity: string, level: string, f: Figures): (r: string)
    ensures !IsBlank(r)
  {
    var t := "本项目属于" + capacity + level + "项目，由" + Organisation(f);
    assert t[0] == '本';
    t
  }

  /** key3_text of the opportunity review: budget, procurement clause and the
      two margins, each with two decimals.
      Never blank, so the point-count lemmas can count it as written. */
  function OpportunityBudget(budgetWan: real, procurement: string, gross: real, net: real): (r: string)
    ensures !IsBlank(r)
  {
    var t := "本项目预算" + Fixed2(budgetWan) + "万元（含税），" + procurement
             + "毛利率预估" + Fixed2(gross) + "%（不含税），利润率预估" + Fixed2(net) + "%（不含税）";
    assert t[0] == '本';
    t
  }

  /** `本项目存在风险：\n${risk}`.
      Never blank, so the point-count lemmas can count it as written. */
  function RiskStatement(risk: string): (r: string)
    ensures !IsBlank(r)
  {
    var t := "本项目存在风险：\n" + risk;
    assert t[0] == '本';
    t
  }

  function OpportunityPoints(rec: Record, f: Figures): seq<string> {
    [ OpportunityOverview(ProjectName(rec), ClientDescription(rec), ConstructionContent(rec)),
      OpportunityOrganisation(CapacityType(rec), ProjectLevel(rec), f),
      OpportunityBudget(f.budgetWan, ProcurementText(rec, f, Opportunity),
                        FieldNumber(rec, "SJ_grossMargin"), FieldNumber(rec, "SJ_netMargin")),
      RiskStatement(GetVal(rec, "SJ_projectRisk", "【请补充项目风险（商机）】")),
      ProcurementRisk(rec),
      Answer(rec, "SJ_projectCooperationNeeded", "SJ_projectCooperationAssessment", "【请补充项目合作评估】",
             "本项目不涉及项目合作", "【请评估是否项目合作】"),
      Answer(rec, "SJ_preInvestmentNeeded", "SJ_preInvestmentDetails", "【请补充预投入情况】",
             "本项目不涉及预投入情况", "【请评估是否涉及预投入】"),
      GetVal(rec, "SJ_atomicCapability", "【请补充原子能力评估】"),
      OtherRisk(rec) ]
  }

  function OpportunityHeader(rec: Record): string {
    ProjectName(rec) + "（" + BusinessCode(rec) + "）\n\n商机评估会\n"
  }

  function OpportunityDocument(rec: Record, f: Figures): string {
    Document(OpportunityHeader(rec), OpportunityPoints(rec, f), OpportunityClosing)
  }

  /** What `generateOpportunityMinutes(formData)` returns. */
  function OpportunityMinutes(rec: Record, rows: seq<DeliveryRow>): string {
    OpportunityDocument(rec, CalculateCommon(rec, rows))
  }

  /** `generateOpportunityMinutes(formData)`. */
  method GenerateOpportunityMinutes(rec: Record, rows: seq<DeliveryRow>) returns (doc: string)
    ensures doc == OpportunityMinutes(rec, rows)
  {
    var common := CalculateCommon(rec, rows);
    doc := OpportunityHeader(rec);
    doc := AppendPoints(doc, OpportunityPoints(rec, common));
    doc := doc + OpportunityClosing;
  }

  /** Every opportunity point but the last always has text (a placeholder
      stands in for each missing field), so the minutes number eight points,
      nine when the other-risk field is filled. */
  lemma OpportunityPointCount(rec: Record, f: Figures)
    ensures |Kept(OpportunityPoints(rec, f))| == 8 + (if IsBlank(OtherRisk(rec)) then 0 else 1)
  {
    var procurementRisk := ProcurementRisk(rec);
    var cooperation := Answer(rec, "SJ_projectCooperationNeeded", "SJ_projectCooperationAssessment",
                              "【请补充项目合作评估】", "本项目不涉及项目合作", "【请评估是否项目合作】");
    var preInvestment := Answer(rec, "SJ_preInvestmentNeeded", "SJ_preInvestmentDetails", "【请补充预投入情况】",
                                "本项目不涉及预投入情况", "【请评估是否涉及预投入】");
    var atomic := GetVal(rec, "SJ_atomicCapability", "【请补充原子能力评估】");
    ProcurementRiskNonBlank(rec);
    AnswerNonBlank(rec, "SJ_projectCooperationNeeded", "SJ_projectCooperationAssessment", "【请补充项目合作评估】",
                   "本项目不涉及项目合作", "【请评估是否项目合作】");
    AnswerNonBlank(rec, "SJ_preInvestmentNeeded", "SJ_preInvestmentDetails", "【请补充预投入情况】",
                   "本项目不涉及预投入情况", "【请评估是否涉及预投入】");
    GetValNonBlank(rec, "SJ_atomicCapability", "【请补充原子能力评估】");
    KeptNine(OpportunityOverview(ProjectName(rec), ClientDescription(rec), ConstructionContent(rec)),
             OpportunityOrganisation(CapacityType(rec), ProjectLevel(rec), f),
             OpportunityBudget(f.budgetWan, ProcurementText(rec, f, Opportunity),
                               FieldNumber(rec, "SJ_grossMargin"), FieldNumber(rec, "SJ_netMargin")),
             RiskStatement(GetVal(rec, "SJ_projectRisk", "【请补充项目风险（商机）】")),
             procurementRisk, cooperation, preInvestment, atomic, OtherRisk(rec));
  }

  /** The opportunity minutes open with name and code in full-width brackets
      and end with the fixed conclusion. */
  lemma OpportunityDocumentShape(rec: Record, f: Figures)
    ensures StartsWith(OpportunityDocument(rec, f), OpportunityHeader(rec))
    ensures EndsWith(OpportunityDocument(rec, f), OpportunityClosing)
  {
    DocumentShape(OpportunityHeader(rec), OpportunityPoints(rec, f), OpportunityClosing);
  }

  /** A text that starts with `a + b` starts with `a`. */
  lemma HeaderPrefix(a: string, b: string, doc: string)
    requires StartsWith(doc, a + b)
    ensures StartsWith(doc, a)
  {
    assert (a + b)[..|a|] == a;
  }

  lemma ProcurementRiskNonBlank(rec: Record)
    ensures !IsBlank(ProcurementRisk(rec))
  {
    AnswerNonBlank(rec, "procurement", "procurementRisk", "【请补充外采风险】", "本项目不涉及外采", "【请评估是否涉及外采】");
  }

  // ---------------------------------------------------------------------------
  // 投标评估会

  const BidClosing := "三、会议结论\n综合评估各要素，铁三角评估可参与此项目投标，并根据内控审批权限作投标审批决策。"

  /** The bid methods that go through a tender (`bidMethodsWithRisk`). */
  predicate IsTender(m: string) {
    m == "公开招标" || m == "邀请招标" || m == "比选"
  }

  /** The bid methods answered without a tender opening. */
  predicate IsResponse(m: string) {
    m == "单一来源" || m == "询价" || m == "竞争性谈判"
  }

  /** What follows the method's name in the bid review's `bid_method_desc`. */
  function BidMethodClause(m: string, entity: string, opening: string, response: string): string {
    if IsTender(m) then "方式，拟以" + entity + "名义投标，开标时间为" + opening
    else if IsResponse(m) then "方式，拟以" + entity + "名义应答，应答时间为" + response
    else ""
  }

  /** `bid_method_desc` of the bid review, for a filled method `m`. */
  function BidMethodText(m: string, entity: string, opening: string, response: string): string {
    m + BidMethodClause(m, entity, opening, response)
  }

  function BidMethodDescription(rec: Record): string {
    match Method(rec, "TB_biddingMethod")
    case None => ChooseMethod
    case Some(m) =>
      BidMethodText(m, GetVal(rec, "TB_biddingEntity", "【请选择投标主体】"),
                    FormatDate(Lookup(rec, "TB_bidOpeningDate")), FormatDate(Lookup(rec, "TB_bidResponseDate")))
  }

  /** The clause opens with the method; a tender names the opening date, an
      answered method the response date, and any other method stands alone. */
  lemma BidMethodTextShape(m: string, entity: string, opening: string, response: string)
    ensures StartsWith(BidMethodText(m, entity, opening, response), m)
    ensures IsTender(m) ==> Contains(BidMethodText(m, entity, opening, response), opening)
    ensures IsResponse(m) ==> Contains(BidMethodText(m, entity, opening, response), response)
    ensures !IsTender(m) && !IsResponse(m) ==> BidMethodText(m, entity, opening, response) == m
  {
    var clause := BidMethodClause(m, entity, opening, response);
    PrefixOfConcat(m, clause);
    if IsTender(m) {
      Mention("方式，拟以" + entity + "名义投标，开标时间为", opening, "");
      assert clause == "方式，拟以" + entity + "名义投标，开标时间为" + opening + "";
      ContainsAfter(m, clause, opening);
    } else if IsResponse(m) {
      Mention("方式，拟以" + entity + "名义应答，应答时间为", response, "");
      assert clause == "方式，拟以" + entity + "名义应答，应答时间为" + response + "";
      ContainsAfter(m, clause, response);
    } else {
      assert m + "" == m;
    }
  }

  /** The bid review's method clause: a prompt when no method is chosen,
      otherwise a clause opening with the method, and the method alone when it
      is neither a tender nor an answered method. */
  lemma BidMethodDescriptionCases(rec: Record)
    ensures !Filled(rec, "TB_biddingMethod") ==> BidMethodDescription(rec) == "【请选择投标方式】"
    ensures Filled(rec, "TB_biddingMethod") ==> StartsWith(BidMethodDescription(rec), rec["TB_biddingMethod"])
    ensures Filled(rec, "TB_biddingMethod") && !IsTender(rec["TB_biddingMethod"]) && !IsResponse(rec["TB_biddingMethod"]) ==>
              BidMethodDescription(rec) == rec["TB_biddingMethod"]
  {
    if Filled(rec, "TB_biddingMethod") {
      BidMethodTextShape(rec["TB_biddingMethod"], GetVal(rec, "TB_biddingEntity", "【请选择投标主体】"),
                         FormatDate(Lookup(rec, "TB_bidOpeningDate")), FormatDate(Lookup(rec, "TB_bidResponseDate")));
    }
  }

  /** `risk_assessment_desc`: the tender-risk field for a tender, otherwise a
      sentence saying the method involves no tender risk. */
  function BidRiskAssessment(rec: Record): (r: string)
    ensures !IsBlank(r)
  {
    match Method(rec, "TB_biddingMethod")
    case None => assert ChooseMethod[0] == '【'; ChooseMethod
    case Some(m) =>
      if IsTender(m) then
        GetValNonBlank(rec, "TB_biddingRisk", "【请补充招投标风险评估】");
        GetVal(rec, "TB_biddingRisk", "【请补充招投标风险评估】")
      else
        var t := "本项目客户采用" + m + "方式，不涉及招投标风险";
        assert t[0] == '本';
        t
  }

  /** The risk point speaks of tender risk exactly for the tender methods: a
      tender reads the tender-risk field, any other filled method is declared
      free of it, and with no method both clauses ask for one. */
  lemma BidRiskFollowsMethod(rec: Record)
    ensures Method(rec, "TB_biddingMethod").Some? && IsTender(rec["TB_biddingMethod"]) ==>
              BidRiskAssessment(rec) == GetVal(rec, "TB_biddingRisk", "【请补充招投标风险评估】")
    ensures Method(rec, "TB_biddingMethod").Some? && !IsTender(rec["TB_biddingMethod"]) ==>
              EndsWith(BidRiskAssessment(rec), "方式，不涉及招投标风险")
    ensures Method(rec, "TB_biddingMethod").None? ==>
              BidRiskAssessment(rec) == BidMethodDescription(rec) == ChooseMethod
  {
    match Method(rec, "TB_biddingMethod")
    case None =>
    case Some(m) =>
      if !IsTender(m) {
        SuffixOfConcat("本项目客户采用" + m, "方式，不涉及招投标风险");
      }
  }

  /** key1_text of the bid review. */
  function BidOverview(businessType: string, client: string, methodText: string): string {
    "本项目为" + businessType + "项目，项目签约客户是" + client + "客户计划采用" + methodText + "。"
  }

  /** key2_text of the bid review: the construction content as one sentence. */
  function BidContent(content: string, f: Figures): string {
    "项目建设内容为：" + StripPeriod(content) + "。由" + Organisation(f)
  }

  /** key3_text of the bid review. */
  function BidBudget(budgetWan: real, capacity: string, level: string, procurement: string, gross: real): string {
    "本项目预算" + Fixed2(budgetWan) + "万元（含税），属于" + capacity + level + "项目，" + procurement
      + "毛利率预估" + Fixed2(gross) + "%（不含税）。"
  }

  /** The title lines, with name and code in ASCII brackets. */
  function BidTitle(rec: Record): string {
    ProjectName(rec) + "(" + BusinessCode(rec) + ")\n\n投标评估会\n"
  }

  /** Section 一 with its three fixed points, and the heading of section 二. */
  function BidBasics(rec: Record, f: Figures): string {
    "一、项目基本信息\n1、"
      + BidOverview(GetVal(rec, "TB_businessType", "【请补充业务类型】"), ClientDescription(rec), BidMethodDescription(rec))
      + "\n2、" + BidContent(ConstructionContent(rec), f)
      + "\n3、" + BidBudget(f.budgetWan, CapacityType(rec), ProjectLevel(rec), ProcurementText(rec, f, Bidding),
                            FieldNumber(rec, "TB_grossMargin"))
      + "\n二、风险及应对措施\n"
  }

  function BidHeader(rec: Record, f: Figures): string {
    BidTitle(rec) + BidBasics(rec, f)
  }

  function BidPoints(rec: Record, f: Figures): seq<string> {
    [ BidRiskAssessment(rec),
      DeliveryRequirement(GetVal(rec, "TB_deliveryPeriod", "【请补充交付周期】"),
                          GetVal(rec, "TB_deliveryRisk", "【请补充交付风险】")),
      ProcurementRisk(rec),
      Answer(rec, "TB_projectCooperationNeeded", "TB_projectCooperationAssessment", "【请补充项目合作评估】",
             "本项目不涉及项目合作", "【请评估是否项目合作】"),
      GetVal(rec, "TB_maintenanceRequirements", "【请补充运维要求】"),
      Answer(rec, "TB_isPrimarySystem", "TB_securityAssessment", "【请补充网络和信息安全评估】",
             "本项目不涉及亿迅主责系统", "【请评估是否亿迅主责系统】"),
      GetVal(rec, "TB_maintenanceAssessment", "【请补充运维服务评估意见】"),
      GetVal(rec, "TB_financialAssessment", "【请补充财务评估】"),
      GetVal(rec, "TB_testingRequirements", "【请补充等保测评、第三方测评要求】"),
      GetVal(rec, "TB_trialRun", "【请补充试运行情况】"),
      OtherRisk(rec) ]
  }

  function BidDocument(rec: Record, f: Figures): string {
    Document(BidHeader(rec, f), BidPoints(rec, f), BidClosing)
  }

  /** What `generateBiddingMinutes(formData)` returns. */
  function BiddingMinutes(rec: Record, rows: seq<DeliveryRow>): string {
    BidDocument(rec, CalculateCommon(rec, rows))
  }

  /** `generateBiddingMinutes(formData)`. */
  method GenerateBiddingMinutes(rec: Record, rows: seq<DeliveryRow>) returns (doc: string)
    ensures doc == BiddingMinutes(rec, rows)
  {
    var common := CalculateCommon(rec, rows);
    doc := BidHeader(rec, common);
    doc := AppendPoints(doc, BidPoints(rec, common));
    doc := doc + BidClosing;
  }

  /** The bid review numbers ten risk points, eleven when the other-risk field
      is filled. */
  lemma BidPointCount(rec: Record, f: Figures)
    ensures |Kept(BidPoints(rec, f))| == 10 + (if IsBlank(OtherRisk(rec)) then 0 else 1)
  {
    var cooperation := Answer(rec, "TB_projectCooperationNeeded", "TB_projectCooperationAssessment",
                              "【请补充项目合作评估】", "本项目不涉及项目合作", "【请评估是否项目合作】");
    var security := Answer(rec, "TB_isPrimarySystem", "TB_securityAssessment", "【请补充网络和信息安全评估】",
                           "本项目不涉及亿迅主责系统", "【请评估是否亿迅主责系统】");
    var maintenance := GetVal(rec, "TB_maintenanceRequirements", "【请补充运维要求】");
    var maintenanceAssessment := GetVal(rec, "TB_maintenanceAssessment", "【请补充运维服务评估意见】");
    var financial := GetVal(rec, "TB_financialAssessment", "【请补充财务评估】");
    var testing := GetVal(rec, "TB_testingRequirements", "【请补充等保测评、第三方测评要求】");
    var trial := GetVal(rec, "TB_trialRun", "【请补充试运行情况】");
    ProcurementRiskNonBlank(rec);
    AnswerNonBlank(rec, "TB_projectCooperationNeeded", "TB_projectCooperationAssessment", "【请补充项目合作评估】",
                   "本项目不涉及项目合作", "【请评估是否项目合作】");
    AnswerNonBlank(rec, "TB_isPrimarySystem", "TB_securityAssessment", "【请补充网络和信息安全评估】",
                   "本项目不涉及亿迅主责系统", "【请评估是否亿迅主责系统】");
    GetValNonBlank(rec, "TB_maintenanceRequirements", "【请补充运维要求】");
    GetValNonBlank(rec, "TB_maintenanceAssessment", "【请补充运维服务评估意见】");
    GetValNonBlank(rec, "TB_financialAssessment", "【请补充财务评估】");
    GetValNonBlank(rec, "TB_testingRequirements", "【请补充等保测评、第三方测评要求】");
    GetValNonBlank(rec, "TB_trialRun", "【请补充试运行情况】");
    KeptEleven(BidRiskAssessment(rec),
               DeliveryRequirement(GetVal(rec, "TB_deliveryPeriod", "【请补充交付周期】"),
                                   GetVal(rec, "TB_deliveryRisk", "【请补充交付风险】")),
               ProcurementRisk(rec), cooperation, maintenance, security, maintenanceAssessment, financial,
               testing, trial, OtherRisk(rec));
  }

  /** The bid minutes open with name and code in ASCII brackets and end with
      the conclusion section. */
  lemma BidDocumentShape(rec: Record, f: Figures)
    ensures StartsWith(BidDocument(rec, f), BidTitle(rec))
    ensures EndsWith(BidDocument(rec, f), BidClosing)
  {
    DocumentShape(BidHeader(rec, f), BidPoints(rec, f), BidClosing);
    HeaderPrefix(BidTitle(rec), BidBasics(rec, f), BidDocument(rec, f));
  }

  // ---------------------------------------------------------------------------
  // 项目交底会

  const KickoffClosing := "四、其他参会部门意见\n公共架构评估师意见详见会议纪要中【公共架构结论】部分。\n五、会议结论\n项目铁三角对项目情况、项目角色分工、项目计划及里程碑节点、项目风险及问题解决方案等内容均已了解清晰，交底完成，请项目组尽快完成合同签约。"

  /** key4_text: the fixed hand-over of documents. */
  const Handover := "1、项目售前资料交底：销售经理、方案经理已对项目所有售前的会议纪要、客户沟通记录、客户需求及交付要求等资料交接给交付经理、项目经理；\n2、项目投标资料交底：销售经理、方案经理已对招标文件、投标文件、技术规范书等资料交接给交付经理、项目经理；\n3、项目实施计划交底：项目经理已完成项目里程碑计划，各关键节点已有明确的交付成果要求，铁三角已确认该时间节点可行；\n4、项目干系人交底：销售经理已上传项目干系人清单，清单已包含客户（签约客户/最终客户）以及合作伙伴干系人的名单和联系方式，铁三角对项目干系人已知晓。"

  /** The five families of methods the hand-over review distinguishes. */
  datatype MethodKind = Tender | SingleSource | Order | Negotiated | DirectPurchase | OtherMethod

  function KindOf(m: string): MethodKind {
    if IsTender(m) then Tender
    else if m == "单一来源" then SingleSource
    else if m == "原子能力下单" || m == "订单方式" then Order
    else if m == "询价" || m == "竞争性谈判" then Negotiated
    else if m == "电商采购" || m == "直接采购" then DirectPurchase
    else OtherMethod
  }

  /** What follows the method's name in the hand-over review's `bid_method_desc`,
      from the formatted opening, award, signing and response dates. */
  function KickoffMethodClause(kind: MethodKind, opening: string, award: string, signing: string, response: string): string {
    match kind
    case Tender => "方式，开标时间为" + opening + "，中标时间为" + award + "，计划" + signing + "前完成签约"
    case SingleSource => "方式，无需招投标，" + response + "已完成应答，计划" + signing + "前完成签约"
    case Order => "方式，预计客户在" + signing + "前完成下单"
    case Negotiated => "方式，" + response + "已完成应答，预计客户在" + signing + "前完成签约"
    case DirectPurchase => "方式，预计客户在" + signing + "前完成签约"
    case OtherMethod => ""
  }

  /** `bid_method_desc` of the hand-over review, for a filled method `m`. */
  function KickoffMethodText(m: string, opening: string, award: string, signing: string, response: string): string {
    m + KickoffMethodClause(KindOf(m), opening, award, signing, response)
  }

  function KickoffMethodDescription(rec: Record): string {
    match Method(rec, "JD_biddingMethod")
    case None => ChooseMethod
    case Some(m) =>
      KickoffMethodText(m, FormatDate(Lookup(rec, "JD_bidOpeningDate")), FormatDate(Lookup(rec, "JD_awardDate")),
                        FormatDate(Lookup(rec, "JD_signingDate")), FormatDate(Lookup(rec, "JD_bidResponseDate")))
  }

  /** Every clause opens with the method itself, and every recognised method
      names the signing date; an unrecognised one is passed through as it is. */
  lemma KickoffMethodTextShape(m: string, opening: string, award: string, signing: string, response: string)
    ensures StartsWith(KickoffMethodText(m, opening, award, signing, response), m)
    ensures KindOf(m) != OtherMethod ==>
              Contains(KickoffMethodText(m, opening, award, signing, response), signing)
    ensures KindOf(m) == OtherMethod ==> KickoffMethodText(m, opening, award, signing, response) == m
  {
    var clause := KickoffMethodClause(KindOf(m), opening, award, signing, response);
    PrefixOfConcat(m, clause);
    match KindOf(m)
    case Tender =>
      Mention("方式，开标时间为" + opening + "，中标时间为" + award + "，计划", signing, "前完成签约");
      ContainsAfter(m, clause, signing);
    case SingleSource =>
      Mention("方式，无需招投标，" + response + "已完成应答，计划", signing, "前完成签约");
      ContainsAfter(m, clause, signing);
    case Order =>
      Mention("方式，预计客户在", signing, "前完成下单");
      ContainsAfter(m, clause, signing);
    case Negotiated =>
      Mention("方式，" + response + "已完成应答，预计客户在", signing, "前完成签约");
      ContainsAfter(m, clause, signing);
    case DirectPurchase =>
      Mention("方式，预计客户在", signing, "前完成签约");
      ContainsAfter(m, clause, signing);
    case OtherMethod =>
      assert m + "" == m;
  }

  /** The hand-over review's method clause: a prompt when no method is
      chosen, otherwise a clause opening with the method, and the method alone
      when it is none of the recognised ones. */
  lemma KickoffMethodDescriptionCases(rec: Record)
    ensures !Filled(rec, "JD_biddingMethod") ==> KickoffMethodDescription(rec) == "【请选择投标方式】"
    ensures Filled(rec, "JD_biddingMethod") ==> StartsWith(KickoffMethodDescription(rec), rec["JD_biddingMethod"])
    ensures Filled(rec, "JD_biddingMethod") && KindOf(rec["JD_biddingMethod"]) == OtherMethod ==>
              KickoffMethodDescription(rec) == rec["JD_biddingMethod"]
  {
    if Filled(rec, "JD_biddingMethod") {
      KickoffMethodTextShape(rec["JD_biddingMethod"], FormatDate(Lookup(rec, "JD_bidOpeningDate")),
                             FormatDate(Lookup(rec, "JD_awardDate")), FormatDate(Lookup(rec, "JD_signingDate")),
                             FormatDate(Lookup(rec, "JD_bidResponseDate")));
    }
  }

  /** `a + b + c` contains `b`. */
  lemma Mention(a: string, b: string, c: string)
    ensures Contains(a + b + c, b)
  {
    ContainsIff(a + b + c, b);
    assert (a + b + c)[|a|..|a| + |b|] == b;
    assert OccursAt(a + b + c, b, |a|);
  }

  /** Text that occurs in `s` occurs in `m + s`. */
  lemma ContainsAfter(m: string, s: string, p: string)
    requires Contains(s, p)
    ensures Contains(m + s, p)
  {
    ContainsIff(s, p);
    var k: nat :| OccursAt(s, p, k);
    assert (m + s)[|m| + k..|m| + k + |p|] == s[k..k + |p|];
    assert OccursAt(m + s, p, |m| + k);
    ContainsIff(m + s, p);
  }

  /** key1_text of the hand-over review. */
  function KickoffOverview(businessType: string, client: string, methodText: string): string {
    "本项目为" + businessType + "项目，项目签约客户是" + client + "客户采用" + methodText + "。"
  }

  /** key2_text of the hand-over review. */
  function KickoffBudget(budgetWan: real, procurement: string): string {
    "本项目预算" + Fixed2(budgetWan) + "万元（含税），" + procurement
  }

  /** key3_text of the hand-over review. */
  function KickoffContent(content: string, capacity: string, level: string, f: Figures): string {
    "项目建设内容为：" + StripPeriod(content) + "。本项目属于" + capacity + level + "项目，由" + Organisation(f)
  }

  /** The title lines, with name and code in full-width brackets. */
  function KickoffTitle(rec: Record): string {
    ProjectName(rec) + "（" + BusinessCode(rec) + "）\n\n项目交底会\n"
  }

  /** Sections 一 and 二 and the heading of section 三. */
  function KickoffBasics(rec: Record, f: Figures): string {
    "一、项目基本信息\n1、"
      + KickoffOverview(GetVal(rec, "JD_businessType", "【请补充业务类型】"), ClientDescription(rec),
                        KickoffMethodDescription(rec))
      + "\n2、" + KickoffBudget(f.budgetWan, ProcurementText(rec, f, Kickoff))
      + "\n3、" + KickoffContent(ConstructionContent(rec), CapacityType(rec), ProjectLevel(rec), f)
      + "\n二、项目文件交底\n" + Handover + "\n三、风险及应对举措\n"
  }

  function KickoffHeader(rec: Record, f: Figures): string {
    KickoffTitle(rec) + KickoffBasics(rec, f)
  }

  function KickoffPoints(rec: Record): seq<string> {
    [ DeliveryRequirement(GetVal(rec, "JD_deliveryPeriod", "【请补充交付周期】"),
                          GetVal(rec, "JD_deliveryRisk", "【请补充交付风险】")),
      GetVal(rec, "JD_maintenanceRequirements", "【请补充运维要求】"),
      ProcurementRisk(rec),
      GetVal(rec, "JD_trialRun", "【请补充试运行情况】"),
      GetVal(rec, "JD_maintenanceAssessment", "【请补充运维服务评估意见】"),
      GetVal(rec, "JD_testingRequirements", "【请补充等保测评、第三方测评要求】"),
      OtherRisk(rec) ]
  }

  function KickoffDocument(rec: Record, f: Figures): string {
    Document(KickoffHeader(rec, f), KickoffPoints(rec), KickoffClosing)
  }

  /** What `generateKickoffMinutes(formData)` returns. */
  function KickoffMinutes(rec: Record, rows: seq<DeliveryRow>): string {
    KickoffDocument(rec, CalculateCommon(rec, rows))
  }

  /** `generateKickoffMinutes(formData)`. */
  method GenerateKickoffMinutes(rec: Record, rows: seq<DeliveryRow>) returns (doc: string)
    ensures doc == KickoffMinutes(rec, rows)
  {
    var common := CalculateCommon(rec, rows);
    doc := KickoffHeader(rec, common);
    doc := AppendPoints(doc, KickoffPoints(rec));
    doc := doc + KickoffClosing;
  }

  /** The hand-over review numbers six risk points, seven when the other-risk
      field is filled. */
  lemma KickoffPointCount(rec: Record)
    ensures |Kept(KickoffPoints(rec))| == 6 + (if IsBlank(OtherRisk(rec)) then 0 else 1)
  {
    var maintenance := GetVal(rec, "JD_maintenanceRequirements", "【请补充运维要求】");
    var trial := GetVal(rec, "JD_trialRun", "【请补充试运行情况】");
    var maintenanceAssessment := GetVal(rec, "JD_maintenanceAssessment", "【请补充运维服务评估意见】");
    var testing := GetVal(rec, "JD_testingRequirements", "【请补充等保测评、第三方测评要求】");
    ProcurementRiskNonBlank(rec);
    GetValNonBlank(rec, "JD_maintenanceRequirements", "【请补充运维要求】");
    GetValNonBlank(rec, "JD_trialRun", "【请补充试运行情况】");
    GetValNonBlank(rec, "JD_maintenanceAssessment", "【请补充运维服务评估意见】");
    GetValNonBlank(rec, "JD_testingRequirements", "【请补充等保测评、第三方测评要求】");
    KeptSeven(DeliveryRequirement(GetVal(rec, "JD_deliveryPeriod", "【请补充交付周期】"),
                                  GetVal(rec, "JD_deliveryRisk", "【请补充交付风险】")),
              maintenance, ProcurementRisk(rec), trial, maintenanceAssessment, testing, OtherRisk(rec));
  }

  /** The hand-over minutes open with their title and end with sections 四
      and 五. */
  lemma KickoffDocumentShape(rec: Record, f: Figures)
    ensures StartsWith(KickoffDocument(rec, f), KickoffTitle(rec))
    ensures EndsWith(KickoffDocument(rec, f), KickoffClosing)
  {
    DocumentShape(KickoffHeader(rec, f), KickoffPoints(rec), KickoffClosing);
    HeaderPrefix(KickoffTitle(rec), KickoffBasics(rec, f), KickoffDocument(rec, f));
  }
}
