/** The form record and the figures and summaries shared by the three kinds of
    minutes: amounts in units of ten thousand yuan, the procurement ratio, the
    lead department, the role sentence, the assisting departments and the
    numbered delivery breakdown. */
module Common {
  import opened Text
  import opened Values
  import Roles

  /** The form: element id to current value. A missing id reads as `undefined`. */
  type Record = map<string, string>

  function Lookup(rec: Record, key: string): (r: Option<string>)
    ensures r.Some? <==> key in rec
    ensures r.Some? ==> r.value == rec[key]
  {
    if key in rec then Some(rec[key]) else None
  }

  /** JavaScript truthiness of a field: present and not the empty string. */
  predicate Filled(rec: Record, key: string) {
    key in rec && rec[key] != []
  }

  // ---------------------------------------------------------------------------
  // The delivery table

  /** One row of the delivery-details table: its type cell, and the values of
      its department selector and its manager, deliverable and budget inputs. */
  datatype DeliveryRow = DeliveryRow(kind: string, department: string, manager: string, deliverable: string, budget: string)

  const LeadKind := "牵头交付事业部"

  /** The rows whose department selector has a value, in table order. */
  function FilledRows(table: seq<DeliveryRow>): (rows: seq<DeliveryRow>)
    ensures |rows| <= |table|
  {
    if table == [] then []
    else (if table[0].department != [] then [table[0]] else []) + FilledRows(table[1..])
  }

  /** Exactly the rows with a department survive, none is invented. */
  lemma {:induction false} FilledRowsExactly(table: seq<DeliveryRow>, row: DeliveryRow)
    ensures row in FilledRows(table) <==> row in table && row.department != []
  {
    if table != [] {
      FilledRowsExactly(table[1..], row);
      assert table == [table[0]] + table[1..];
    }
  }

  /** The table loop of `gatherFormData`: a row without a department is skipped. */
  method GatherRows(table: seq<DeliveryRow>) returns (rows: seq<DeliveryRow>)
    ensures rows == FilledRows(table)
  {
    rows := [];
    var i := 0;
    while i < |table|
      invariant 0 <= i <= |table|
      invariant rows + FilledRows(table[i..]) == FilledRows(table)
    {
      assert table[i..][1..] == table[i + 1..];
      if table[i].department != [] {
        assert FilledRows(table[i..]) == [table[i]] + FilledRows(table[i + 1..]);
        rows := rows + [table[i]];
      } else {
        assert FilledRows(table[i..]) == FilledRows(table[i + 1..]);
      }
      i := i + 1;
    }
    assert table[i..] == [];
  }

  // ---------------------------------------------------------------------------
  // Amounts

  /** `_safeFloat(formData[key])`: `parseFloat(undefined)` is NaN, so a missing
      field reads as 0 like an unparseable one. */
  function FieldNumber(rec: Record, key: string): (r: real)
    ensures key !in rec ==> r == 0.0
    ensures key in rec ==> r == SafeFloat(rec[key], 0.0)
  {
    match Lookup(rec, key)
    case None => 0.0
    case Some(s) => SafeFloat(s, 0.0)
  }

  /** Yuan to units of ten thousand yuan. */
  function Wan(yuan: real): (r: real)
    ensures r * 10000.0 == yuan
  {
    yuan / 10000.0
  }

  /** `(whole !== 0) ? part / whole : 0.0`. */
  function Ratio(part: real, whole: real): (r: real)
    ensures whole != 0.0 ==> r * whole == part
    ensures whole == 0.0 ==> r == 0.0
  {
    if whole != 0.0 then part / whole else 0.0
  }

  // ---------------------------------------------------------------------------
  // Summaries

  /** A row that counts as an assisting department. */
  predicate IsAssisting(row: DeliveryRow) {
    row.kind != LeadKind && row.department != []
  }

  /** The trimmed departments of the assisting rows, in table order. */
  function AssistDepartments(rows: seq<DeliveryRow>): (ds: seq<string>)
    ensures |ds| <= |rows|
  {
    if rows == [] then []
    else (if IsAssisting(rows[0]) then [Trim(rows[0].department)] else []) + AssistDepartments(rows[1..])
  }

  /** Every listed department comes from an assisting row ... */
  lemma {:induction false} AssistDepartmentsSound(rows: seq<DeliveryRow>, d: string)
    requires d in AssistDepartments(rows)
    ensures exists j | 0 <= j < |rows| :: IsAssisting(rows[j]) && d == Trim(rows[j].department)
  {
    var rest := AssistDepartments(rows[1..]);
    if !(IsAssisting(rows[0]) && d == Trim(rows[0].department)) {
      assert d in rest;
      AssistDepartmentsSound(rows[1..], d);
      var j :| 0 <= j < |rows[1..]| && IsAssisting(rows[1..][j]) && d == Trim(rows[1..][j].department);
      assert rows[1..][j] == rows[j + 1];
    }
  }

  /** ... and every assisting row is listed. */
  lemma {:induction false} AssistDepartmentsComplete(rows: seq<DeliveryRow>, j: nat)
    requires j < |rows| && IsAssisting(rows[j])
    ensures Trim(rows[j].department) in AssistDepartments(rows)
  {
    if j > 0 {
      assert rows[1..][j - 1] == rows[j];
      AssistDepartmentsComplete(rows[1..], j - 1);
    }
  }

  /** `${assistDepts.join('、')}协助交付。`, or nothing without assisting rows. */
  function AssistSummary(rows: seq<DeliveryRow>): string {
    var ds := AssistDepartments(rows);
    if ds == [] then [] else Join(ds, "、") + "协助交付。"
  }

  /** The assisting sentence is empty exactly when no row assists, and ends
      with 协助交付。 otherwise. */
  lemma AssistSummaryPresence(rows: seq<DeliveryRow>)
    ensures AssistSummary(rows) == [] <==> forall j | 0 <= j < |rows| :: !IsAssisting(rows[j])
    ensures AssistSummary(rows) != [] ==> EndsWith(AssistSummary(rows), "协助交付。")
  {
    var ds := AssistDepartments(rows);
    if ds != [] {
      AssistDepartmentsSound(rows, ds[0]);
      SuffixOfConcat(Join(ds, "、"), "协助交付。");
    } else {
      forall j | 0 <= j < |rows| ensures !IsAssisting(rows[j]) {
        if IsAssisting(rows[j]) { AssistDepartmentsComplete(rows, j); }
      }
    }
  }

  /** How a row's manager is introduced: 项目经理 on the lead row, 子项目经理 on
      the others. */
  function ManagerTitle(row: DeliveryRow): (title: string)
    ensures title == "项目经理" <==> row.kind == LeadKind
  {
    if row.kind == LeadKind then "项目经理" else "子项目经理"
  }

  /** The description of a delivery row from its department, deliverable,
      numeric budget, manager and manager title. */
  function RowText(department: string, deliverable: string, budget: real, manager: string, title: string): string {
    department
      + (if deliverable != [] then "负责交付" + deliverable else "")
      + (if budget > 0.0 then "，预算" + Fixed2(budget) + "万元" else "")
      + (if manager != [] then "，" + title + "是" + manager else "")
  }

  /** The description of one delivery row. */
  function RowPart(row: DeliveryRow): string {
    RowText(row.department, row.deliverable, SafeFloat(row.budget, 0.0), row.manager, ManagerTitle(row))
  }

  /** The description of every row, in order. */
  function RowParts(rows: seq<DeliveryRow>): (parts: seq<string>)
    ensures |parts| == |rows|
    ensures forall i | 0 <= i < |rows| :: parts[i] == RowPart(rows[i])
  {
    seq(|rows|, i requires 0 <= i < |rows| => RowPart(rows[i]))
  }

  /** `texts.map((text, index) => `${index + 1}）${text}`)`, numbering from `n`:
      entry `i` carries the number `n + i`. */
  function Numbered(texts: seq<string>, n: nat): (lines: seq<string>)
    ensures |lines| == |texts|
    ensures forall i | 0 <= i < |texts| :: lines[i] == NatToString(n + i) + "）" + texts[i]
  {
    if texts == [] then []
    else [NatToString(n) + "）" + texts[0]] + Numbered(texts[1..], n + 1)
  }

  /** The numbered rows on separate lines, joined by "；" and closed by "。". */
  function DeliverySummary(rows: seq<DeliveryRow>): string {
    "\n" + Join(Numbered(RowParts(rows), 1), "；\n") + "。"
  }

  /** The delivery summary opens with the first row, numbered 1）, and is a
      single sentence. */
  lemma DeliverySummaryShape(rows: seq<DeliveryRow>)
    requires rows != []
    ensures StartsWith(DeliverySummary(rows), "\n1）" + RowPart(rows[0]))
    ensures EndsWith(DeliverySummary(rows), "。")
  {
    var parts := Numbered(RowParts(rows), 1);
    var body := Join(parts, "；\n");
    JoinStartsWith(parts, "；\n");
    StartsWithExtend("\n", body, "。", parts[0]);
    assert "\n" + parts[0] == "\n1）" + RowPart(rows[0]);
    SuffixOfConcat("\n" + body, "。");
  }

  /** A row description starts with the department as entered and, when the
      row has a manager, ends by naming that manager with the row's title;
      without a manager but with a positive budget it ends with the budget. */
  lemma RowTextShape(department: string, deliverable: string, budget: real, manager: string, title: string)
    ensures StartsWith(RowText(department, deliverable, budget, manager, title), department)
    ensures manager != [] ==> EndsWith(RowText(department, deliverable, budget, manager, title), "，" + title + "是" + manager)
    ensures manager == [] && budget > 0.0 ==> EndsWith(RowText(department, deliverable, budget, manager, title), "万元")
  {
    var content := if deliverable != [] then "负责交付" + deliverable else "";
    var money := if budget > 0.0 then "，预算" + Fixed2(budget) + "万元" else "";
    var who := if manager != [] then "，" + title + "是" + manager else "";
    FourPartShape(department, content, money, who);
    if manager == [] && budget > 0.0 {
      SuffixOfConcat("，预算" + Fixed2(budget), "万元");
      EndsWithBeforeEmpty(department, content, money, "万元");
    }
  }

  lemma RowPartShape(row: DeliveryRow)
    ensures StartsWith(RowPart(row), row.department)
    ensures row.manager != [] ==> EndsWith(RowPart(row), "，" + ManagerTitle(row) + "是" + row.manager)
    ensures row.manager == [] && SafeFloat(row.budget, 0.0) > 0.0 ==> EndsWith(RowPart(row), "万元")
  {
    RowTextShape(row.department, row.deliverable, SafeFloat(row.budget, 0.0), row.manager, ManagerTitle(row));
  }

  // ---------------------------------------------------------------------------
  // _calculateCommonLogic

  datatype Figures = Figures(
    budgetWan: real,
    procurementWan: real,
    procurementRatio: real,
    leadDepartment: string,
    rolesSummary: string,
    assistSummary: string,
    deliverySummary: string)

  /** `formData.ironTriangleInput || ''`. */
  function IronTriangleText(rec: Record): string {
    if "ironTriangleInput" in rec then rec["ironTriangleInput"] else []
  }

  /** Whether the delivery breakdown applies: the capacity type is not 单产能
      (a missing field is not 单产能 either). */
  predicate MultiCapacity(rec: Record) {
    Lookup(rec, "capacityType") != Some("单产能")
  }

  /** `_calculateCommonLogic(formData)`. */
  function CalculateCommon(rec: Record, rows: seq<DeliveryRow>): (f: Figures)
    ensures f.budgetWan == Wan(FieldNumber(rec, "budgetAmount"))
    ensures f.procurementWan == Wan(FieldNumber(rec, "procurementAmount"))
    ensures f.procurementRatio == Ratio(f.procurementWan, f.budgetWan)
    ensures f.leadDepartment == Roles.LeadDepartment(IronTriangleText(rec))
    ensures f.rolesSummary == Roles.ProjectRolesText(IronTriangleText(rec))
    ensures !MultiCapacity(rec) || rows == [] ==> f.assistSummary == [] && f.deliverySummary == []
    ensures MultiCapacity(rec) && rows != [] ==>
              f.assistSummary == AssistSummary(rows) && f.deliverySummary == DeliverySummary(rows)
  {
    var budgetWan := Wan(FieldNumber(rec, "budgetAmount"));
    var procurementWan := Wan(FieldNumber(rec, "procurementAmount"));
    var raw := IronTriangleText(rec);
    var multi := MultiCapacity(rec) && rows != [];
    Figures(budgetWan, procurementWan, Ratio(procurementWan, budgetWan),
            Roles.LeadDepartment(raw), Roles.ProjectRolesText(raw),
            if multi then AssistSummary(rows) else [],
            if multi then DeliverySummary(rows) else [])
  }

  /** With a single capacity, or no delivery rows, neither the assisting
      departments nor the delivery breakdown appear; otherwise the breakdown
      always does, numbered from 1）. */
  lemma DeliveryBreakdownPresence(rec: Record, rows: seq<DeliveryRow>)
    ensures CalculateCommon(rec, rows).deliverySummary != [] <==> MultiCapacity(rec) && rows != []
    ensures MultiCapacity(rec) && rows != [] ==>
              StartsWith(CalculateCommon(rec, rows).deliverySummary, "\n1）" + RowPart(rows[0]))
  {
    if MultiCapacity(rec) && rows != [] {
      DeliverySummaryShape(rows);
    }
  }
}
