/** The attendee list of the meeting-attendees dialog: the invitation line of
    each seat, the seats each meeting type requires, the finance rule, the
    optional seats switched on by yes/no answers, the leadership hint, and the
    first-occurrence removal of repeated lines. */
module Attendees {
  import opened Text
  import opened Values
  import opened Roles

  /** The answers of the dialog's form (each a select or input value). */
  datatype Form = Form(
    budget: string,          // the budget in 万 as typed
    procurement: string,
    level: string,
    industry: string,
    cooperation: string,
    primarySystem: string,
    legalRisk: string,
    meetingType: string)

  /** The keys of the invitation table. */
  datatype Seat =
    | ProjectManagerSeat | SalesManagerSeat | SolutionManagerSeat | DeliveryManagerSeat
    | LegalRisk | Cooperation | Purchasing | NetworkSecurity | Operations | Architecture | Finance

  /** The label under which a role name is looked up in the iron-triangle table. */
  function Label(seat: Seat): string
    requires seat.ProjectManagerSeat? || seat.SalesManagerSeat? || seat.SolutionManagerSeat? || seat.DeliveryManagerSeat?
  {
    match seat
    case ProjectManagerSeat => "项目经理"
    case SalesManagerSeat => "销售经理"
    case SolutionManagerSeat => "方案经理"
    case DeliveryManagerSeat => "交付经理"
  }

  predicate IsManager(seat: Seat) {
    seat.ProjectManagerSeat? || seat.SalesManagerSeat? || seat.SolutionManagerSeat? || seat.DeliveryManagerSeat?
  }

  predicate IsOptional(seat: Seat) {
    seat.LegalRisk? || seat.Cooperation? || seat.Purchasing? || seat.NetworkSecurity?
  }

  const LegalText := "法律风险评估: 李屹【法律合规部】"
  const CooperationText := "项目合作评估: 黄曦楠/许仲华【市场及渠道支撑部（标前）】"
  const PurchasingText := "采购评估: 梁其容/罗晓纯【采购部】"
  const SecurityText := "网信安评估: 吴中华/陆艺阳【运营管理部/研发与质量管理中心、智慧网络运营事业部】"
  const OperationsText := "运维服务评估: 熊俊伟, 蒋朝豪【运营管理部/研发与质量管理中心】"
  const LiuText := "财务评估: 刘椰韵【财务部】"
  const DaiText := "财务评估: 戴亮【财务部】"
  const HintTag := "⚠️ "
  const HintText := HintTag + "行业域需外采A类项目：邀请渠道部门领导、涉及外采的产能部门领导以及市场及渠道支撑部领导（正职或分管该业务的副职）共同参会"
  const ArchitectsSuffix := "【运营管理部/研发与质量管理中心】"

  /** The architects assigned to each project manager's department. */
  const Architects: map<string, string> := map[
    "IT系统事业部" := "王沛文、高航",
    "大数据AI应用事业部" := "许智洋",
    "数字政府事业部/社会治理大数据研究院广州分院" := "李佳鑫、许伟明",
    "云网事业部" := "许智洋",
    "智呼事业部" := "郑辉",
    "智慧企业集成事业部/工业主研院" := "郑辉、陈家辉",
    "智慧网络运营事业部" := "周宏江、高航、许伟明",
    "智慧业财事业部" := "王沛文"]

  /** `getRoleString`: "key：name【department】" when the role has both a
      name and a department, else the bare key. */
  function RoleString(roles: map<string, Role>, key: string): (r: string)
    ensures StartsWith(r, key)
    ensures r == key <==> !(key in roles && roles[key].name != [] && roles[key].department != [])
  {
    if key in roles && roles[key].name != [] && roles[key].department != []
    then
      var r := key + "：" + roles[key].name + "【" + roles[key].department + "】";
      PrefixOfConcat(key, "：" + roles[key].name + "【" + roles[key].department + "】");
      assert key + ("：" + roles[key].name + "【" + roles[key].department + "】") == r;
      assert |r| > |key|;
      r
    else key
  }

  /** The architecture line: the architects of the project manager's
      department, or nothing when that department has none (or there is no
      project manager). */
  function ArchitectureText(roles: map<string, Role>): (r: string)
    ensures StartsWith(r, "公共架构评估师： ")
  {
    var names :=
      if "项目经理" in roles && roles["项目经理"].department in Architects
      then Architects[roles["项目经理"].department] else "";
    PrefixOfConcat("公共架构评估师： ", names + ArchitectsSuffix);
    "公共架构评估师： " + (names + ArchitectsSuffix)
  }

  /** The finance line: none below a budget of 50 (万); 刘椰韵 for a B- or
      C-class project without external purchase; 戴亮 otherwise. */
  function FinanceFor(budget: real, procurement: string, level: string): (r: Option<string>)
    ensures r.None? <==> budget < 50.0
    ensures r == Some(LiuText) <==> budget >= 50.0 && procurement == "否" && (level == "B类" || level == "C类")
    ensures r.Some? ==> r == Some(LiuText) || r == Some(DaiText)
  {
    if budget >= 50.0 then
      if procurement == "否" && (level == "B类" || level == "C类") then Some(LiuText) else Some(DaiText)
    else None
  }

  predicate FinanceLine(fin: Option<string>) {
    fin == None || fin == Some(LiuText) || fin == Some(DaiText)
  }

  /** `all[seat]`: the invitation line of a seat, absent only for finance
      below the budget threshold. */
  function Entry(seat: Seat, roles: map<string, Role>, fin: Option<string>): Option<string> {
    match seat
    case ProjectManagerSeat => Some(RoleString(roles, "项目经理"))
    case SalesManagerSeat => Some(RoleString(roles, "销售经理"))
    case SolutionManagerSeat => Some(RoleString(roles, "方案经理"))
    case DeliveryManagerSeat => Some(RoleString(roles, "交付经理"))
    case LegalRisk => Some(LegalText)
    case Cooperation => Some(CooperationText)
    case Purchasing => Some(PurchasingText)
    case NetworkSecurity => Some(SecurityText)
    case Operations => Some(OperationsText)
    case Architecture => Some(ArchitectureText(roles))
    case Finance => fin
  }

  /** The first three characters of every line of a seat. */
  function Tag(seat: Seat): string {
    match seat
    case ProjectManagerSeat => "项目经"
    case SalesManagerSeat => "销售经"
    case SolutionManagerSeat => "方案经"
    case DeliveryManagerSeat => "交付经"
    case LegalRisk => "法律风"
    case Cooperation => "项目合"
    case Purchasing => "采购评"
    case NetworkSecurity => "网信安"
    case Operations => "运维服"
    case Architecture => "公共架"
    case Finance => "财务评"
  }


  /** A three-character tag read off a text's first three characters. */
  lemma TagAt(x: string, t: string)
    requires |t| == 3 && |x| >= 3 && x[0] == t[0] && x[1] == t[1] && x[2] == t[2]
    ensures StartsWith(x, t)
  {
    assert x[..3] == t;
  }

  lemma EntryTag(seat: Seat, roles: map<string, Role>, fin: Option<string>)
    requires FinanceLine(fin) && Entry(seat, roles, fin).Some?
    ensures StartsWith(Entry(seat, roles, fin).value, Tag(seat))
  {
    var x := Entry(seat, roles, fin).value;
    match seat
    case ProjectManagerSeat => StartsWithTrans(x, "项目经理", Tag(seat));
    case SalesManagerSeat => StartsWithTrans(x, "销售经理", Tag(seat));
    case SolutionManagerSeat => StartsWithTrans(x, "方案经理", Tag(seat));
    case DeliveryManagerSeat => StartsWithTrans(x, "交付经理", Tag(seat));
    case Architecture => StartsWithTrans(x, "公共架构评估师： ", Tag(seat));
    case LegalRisk => TagAt(x, Tag(seat));
    case Cooperation => TagAt(x, Tag(seat));
    case Purchasing => TagAt(x, Tag(seat));
    case NetworkSecurity => TagAt(x, Tag(seat));
    case Operations => TagAt(x, Tag(seat));
    case Finance => TagAt(x, Tag(seat));
  }

  lemma HintTagged()
    ensures StartsWith(HintText, HintTag)
  {
    PrefixOfConcat(HintTag, HintText[|HintTag|..]);
    assert HintTag + HintText[|HintTag|..] == HintText;
  }

  /** No line carries the tags of two different seats, nor a seat's tag and
      the hint's. */
  lemma TagsDiffer(x: string, s: Seat, s': Seat)
    requires StartsWith(x, Tag(s)) && StartsWith(x, Tag(s'))
    ensures s == s'
  {
    assert x[..3] == Tag(s) && x[..3] == Tag(s');
  }

  lemma HintUntagged(x: string, s: Seat)
    requires StartsWith(x, Tag(s))
    ensures !StartsWith(x, HintTag)
  {
    assert x[..1] == Tag(s)[..1];
  }

  /** The seats a meeting type requires, in order; none for an unknown type. */
  function Required(meetingType: string): (seats: seq<Seat>)
    ensures forall s | s in seats :: !IsOptional(s)
  {
    if meetingType == "商机评估会" then
      [ProjectManagerSeat, SalesManagerSeat, SolutionManagerSeat, DeliveryManagerSeat]
    else if meetingType == "投标评估会" || meetingType == "商机、投标评估会" then
      [ProjectManagerSeat, SalesManagerSeat, SolutionManagerSeat, DeliveryManagerSeat, Operations, Finance]
    else if meetingType == "项目交底会" then
      [ProjectManagerSeat, SalesManagerSeat, SolutionManagerSeat, DeliveryManagerSeat, Architecture]
    else []
  }

  /** `required[type].map(role => all[role]).filter(Boolean)`. */
  function RequiredLines(seats: seq<Seat>, roles: map<string, Role>, fin: Option<string>): seq<string> {
    if seats == [] then []
    else
      (match Entry(seats[0], roles, fin) case None => [] case Some(x) => [x])
      + RequiredLines(seats[1..], roles, fin)
  }

  /** The optional seats in the order of the flag table. */
  const OptionalSeats: seq<Seat> := [Cooperation, Purchasing, NetworkSecurity, LegalRisk]

  /** The yes/no answer that switches an optional seat on. */
  predicate Flag(form: Form, seat: Seat) {
    match seat
    case Cooperation => form.cooperation == "是"
    case Purchasing => form.procurement == "是"
    case NetworkSecurity => form.primarySystem == "是"
    case LegalRisk => form.legalRisk == "是"
    case _ => false
  }

  /** The lines the flag loop pushes for the first seats of the table. */
  function Flagged(form: Form, seats: seq<Seat>, roles: map<string, Role>, fin: Option<string>): seq<string> {
    if seats == [] then []
    else
      var last := seats[|seats| - 1];
      Flagged(form, seats[..|seats| - 1], roles, fin)
      + (if Flag(form, last) && Entry(last, roles, fin).Some? then [Entry(last, roles, fin).value] else [])
  }

  /** The leadership hint: an industry, A-class project at a bidding meeting
      with external purchase or cooperation. */
  predicate LeaderHint(form: Form) {
    form.industry == "行业" && form.level == "A类" && Contains(form.meetingType, "投标")
    && (form.procurement == "是" || form.cooperation == "是")
  }

  /** Every line pushed onto `final`, repetitions included. */
  function Candidates(form: Form, roles: map<string, Role>, fin: Option<string>): seq<string> {
    Gathered(Required(form.meetingType), form, roles, fin, LeaderHint(form))
  }

  /** The required seats' lines, the flagged seats' lines, then the hint. */
  function Gathered(seats: seq<Seat>, form: Form, roles: map<string, Role>, fin: Option<string>, hint: bool): seq<string> {
    RequiredLines(seats, roles, fin)
    + Flagged(form, OptionalSeats, roles, fin)
    + (if hint then [HintText] else [])
  }

  /** `[...new Set(list)]`: the first occurrence of each line, in order. */
  function Dedup(s: seq<string>): seq<string> {
    if s == [] then []
    else
      var d := Dedup(s[..|s| - 1]);
      if s[|s| - 1] in d then d else d + [s[|s| - 1]]
  }

  predicate Distinct(s: seq<string>) {
    forall i, j | 0 <= i < j < |s| :: s[i] != s[j]
  }

  /** The lines of the attendee list for the form and the iron-triangle text. */
  function AttendeeLines(form: Form, ironText: string): seq<string> {
    Dedup(Candidates(form, RolesOf(Trim(ironText)), FinanceFor(SafeFloat(form.budget, 0.0), form.procurement, form.level)))
  }

  // ---------------------------------------------------------------------------
  // Removing repetitions

  lemma {:induction false} DedupMembers(s: seq<string>, x: string)
    ensures x in Dedup(s) <==> x in s
  {
    if s != [] {
      DedupMembers(s[..|s| - 1], x);
      SplitLast(s);
    }
  }

  lemma {:induction false} DedupDistinct(s: seq<string>)
    ensures Distinct(Dedup(s))
  {
    if s != [] {
      DedupDistinct(s[..|s| - 1]);
    }
  }

  /** The lines of a prefix come first, in the same order: each line stays
      where it first occurred. */
  lemma {:induction false} DedupPrefix(s: seq<string>, i: nat)
    requires i <= |s|
    ensures Dedup(s[..i]) <= Dedup(s)
    decreases |s| - i
  {
    if i == |s| {
      TakeAll(s);
    } else {
      DedupPrefix(s, i + 1);
      TakeSnoc(s, i);
      assert s[..i + 1][..i] == s[..i];
    }
  }

  /** A list without repetitions is left as it is. */
  lemma {:induction false} DedupDistinctFixed(s: seq<string>)
    requires Distinct(s)
    ensures Dedup(s) == s
  {
    if s != [] {
      SplitLast(s);
      DedupDistinctFixed(s[..|s| - 1]);
      DedupMembers(s[..|s| - 1], s[|s| - 1]);
    }
  }

  // ---------------------------------------------------------------------------
  // Which seats are listed

  lemma {:induction false} RequiredMember(seats: seq<Seat>, roles: map<string, Role>, fin: Option<string>, x: string)
    ensures x in RequiredLines(seats, roles, fin) <==> exists s | s in seats :: Entry(s, roles, fin) == Some(x)
  {
    if seats != [] {
      RequiredMember(seats[1..], roles, fin, x);
      assert forall s | s in seats :: s == seats[0] || s in seats[1..];
    }
  }

  lemma {:induction false} FlaggedMember(form: Form, seats: seq<Seat>, roles: map<string, Role>, fin: Option<string>, x: string)
    ensures x in Flagged(form, seats, roles, fin) <==>
      exists s | s in seats :: Flag(form, s) && Entry(s, roles, fin) == Some(x)
  {
    if seats != [] {
      FlaggedMember(form, seats[..|seats| - 1], roles, fin, x);
      SplitLast(seats);
      assert forall s | s in seats :: s == seats[|seats| - 1] || s in seats[..|seats| - 1];
    }
  }

  /** A listed line that carries a seat's tag is that seat's line, and the
      seat is required or flagged. */
  lemma TaggedSource(seats: seq<Seat>, form: Form, roles: map<string, Role>, fin: Option<string>, hint: bool,
                     x: string, seat: Seat)
    requires FinanceLine(fin) && forall s | s in seats :: !IsOptional(s)
    requires x in Gathered(seats, form, roles, fin, hint) && StartsWith(x, Tag(seat))
    ensures Entry(seat, roles, fin) == Some(x)
    ensures if IsOptional(seat) then Flag(form, seat) else seat in seats
  {
    RequiredMember(seats, roles, fin, x);
    FlaggedMember(form, OptionalSeats, roles, fin, x);
    if x in RequiredLines(seats, roles, fin) {
      var s :| s in seats && Entry(s, roles, fin) == Some(x);
      EntryTag(s, roles, fin);
      TagsDiffer(x, seat, s);
    } else if x in Flagged(form, OptionalSeats, roles, fin) {
      var s :| s in OptionalSeats && Flag(form, s) && Entry(s, roles, fin) == Some(x);
      EntryTag(s, roles, fin);
      TagsDiffer(x, seat, s);
    } else {
      HintUntagged(x, seat);
      HintTagged();
    }
  }

  /** A seat's line is listed exactly when the seat is required (for the
      managers, the operations, architecture and finance seats) or its flag is
      `是` (for the four optional seats). */
  lemma SeatIn(seats: seq<Seat>, form: Form, roles: map<string, Role>, fin: Option<string>, hint: bool, seat: Seat)
    requires FinanceLine(fin) && forall s | s in seats :: !IsOptional(s)
    requires Entry(seat, roles, fin).Some?
    ensures Entry(seat, roles, fin).value in Gathered(seats, form, roles, fin, hint) <==>
      (if IsOptional(seat) then Flag(form, seat) else seat in seats)
  {
    var x := Entry(seat, roles, fin).value;
    EntryTag(seat, roles, fin);
    if IsOptional(seat) && Flag(form, seat) {
      FlaggedMember(form, OptionalSeats, roles, fin, x);
      assert seat in OptionalSeats;
    }
    RequiredMember(seats, roles, fin, x);
    if x in Gathered(seats, form, roles, fin, hint) {
      TaggedSource(seats, form, roles, fin, hint, x, seat);
    }
  }

  /** The hint is listed exactly when it is asked for. */
  lemma HintIn(seats: seq<Seat>, form: Form, roles: map<string, Role>, fin: Option<string>, hint: bool)
    requires FinanceLine(fin) && forall s | s in seats :: !IsOptional(s)
    ensures HintText in Gathered(seats, form, roles, fin, hint) <==> hint
  {
    if HintText in Gathered(seats, form, roles, fin, hint) && !hint {
      RequiredMember(seats, roles, fin, HintText);
      FlaggedMember(form, OptionalSeats, roles, fin, HintText);
      HintTagged();
      var s: Seat;
      if HintText in RequiredLines(seats, roles, fin) {
        s :| s in seats && Entry(s, roles, fin) == Some(HintText);
      } else {
        s :| s in OptionalSeats && Flag(form, s) && Entry(s, roles, fin) == Some(HintText);
      }
      EntryTag(s, roles, fin);
      HintUntagged(HintText, s);
    }
  }

  /** The 刘椰韵 line is listed exactly when finance is required and the
      finance rule picks 刘椰韵. */
  lemma LiuIn(seats: seq<Seat>, form: Form, roles: map<string, Role>, hint: bool, budget: real)
    requires forall s | s in seats :: !IsOptional(s)
    ensures LiuText in Gathered(seats, form, roles, FinanceFor(budget, form.procurement, form.level), hint) <==>
      Finance in seats && budget >= 50.0 && form.procurement == "否" && (form.level == "B类" || form.level == "C类")
  {
    var fin := FinanceFor(budget, form.procurement, form.level);
    if fin == Some(LiuText) {
      SeatIn(seats, form, roles, fin, hint, Finance);
    } else if LiuText in Gathered(seats, form, roles, fin, hint) {
      TagAt(LiuText, Tag(Finance));
      TaggedSource(seats, form, roles, fin, hint, LiuText, Finance);
    }
  }

  /** The 戴亮 line is listed exactly when finance is required and the
      finance rule picks 戴亮. */
  lemma DaiIn(seats: seq<Seat>, form: Form, roles: map<string, Role>, hint: bool, budget: real)
    requires forall s | s in seats :: !IsOptional(s)
    ensures DaiText in Gathered(seats, form, roles, FinanceFor(budget, form.procurement, form.level), hint) <==>
      Finance in seats && budget >= 50.0 && !(form.procurement == "否" && (form.level == "B类" || form.level == "C类"))
  {
    var fin := FinanceFor(budget, form.procurement, form.level);
    assert DaiText != LiuText;
    if fin == Some(DaiText) {
      SeatIn(seats, form, roles, fin, hint, Finance);
    } else if DaiText in Gathered(seats, form, roles, fin, hint) {
      TagAt(DaiText, Tag(Finance));
      TaggedSource(seats, form, roles, fin, hint, DaiText, Finance);
    }
  }

  // ---------------------------------------------------------------------------
  // The rules on the final list

  /** Finance is invited through 刘椰韵 exactly for a bidding meeting, a budget
      of at least 50 and a B- or C-class project without external purchase. */
  lemma FinanceLiu(form: Form, ironText: string)
    ensures LiuText in AttendeeLines(form, ironText) <==>
      Finance in Required(form.meetingType) && SafeFloat(form.budget, 0.0) >= 50.0
      && form.procurement == "否" && (form.level == "B类" || form.level == "C类")
  {
    var roles := RolesOf(Trim(ironText));
    var fin := FinanceFor(SafeFloat(form.budget, 0.0), form.procurement, form.level);
    LiuIn(Required(form.meetingType), form, roles, LeaderHint(form), SafeFloat(form.budget, 0.0));
    DedupMembers(Candidates(form, roles, fin), LiuText);
  }

  /** Otherwise, with a budget of at least 50, finance is invited through 戴亮. */
  lemma FinanceDai(form: Form, ironText: string)
    ensures DaiText in AttendeeLines(form, ironText) <==>
      Finance in Required(form.meetingType) && SafeFloat(form.budget, 0.0) >= 50.0
      && !(form.procurement == "否" && (form.level == "B类" || form.level == "C类"))
  {
    var roles := RolesOf(Trim(ironText));
    var fin := FinanceFor(SafeFloat(form.budget, 0.0), form.procurement, form.level);
    DaiIn(Required(form.meetingType), form, roles, LeaderHint(form), SafeFloat(form.budget, 0.0));
    DedupMembers(Candidates(form, roles, fin), DaiText);
  }

  /** An optional seat is invited exactly when its flag is `是`. */
  lemma OptionalAttendee(form: Form, ironText: string, seat: Seat)
    requires IsOptional(seat)
    ensures Entry(seat, map[], None).value in AttendeeLines(form, ironText) <==> Flag(form, seat)
  {
    var roles := RolesOf(Trim(ironText));
    var fin := FinanceFor(SafeFloat(form.budget, 0.0), form.procurement, form.level);
    OptionalListed(form, roles, fin, seat);
    DedupMembers(Candidates(form, roles, fin), Entry(seat, map[], None).value);
  }

  lemma OptionalListed(form: Form, roles: map<string, Role>, fin: Option<string>, seat: Seat)
    requires IsOptional(seat) && FinanceLine(fin)
    ensures Entry(seat, map[], None).value in Candidates(form, roles, fin) <==> Flag(form, seat)
  {
    assert Entry(seat, roles, fin) == Entry(seat, map[], None);
    SeatIn(Required(form.meetingType), form, roles, fin, LeaderHint(form), seat);
  }

  /** Each of the four managers is invited exactly when the meeting type is
      one of the four known ones. */
  lemma ManagerAttendee(form: Form, ironText: string, seat: Seat)
    requires IsManager(seat)
    ensures RoleString(RolesOf(Trim(ironText)), Label(seat)) in AttendeeLines(form, ironText) <==>
      Required(form.meetingType) != []
  {
    var roles := RolesOf(Trim(ironText));
    var fin := FinanceFor(SafeFloat(form.budget, 0.0), form.procurement, form.level);
    ManagerListed(form, roles, fin, seat);
    DedupMembers(Candidates(form, roles, fin), RoleString(roles, Label(seat)));
  }

  lemma ManagerListed(form: Form, roles: map<string, Role>, fin: Option<string>, seat: Seat)
    requires IsManager(seat) && FinanceLine(fin)
    ensures RoleString(roles, Label(seat)) in Candidates(form, roles, fin) <==> Required(form.meetingType) != []
  {
    assert Entry(seat, roles, fin) == Some(RoleString(roles, Label(seat)));
    SeatIn(Required(form.meetingType), form, roles, fin, LeaderHint(form), seat);
  }

  /** The hint is shown exactly under its condition. */
  lemma HintAttendee(form: Form, ironText: string)
    ensures HintText in AttendeeLines(form, ironText) <==> LeaderHint(form)
  {
    var roles := RolesOf(Trim(ironText));
    var fin := FinanceFor(SafeFloat(form.budget, 0.0), form.procurement, form.level);
    HintIn(Required(form.meetingType), form, roles, fin, LeaderHint(form));
    DedupMembers(Candidates(form, roles, fin), HintText);
  }

  /** No line of the list is repeated. */
  lemma AttendeesDistinct(form: Form, ironText: string)
    ensures Distinct(AttendeeLines(form, ironText))
  {
    var roles := RolesOf(Trim(ironText));
    var fin := FinanceFor(SafeFloat(form.budget, 0.0), form.procurement, form.level);
    DedupDistinct(Candidates(form, roles, fin));
  }

  // ---------------------------------------------------------------------------
  // The update

  /** `updateAttendeesList`: the text of the attendee list, one line each. */
  method UpdateAttendeesList(form: Form, ironText: string) returns (text: string)
    ensures text == Join(AttendeeLines(form, ironText), "\n")
  {
    var roles := CollectRoles(Trim(ironText));
    var budget := SafeFloat(form.budget, 0.0);
    var fin: Option<string> := None;
    if budget >= 50.0 {
      if form.procurement == "否" && (form.level == "B类" || form.level == "C类") {
        fin := Some(LiuText);
      } else {
        fin := Some(DaiText);
      }
    }
    var flagged := FlagLoop(form, OptionalSeats, roles, fin);
    var hint: seq<string> := [];
    if LeaderHint(form) {
      hint := [HintText];
    }
    var final := RequiredLines(Required(form.meetingType), roles, fin) + flagged + hint;
    var lines := DedupLoop(final);
    text := Join(lines, "\n");
  }

  /** The loop over the flag table: each switched-on seat's line, in order. */
  method FlagLoop(form: Form, seats: seq<Seat>, roles: map<string, Role>, fin: Option<string>) returns (lines: seq<string>)
    ensures lines == Flagged(form, seats, roles, fin)
  {
    lines := [];
    var k := 0;
    while k < |seats|
      invariant k <= |seats|
      invariant lines == Flagged(form, seats[..k], roles, fin)
    {
      var seat := seats[k];
      var line := Entry(seat, roles, fin);
      assert seats[..k + 1][..k] == seats[..k];
      if Flag(form, seat) && line.Some? {
        lines := lines + [line.value];
      }
      k := k + 1;
    }
    assert seats[..k] == seats;
  }

  /** `[...new Set(list)]` as the set iteration builds it. */
  method DedupLoop(list: seq<string>) returns (out: seq<string>)
    ensures out == Dedup(list)
  {
    out := [];
    var seen: set<string> := {};
    var i := 0;
    while i < |list|
      invariant i <= |list|
      invariant out == Dedup(list[..i])
      invariant forall x :: x in seen <==> x in out
    {
      assert list[..i + 1][..i] == list[..i];
      if list[i] !in seen {
        out := out + [list[i]];
        seen := seen + {list[i]};
      }
      i := i + 1;
    }
    assert list[..i] == list;
  }
}
