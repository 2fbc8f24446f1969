/** The mail-recipient list of the e-mail dialog: each checked or chosen
    department row contributes its leader in a first pass and its manager in
    a second, and one set of addresses already taken, shared by both passes,
    keeps every address to its first appearance. */
module Emails {
  import opened Text

  /** A person as `[name, email]`. */
  datatype Contact = Contact(name: string, email: string)

  /** The configured recipients of a department. */
  datatype Recipients = Recipients(leader: Contact, manager: Contact)

  /** A department row: a checkbox row for a department found automatically,
      or a drop-down row added by hand. */
  datatype Row =
    | Checkbox(dept: string, checked: bool)
    | Dropdown(value: string)

  /** `getDeptFromRow`: the department of a checked checkbox, else the chosen
      non-empty drop-down value, else none. */
  function DeptOf(row: Row): (r: Option<string>)
    ensures r.Some? <==> (row.Checkbox? && row.checked) || (row.Dropdown? && row.value != [])
  {
    match row
    case Checkbox(dept, checked) => if checked then Some(dept) else None
    case Dropdown(value) => if value != [] then Some(value) else None
  }

  /** `dept && EMAIL_DATA[dept]`: the recipients of a row's department, when
      it has a non-empty, configured department. */
  function Chosen(row: Row, data: map<string, Recipients>): (r: Option<Recipients>)
    ensures r.Some? <==> DeptOf(row).Some? && DeptOf(row).value != [] && DeptOf(row).value in data
    ensures r.Some? ==> r.value == data[DeptOf(row).value]
  {
    match DeptOf(row)
    case None => None
    case Some(d) => if d != [] && d in data then Some(data[d]) else None
  }

  /** The leader in the first pass, the manager in the second. */
  function Pick(r: Recipients, leader: bool): Contact {
    if leader then r.leader else r.manager
  }

  /** The list so far and the addresses taken. */
  datatype Acc = Acc(list: seq<Contact>, seen: set<string>)

  /** One row: a non-empty address not yet taken is listed and taken. */
  function Visit(c: Contact, acc: Acc): Acc {
    if c.email != [] && c.email !in acc.seen then Acc(acc.list + [c], acc.seen + {c.email}) else acc
  }

  /** One `rows.forEach` pass, starting from `acc`. */
  function Pass(rows: seq<Row>, data: map<string, Recipients>, leader: bool, acc: Acc): Acc {
    if rows == [] then acc
    else
      var before := Pass(rows[..|rows| - 1], data, leader, acc);
      match Chosen(rows[|rows| - 1], data)
      case None => before
      case Some(r) => Visit(Pick(r, leader), before)
  }

  /** The leaders' pass, then the managers' pass with the leaders' addresses
      already taken. */
  function Leaders(rows: seq<Row>, data: map<string, Recipients>): Acc {
    Pass(rows, data, true, Acc([], {}))
  }

  function Managers(rows: seq<Row>, data: map<string, Recipients>): Acc {
    Pass(rows, data, false, Acc([], Leaders(rows, data).seen))
  }

  /** `${name} <${email}>` for each contact. */
  function Rendered(cs: seq<Contact>): (r: seq<string>)
    ensures |r| == |cs|
  {
    if cs == [] then [] else [cs[0].name + " <" + cs[0].email + ">"] + Rendered(cs[1..])
  }

  /** The text of the recipient list. */
  function EmailText(rows: seq<Row>, data: map<string, Recipients>): string {
    var leaders := Leaders(rows, data).list;
    var managers := Managers(rows, data).list;
    Join(Rendered(leaders), "； ")
    + (if |leaders| > 0 && |managers| > 0 then "；\n" else "")
    + Join(Rendered(managers), "； ")
  }

  // ---------------------------------------------------------------------------
  // Properties

  function EmailsOf(cs: seq<Contact>): set<string> {
    set c | c in cs :: c.email
  }

  predicate DistinctEmails(cs: seq<Contact>) {
    forall i, j | 0 <= i < j < |cs| :: cs[i].email != cs[j].email
  }

  /** The list holds distinct, non-empty addresses, and the addresses taken
      are those of the list plus those taken before the pass. */
  predicate Tidy(acc: Acc, before: set<string>) {
    && DistinctEmails(acc.list)
    && (forall c | c in acc.list :: c.email != [] && c.email !in before)
    && acc.seen == before + EmailsOf(acc.list)
  }

  lemma VisitTidy(c: Contact, acc: Acc, before: set<string>)
    requires Tidy(acc, before)
    ensures Tidy(Visit(c, acc), before)
    ensures acc.list <= Visit(c, acc).list
  {
    if c.email != [] && c.email !in acc.seen {
      var l := acc.list + [c];
      assert forall x | x in l :: x in acc.list || x == c;
      assert EmailsOf(l) == EmailsOf(acc.list) + {c.email};
      forall i, j | 0 <= i < j < |l|
        ensures l[i].email != l[j].email
      {
        if j < |acc.list| {
          assert l[i] == acc.list[i] && l[j] == acc.list[j];
        } else {
          assert l[i] in acc.list;
        }
      }
    }
  }

  /** A pass keeps its list tidy and only appends to it. */
  lemma {:induction false} PassTidy(rows: seq<Row>, data: map<string, Recipients>, leader: bool, acc: Acc, before: set<string>)
    requires Tidy(acc, before)
    ensures Tidy(Pass(rows, data, leader, acc), before)
    ensures acc.list <= Pass(rows, data, leader, acc).list
  {
    if rows != [] {
      var prev := Pass(rows[..|rows| - 1], data, leader, acc);
      PassTidy(rows[..|rows| - 1], data, leader, acc, before);
      match Chosen(rows[|rows| - 1], data)
      case None =>
      case Some(r) => VisitTidy(Pick(r, leader), prev, before);
    }
  }

  /** Every non-empty address a chosen row offers is taken by the pass. */
  lemma {:induction false} PassComplete(rows: seq<Row>, data: map<string, Recipients>, leader: bool, acc: Acc, k: nat)
    requires k < |rows| && Chosen(rows[k], data).Some? && Pick(Chosen(rows[k], data).value, leader).email != []
    ensures Pick(Chosen(rows[k], data).value, leader).email in Pass(rows, data, leader, acc).seen
  {
    if k < |rows| - 1 {
      PassComplete(rows[..|rows| - 1], data, leader, acc, k);
      PassSeenGrows(rows[|rows| - 1], data, leader, Pass(rows[..|rows| - 1], data, leader, acc));
    }
  }

  lemma PassSeenGrows(row: Row, data: map<string, Recipients>, leader: bool, acc: Acc)
    ensures acc.seen <= (match Chosen(row, data) case None => acc case Some(r) => Visit(Pick(r, leader), acc)).seen
  {
  }

  /** Every listed contact was offered by a chosen row (or was listed before). */
  lemma {:induction false} PassSound(rows: seq<Row>, data: map<string, Recipients>, leader: bool, acc: Acc, c: Contact)
    requires c in Pass(rows, data, leader, acc).list
    ensures c in acc.list || exists k | 0 <= k < |rows| :: Chosen(rows[k], data).Some? && Pick(Chosen(rows[k], data).value, leader) == c
  {
    if rows != [] {
      var prev := Pass(rows[..|rows| - 1], data, leader, acc);
      if c in prev.list {
        PassSound(rows[..|rows| - 1], data, leader, acc, c);
        if !(c in acc.list) {
          var k :| 0 <= k < |rows| - 1 && Chosen(rows[..|rows| - 1][k], data).Some?
                   && Pick(Chosen(rows[..|rows| - 1][k], data).value, leader) == c;
          assert rows[..|rows| - 1][k] == rows[k];
        }
      } else {
        assert Chosen(rows[|rows| - 1], data).Some? && Pick(Chosen(rows[|rows| - 1], data).value, leader) == c;
      }
    }
  }

  /** No address is listed twice, across leaders and managers together. */
  lemma NoRepeatedAddress(rows: seq<Row>, data: map<string, Recipients>)
    ensures DistinctEmails(Leaders(rows, data).list + Managers(rows, data).list)
  {
    var l := Leaders(rows, data);
    PassTidy(rows, data, true, Acc([], {}), {});
    PassTidy(rows, data, false, Acc([], l.seen), l.seen);
    var m := Managers(rows, data);
    var all := l.list + m.list;
    forall i, j | 0 <= i < j < |all|
      ensures all[i].email != all[j].email
    {
      if j < |l.list| {
        assert all[i] == l.list[i] && all[j] == l.list[j];
      } else if i >= |l.list| {
        assert all[i] == m.list[i - |l.list|] && all[j] == m.list[j - |l.list|];
      } else {
        assert all[i] == l.list[i] && all[j] in m.list;
      }
    }
  }

  /** The leader of every chosen department is listed, by address, among
      the leaders. */
  lemma LeaderListed(rows: seq<Row>, data: map<string, Recipients>, k: nat)
    requires k < |rows| && Chosen(rows[k], data).Some? && Chosen(rows[k], data).value.leader.email != []
    ensures Chosen(rows[k], data).value.leader.email in EmailsOf(Leaders(rows, data).list)
  {
    PassTidy(rows, data, true, Acc([], {}), {});
    PassComplete(rows, data, true, Acc([], {}), k);
  }

  /** The manager of every chosen department is listed, by address, among the
      leaders or the managers. */
  lemma ManagerListed(rows: seq<Row>, data: map<string, Recipients>, k: nat)
    requires k < |rows| && Chosen(rows[k], data).Some? && Chosen(rows[k], data).value.manager.email != []
    ensures Chosen(rows[k], data).value.manager.email in
      EmailsOf(Leaders(rows, data).list) + EmailsOf(Managers(rows, data).list)
  {
    var l := Leaders(rows, data);
    PassTidy(rows, data, true, Acc([], {}), {});
    PassTidy(rows, data, false, Acc([], l.seen), l.seen);
    PassComplete(rows, data, false, Acc([], l.seen), k);
  }

  /** Every listed leader is the leader of a chosen department, and every
      listed manager the manager of one. */
  lemma ListedChosen(rows: seq<Row>, data: map<string, Recipients>, c: Contact)
    ensures c in Leaders(rows, data).list ==>
      exists k | 0 <= k < |rows| :: Chosen(rows[k], data).Some? && Chosen(rows[k], data).value.leader == c
    ensures c in Managers(rows, data).list ==>
      exists k | 0 <= k < |rows| :: Chosen(rows[k], data).Some? && Chosen(rows[k], data).value.manager == c
  {
    if c in Leaders(rows, data).list {
      PassSound(rows, data, true, Acc([], {}), c);
    }
    if c in Managers(rows, data).list {
      PassSound(rows, data, false, Acc([], Leaders(rows, data).seen), c);
    }
  }

  // ---------------------------------------------------------------------------
  // The update

  /** `updateEmailList`: both passes over the rows with one set of taken
      addresses, then the text. */
  method UpdateEmailList(rows: seq<Row>, data: map<string, Recipients>) returns (text: string)
    ensures text == EmailText(rows, data)
  {
    var leaders: seq<Contact> := [];
    var managers: seq<Contact> := [];
    var seenEmails: set<string> := {};
    var i := 0;
    while i < |rows|
      invariant i <= |rows|
      invariant Acc(leaders, seenEmails) == Pass(rows[..i], data, true, Acc([], {}))
    {
      assert rows[..i + 1][..i] == rows[..i];
      var chosen := Chosen(rows[i], data);
      if chosen.Some? {
        var c := chosen.value.leader;
        if c.email != [] && c.email !in seenEmails {
          leaders := leaders + [c];
          seenEmails := seenEmails + {c.email};
        }
      }
      i := i + 1;
    }
    assert rows[..i] == rows;
    ghost var taken := seenEmails;
    i := 0;
    while i < |rows|
      invariant i <= |rows|
      invariant Acc(managers, seenEmails) == Pass(rows[..i], data, false, Acc([], taken))
    {
      assert rows[..i + 1][..i] == rows[..i];
      var chosen := Chosen(rows[i], data);
      if chosen.Some? {
        var c := chosen.value.manager;
        if c.email != [] && c.email !in seenEmails {
          managers := managers + [c];
          seenEmails := seenEmails + {c.email};
        }
      }
      i := i + 1;
    }
    assert rows[..i] == rows;
    text := Join(Rendered(leaders), "； ");
    if |leaders| > 0 && |managers| > 0 {
      text := text + "；\n";
    }
    text := text + Join(Rendered(managers), "； ");
  }
}
