/** The iron-triangle parser: the pattern
      label <colon> name <open paren> department <close paren>
    as the global, dot-all regular expression
      /(.+?)\s*[:：]\s*(.+?)\s*[(（](.+?)[)）]/gs
    finds it, the loop that collects the matches into a role table (a later
    match for a key replaces an earlier one), the summary sentence built from
    the table, and the lead department taken from the FIRST project-manager
    match of the non-global pattern
      /项目经理\s*[:：]\s*(?:.+?)\s*[(（](.+?)[)）]/s

    The matcher below is a dedicated scanner that tries the same alternatives in
    the same order as a backtracking regular-expression engine: the lazy groups
    try their shortest extent first, the greedy white-space runs their longest. */
module Roles {
  import opened Text

  predicate IsColon(c: char) { c == ':' || c == '：' }
  predicate IsOpen(c: char) { c == '(' || c == '（' }
  predicate IsClose(c: char) { c == ')' || c == '）' }

  /** The first position at or after `i` that is not white space. */
  function SkipSpace(t: string, i: nat): (j: nat)
    requires i <= |t|
    ensures i <= j <= |t|
    ensures j == |t| || !IsSpace(t[j])
    decreases |t| - i
  {
    if i < |t| && IsSpace(t[i]) then SkipSpace(t, i + 1) else i
  }

  /** Everything `SkipSpace` skips is white space. */
  lemma {:induction false} SkipSpaceSkipsSpace(t: string, i: nat)
    requires i <= |t|
    ensures forall k | i <= k < SkipSpace(t, i) :: IsSpace(t[k])
    decreases |t| - i
  {
    if i < |t| && IsSpace(t[i]) { SkipSpaceSkipsSpace(t, i + 1); }
  }

  /** What follows the colon: the name is `t[nameStart..nameEnd]`, the department
      `t[open + 1..close]`. */
  datatype Tail = Tail(nameStart: nat, nameEnd: nat, open: nat, close: nat)

  /** One match: the key is `t[start..labelEnd]`; the match ends after `tail.close`. */
  datatype Match = Match(start: nat, labelEnd: nat, colon: nat, tail: Tail)

  /** The shape every match of the tail `\s*(.+?)\s*[(（](.+?)[)）]` after the
      colon at `c` has. */
  predicate IsTail(t: string, c: nat, x: Tail) {
    && c < x.nameStart < x.nameEnd <= x.open && x.open + 2 <= x.close < |t|
    && (forall k | c < k < x.nameStart :: IsSpace(t[k]))
    && (forall k | x.nameEnd <= k < x.open :: IsSpace(t[k]))
    && IsOpen(t[x.open]) && IsClose(t[x.close])
    && (forall k | x.open + 2 <= k < x.close :: !IsClose(t[k]))
  }

  predicate IsMatch(t: string, m: Match) {
    && m.start < m.labelEnd <= m.colon < |t|
    && (forall k | m.labelEnd <= k < m.colon :: IsSpace(t[k]))
    && IsColon(t[m.colon])
    && IsTail(t, m.colon, m.tail)
  }

  /** A match whose tail is the one the search picks after its colon. */
  predicate IsFound(t: string, m: Match) {
    IsMatch(t, m) && AfterColon(t, m.colon) == Some(m.tail)
  }

  /** The positions of a match are in order and inside the text (every match
      `Exec` returns is). */
  predicate InText(t: string, m: Match) {
    m.start <= m.labelEnd <= m.colon < m.tail.nameStart <= m.tail.nameEnd <= m.tail.open < m.tail.close < |t|
  }

  function End(m: Match): nat {
    m.tail.close + 1
  }

  // ---------------------------------------------------------------------------
  // The backtracking search, innermost group first

  /** `(.+?)[)）]` for the department: the first closing parenthesis at or
      after `q`. */
  function CloseFrom(t: string, q: nat): (r: Option<nat>)
    requires q <= |t|
    ensures r.Some? ==> q <= r.value < |t| && IsClose(t[r.value])
    decreases |t| - q
  {
    if q == |t| then None
    else if IsClose(t[q]) then Some(q)
    else CloseFrom(t, q + 1)
  }

  /** `CloseFrom` skips no closing parenthesis. */
  lemma {:induction false} CloseFromFirst(t: string, q: nat)
    requires q <= |t|
    ensures forall k | q <= k < |t| && (CloseFrom(t, q).None? || k < CloseFrom(t, q).value) :: !IsClose(t[k])
    decreases |t| - q
  {
    if q < |t| && !IsClose(t[q]) { CloseFromFirst(t, q + 1); }
  }

  /** The lazy name group starting at `ns`, tried with end `e`, `e + 1`, ...;
      each end must be followed by white space, an opening parenthesis and a
      department. */
  function NameFrom(t: string, ns: nat, e: nat): (r: Option<Tail>)
    requires ns < e <= |t|
    ensures r.Some? ==> r.value.nameStart == ns && e <= r.value.nameEnd <= r.value.open
                        && r.value.open + 2 <= r.value.close < |t|
    decreases |t| - e
  {
    var o := SkipSpace(t, e);
    var found := if o < |t| && IsOpen(t[o]) && o + 2 <= |t| then CloseFrom(t, o + 2) else None;
    if found.Some? then Some(Tail(ns, e, o, found.value))
    else if e < |t| then NameFrom(t, ns, e + 1)
    else None
  }

  /** The greedy white-space run after the colon, given back one character at a
      time: the name starts at `ns`, then `ns - 1`, ..., down to just after the
      colon at `c`. */
  function TailFrom(t: string, c: nat, ns: nat): (r: Option<Tail>)
    requires c < ns <= |t|
    ensures r.Some? ==> c < r.value.nameStart <= ns && r.value.nameStart < r.value.nameEnd <= r.value.open
                        && r.value.open + 2 <= r.value.close < |t|
    decreases ns
  {
    var r := if ns < |t| then NameFrom(t, ns, ns + 1) else None;
    if r.Some? then r
    else if ns > c + 1 then TailFrom(t, c, ns - 1)
    else None
  }

  /** The tail of the pattern after a colon at `c`. */
  function AfterColon(t: string, c: nat): (r: Option<Tail>)
    requires c < |t|
    ensures r.Some? ==> c < r.value.nameStart < r.value.nameEnd <= r.value.open
                        && r.value.open + 2 <= r.value.close < |t|
  {
    TailFrom(t, c, SkipSpace(t, c + 1))
  }

  /** `\s*[:：]` and the tail of the pattern, read from position `a`. */
  function ColonTail(t: string, a: nat): (r: Option<Tail>)
    requires a <= |t|
    ensures r.Some? ==> SkipSpace(t, a) < r.value.nameStart < r.value.nameEnd <= r.value.open
                        && r.value.open + 2 <= r.value.close < |t|
  {
    var c := SkipSpace(t, a);
    if c < |t| && IsColon(t[c]) then AfterColon(t, c) else None
  }

  /** The lazy label group starting at `s`, tried with end `a`, `a + 1`, ... */
  function LabelFrom(t: string, s: nat, a: nat): (r: Option<Match>)
    requires s < a <= |t|
    ensures r.Some? ==> InText(t, r.value) && r.value.start == s && a <= r.value.labelEnd
    decreases |t| - a
  {
    var tail := ColonTail(t, a);
    if tail.Some? then Some(Match(s, a, SkipSpace(t, a), tail.value))
    else if a < |t| then LabelFrom(t, s, a + 1)
    else None
  }

  /** A match that starts exactly at `s`. */
  function MatchAt(t: string, s: nat): (r: Option<Match>)
    requires s <= |t|
    ensures r.Some? ==> InText(t, r.value) && r.value.start == s
  {
    if s < |t| then LabelFrom(t, s, s + 1) else None
  }

  /** `pattern.exec(t)` with `lastIndex == p`: the leftmost match at or after `p`. */
  function Exec(t: string, p: nat): (r: Option<Match>)
    requires p <= |t|
    ensures r.Some? ==> InText(t, r.value) && p <= r.value.start
    decreases |t| - p
  {
    match MatchAt(t, p)
    case Some(m) => Some(m)
    case None => if p < |t| then Exec(t, p + 1) else None
  }

  // ---------------------------------------------------------------------------
  // Every match has the pattern's shape

  lemma {:induction false} NameFromShape(t: string, c: nat, ns: nat, e: nat)
    requires c < ns < e <= |t|
    requires forall k | c < k < ns :: IsSpace(t[k])
    ensures NameFrom(t, ns, e).Some? ==> IsTail(t, c, NameFrom(t, ns, e).value)
    decreases |t| - e
  {
    var o := SkipSpace(t, e);
    SkipSpaceSkipsSpace(t, e);
    if o < |t| && IsOpen(t[o]) && o + 2 <= |t| { CloseFromFirst(t, o + 2); }
    var found := if o < |t| && IsOpen(t[o]) && o + 2 <= |t| then CloseFrom(t, o + 2) else None;
    if found.None? && e < |t| {
      assert NameFrom(t, ns, e) == NameFrom(t, ns, e + 1);
      NameFromShape(t, c, ns, e + 1);
    }
  }

  lemma {:induction false} TailFromShape(t: string, c: nat, ns: nat)
    requires c < ns <= |t|
    requires forall k | c < k < ns :: IsSpace(t[k])
    ensures TailFrom(t, c, ns).Some? ==> IsTail(t, c, TailFrom(t, c, ns).value)
    decreases ns
  {
    var r := if ns < |t| then NameFrom(t, ns, ns + 1) else None;
    if ns < |t| { NameFromShape(t, c, ns, ns + 1); }
    if r.None? && ns > c + 1 {
      assert TailFrom(t, c, ns) == TailFrom(t, c, ns - 1);
      TailFromShape(t, c, ns - 1);
    }
  }

  lemma AfterColonShape(t: string, c: nat)
    requires c < |t|
    ensures AfterColon(t, c).Some? ==> IsTail(t, c, AfterColon(t, c).value)
  {
    SkipSpaceSkipsSpace(t, c + 1);
    TailFromShape(t, c, SkipSpace(t, c + 1));
  }

  lemma {:induction false} LabelFromShape(t: string, s: nat, a: nat)
    requires s < a <= |t|
    ensures LabelFrom(t, s, a).Some? ==> IsFound(t, LabelFrom(t, s, a).value)
    decreases |t| - a
  {
    var c := SkipSpace(t, a);
    SkipSpaceSkipsSpace(t, a);
    if c < |t| && IsColon(t[c]) { AfterColonShape(t, c); }
    if ColonTail(t, a).None? && a < |t| {
      LabelFromShape(t, s, a + 1);
    }
  }

  /** Every result of `exec` has the shape of the pattern. */
  lemma {:induction false} ExecShape(t: string, p: nat)
    requires p <= |t|
    ensures Exec(t, p).Some? ==> IsFound(t, Exec(t, p).value)
    decreases |t| - p
  {
    if p < |t| { LabelFromShape(t, p, p + 1); }
    if MatchAt(t, p).None? && p < |t| {
      ExecShape(t, p + 1);
    }
  }

  // ---------------------------------------------------------------------------
  // Matches follow one another without gaps

  /** Whether the key search succeeds does not depend on where the key starts. */
  lemma {:induction false} LabelFromStart(t: string, s: nat, s': nat, a: nat)
    requires s < a <= |t| && s' < a
    ensures LabelFrom(t, s, a).None? <==> LabelFrom(t, s', a).None?
    decreases |t| - a
  {
    if a < |t| { LabelFromStart(t, s, s', a + 1); }
  }

  /** If no key ending at `a` or later works, none ending later works either. */
  lemma {:induction false} LabelFromLater(t: string, s: nat, a: nat, a': nat)
    requires s < a <= a' <= |t|
    requires LabelFrom(t, s, a).None?
    ensures LabelFrom(t, s, a').None?
    decreases a' - a
  {
    if a < a' {
      LabelFromNext(t, s, a);
      LabelFromLater(t, s, a + 1, a');
    }
  }

  lemma LabelFromNext(t: string, s: nat, a: nat)
    requires s < a < |t|
    requires LabelFrom(t, s, a).None?
    ensures LabelFrom(t, s, a + 1).None?
  {
  }

  /** A match exists at or after `p` only if one starts at `p` itself: every
      `exec` of the global pattern resumes exactly where the previous match
      ended. */
  lemma {:induction false} ExecStartsAtLastIndex(t: string, p: nat)
    requires p <= |t|
    ensures Exec(t, p).Some? ==> Exec(t, p).value.start == p
    decreases |t| - p
  {
    if MatchAt(t, p).None? && p < |t| {
      ExecStartsAtLastIndex(t, p + 1);
      if Exec(t, p + 1).Some? {
        LabelFromLater(t, p, p + 1, p + 2);
        LabelFromStart(t, p, p + 1, p + 2);
        assert false;
      }
    }
  }

  // ---------------------------------------------------------------------------
  // Nothing is missed, and the label is the shortest

  /** The department group finds a closing parenthesis whenever there is one. */
  lemma {:induction false} NameFromFinds(t: string, ns: nat, e: nat, e': nat)
    requires ns < e <= e' <= |t|
    requires SkipSpace(t, e') < |t| && IsOpen(t[SkipSpace(t, e')]) && SkipSpace(t, e') + 2 <= |t|
    requires CloseFrom(t, SkipSpace(t, e') + 2).Some?
    ensures NameFrom(t, ns, e).Some? && NameFrom(t, ns, e).value.nameEnd <= e'
    decreases e' - e
  {
    if e < e' {
      var o := SkipSpace(t, e);
      var found := if o < |t| && IsOpen(t[o]) && o + 2 <= |t| then CloseFrom(t, o + 2) else None;
      if found.None? {
        NameFromFinds(t, ns, e + 1, e');
      }
    }
  }

  /** Giving back white space one character at a time stops at the latest
      name start that works: no earlier than `n0`, whose name search ends by
      `e0`, and at `n0` itself with a name ending by `e0`. */
  lemma {:induction false} TailFromGreatest(t: string, c: nat, ns: nat, n0: nat, e0: nat)
    requires c < n0 <= ns <= |t| && n0 < |t|
    requires NameFrom(t, n0, n0 + 1).Some? && NameFrom(t, n0, n0 + 1).value.nameEnd <= e0
    ensures TailFrom(t, c, ns).Some? && n0 <= TailFrom(t, c, ns).value.nameStart
    ensures TailFrom(t, c, ns).value.nameStart == n0 ==> TailFrom(t, c, ns).value.nameEnd <= e0
    decreases ns
  {
    if ns < |t| && NameFrom(t, ns, ns + 1).Some? {
      TailFromHere(t, c, ns);
    } else {
      TailFromGreatest(t, c, ns - 1, n0, e0);
      TailFromNext(t, c, ns);
    }
  }

  /** A name found from `ns` is the tail. */
  lemma TailFromHere(t: string, c: nat, ns: nat)
    requires c < ns < |t| && NameFrom(t, ns, ns + 1).Some?
    ensures TailFrom(t, c, ns) == NameFrom(t, ns, ns + 1)
  {
  }

  /** Without a name from `ns`, one more white-space character is given back. */
  lemma TailFromNext(t: string, c: nat, ns: nat)
    requires c + 1 < ns <= |t|
    requires ns == |t| || NameFrom(t, ns, ns + 1).None?
    ensures TailFrom(t, c, ns) == TailFrom(t, c, ns - 1)
  {
  }

  lemma OpenIsNotSpace(c: char)
    requires IsOpen(c)
    ensures !IsSpace(c)
  {
  }

  /** Whenever some tail `x` of the pattern follows the colon at `c`, the
      search after that colon finds one, and the one it finds is the backtracking
      choice: its name starts no earlier than `x`'s, and when it starts at the
      same place its name ends no later. */
  lemma AfterColonComplete(t: string, c: nat, x: Tail)
    requires IsTail(t, c, x)
    ensures AfterColon(t, c).Some?
    ensures x.nameStart <= AfterColon(t, c).value.nameStart
    ensures AfterColon(t, c).value.nameStart == x.nameStart ==>
              AfterColon(t, c).value.nameEnd <= x.nameEnd
  {
    NameFromTail(t, c, x);
    var ns := SkipSpace(t, c + 1);
    assert x.nameStart <= ns;
    TailFromGreatest(t, c, ns, x.nameStart, x.nameEnd);
  }

  /** The name search from the name start of a tail finds a name that ends no
      later than the tail's. */
  lemma NameFromTail(t: string, c: nat, x: Tail)
    requires IsTail(t, c, x)
    ensures NameFrom(t, x.nameStart, x.nameStart + 1).Some?
    ensures NameFrom(t, x.nameStart, x.nameStart + 1).value.nameEnd <= x.nameEnd
  {
    OpenIsNotSpace(t[x.open]);
    SkipSpaceReaches(t, x.nameEnd, x.open);
    CloseFromFirst(t, x.open + 2);
    assert CloseFrom(t, x.open + 2).Some?;
    NameFromFinds(t, x.nameStart, x.nameStart + 1, x.nameEnd);
  }

  /** A match with label end `a'` means the label search stops at `a'` or
      earlier. */
  lemma {:induction false} LabelFromFinds(t: string, s: nat, a: nat, a': nat)
    requires s < a <= a' <= |t|
    requires ColonTail(t, a').Some?
    ensures LabelFrom(t, s, a).Some? && LabelFrom(t, s, a).value.labelEnd <= a'
    decreases a' - a
  {
    if a == a' {
      LabelFromStop(t, s, a);
    } else {
      LabelFromFinds(t, s, a + 1, a');
      LabelFromBack(t, s, a);
    }
  }

  /** A search that succeeds from `a + 1` succeeds from `a`, no later. */
  lemma LabelFromBack(t: string, s: nat, a: nat)
    requires s < a < |t| && LabelFrom(t, s, a + 1).Some?
    ensures LabelFrom(t, s, a).Some?
    ensures LabelFrom(t, s, a).value.labelEnd <= LabelFrom(t, s, a + 1).value.labelEnd
  {
    if ColonTail(t, a).Some? {
      LabelFromStop(t, s, a);
    } else {
      LabelFromStep(t, s, a);
    }
  }

  /** The label search stops at the first end the rest of the pattern accepts. */
  lemma LabelFromStop(t: string, s: nat, a: nat)
    requires s < a <= |t| && ColonTail(t, a).Some?
    ensures LabelFrom(t, s, a).Some? && LabelFrom(t, s, a).value.labelEnd == a
  {
  }

  /** An end the rest of the pattern rejects passes the search on to the next. */
  lemma LabelFromStep(t: string, s: nat, a: nat)
    requires s < a < |t| && ColonTail(t, a).None?
    ensures LabelFrom(t, s, a) == LabelFrom(t, s, a + 1)
  {
  }

  /** The label end of every match of the pattern is one the label search
      accepts. */
  lemma MatchColonTail(t: string, m: Match)
    requires IsMatch(t, m)
    ensures ColonTail(t, m.labelEnd).Some?
  {
    ColonIsNotSpace(t[m.colon]);
    SkipSpaceReaches(t, m.labelEnd, m.colon);
    AfterColonComplete(t, m.colon, m.tail);
  }

  /** `exec` misses no match: whenever the pattern matches somewhere at or after
      `lastIndex`, `exec` returns a match starting no later, and one starting at
      the same place has a label no longer (`(.+?)` is lazy). */
  lemma ExecComplete(t: string, p: nat, m: Match)
    requires p <= m.start && IsMatch(t, m)
    ensures Exec(t, p).Some? && Exec(t, p).value.start <= m.start
    ensures Exec(t, p).value.start == m.start ==> Exec(t, p).value.labelEnd <= m.labelEnd
  {
    MatchColonTail(t, m);
    ExecFinds(t, p, m.start, m.labelEnd);
  }

  /** The same, for a label from `s` to `a` that the label search accepts. */
  lemma ExecFinds(t: string, p: nat, s: nat, a: nat)
    requires p <= s < a <= |t| && ColonTail(t, a).Some?
    ensures Exec(t, p).Some? && Exec(t, p).value.start <= s
    ensures Exec(t, p).value.start == s ==> Exec(t, p).value.labelEnd <= a
  {
    MatchAtFinds(t, s, a);
    ExecReaches(t, p, s);
  }

  /** A match starting at `s` means `exec` from `p` finds one no later, and
      that very one when it starts at `s`. */
  lemma {:induction false} ExecReaches(t: string, p: nat, s: nat)
    requires p <= s <= |t| && MatchAt(t, s).Some?
    ensures Exec(t, p).Some? && Exec(t, p).value.start <= s
    ensures Exec(t, p).value.start == s ==> Exec(t, p) == MatchAt(t, s)
    decreases s - p
  {
    if p == s {
      ExecHere(t, p);
    } else {
      ExecReaches(t, p + 1, s);
      var next := Exec(t, p + 1);
      assert next.Some? && next.value.start <= s;
      ExecBack(t, p);
      assert Exec(t, p).value.start <= next.value.start;
    }
  }

  /** `exec` takes a match that starts where it looks. */
  lemma ExecHere(t: string, p: nat)
    requires p <= |t| && MatchAt(t, p).Some?
    ensures Exec(t, p) == MatchAt(t, p)
  {
  }

  /** A match found from `p + 1` means one is found from `p`, no later, and
      the same one when it starts at the same place. */
  lemma ExecBack(t: string, p: nat)
    requires p < |t| && Exec(t, p + 1).Some?
    ensures Exec(t, p).Some? && Exec(t, p).value.start <= Exec(t, p + 1).value.start
    ensures Exec(t, p).value.start == Exec(t, p + 1).value.start ==> Exec(t, p) == Exec(t, p + 1)
  {
    if MatchAt(t, p).None? {
      assert Exec(t, p) == Exec(t, p + 1);
    }
  }

  lemma MatchAtFinds(t: string, s: nat, a: nat)
    requires s < a <= |t| && ColonTail(t, a).Some?
    ensures MatchAt(t, s).Some? && MatchAt(t, s).value.labelEnd <= a
  {
    LabelFromFinds(t, s, s + 1, a);
    var r := LabelFrom(t, s, s + 1);
    assert r.Some? && r.value.labelEnd <= a;
    assert MatchAt(t, s) == r;
  }

  /** The label `exec` picks is the shortest: no match starting at the same
      place has an earlier label end. */
  lemma ExecShortestLabel(t: string, p: nat, m: Match)
    requires p <= |t| && Exec(t, p).Some?
    requires IsMatch(t, m) && m.start == Exec(t, p).value.start
    ensures Exec(t, p).value.labelEnd <= m.labelEnd
  {
    ExecComplete(t, p, m);
  }

  // ---------------------------------------------------------------------------
  // The role table

  datatype Role = Role(name: string, department: string)

  /** `match[1].trim()`. */
  function LabelOf(t: string, m: Match): string {
    if InText(t, m) then Trim(t[m.start..m.labelEnd]) else []
  }

  /** The trimmed text between the parentheses of a tail. */
  function DepartmentOf(t: string, x: Tail): string
    requires x.open < x.close <= |t|
  {
    Trim(t[x.open + 1..x.close])
  }

  /** `{ name: match[2].trim(), department: match[3].trim() }`. */
  function RoleOf(t: string, m: Match): Role {
    if InText(t, m) then Role(Trim(t[m.tail.nameStart..m.tail.nameEnd]), DepartmentOf(t, m.tail))
    else Role([], [])
  }

  /** The successive results of `exec` from `lastIndex == p` until it fails. */
  function MatchesFrom(t: string, p: nat): (ms: seq<Match>)
    requires p <= |t|
    decreases |t| - p
  {
    match Exec(t, p)
    case None => []
    case Some(m) => [m] + MatchesFrom(t, End(m))
  }

  /** The matches tile the text: the first starts at `p`, each later one where
      the previous one ended. */
  lemma {:induction false} MatchesTile(t: string, p: nat)
    requires p <= |t|
    ensures var ms := MatchesFrom(t, p);
            && (ms != [] ==> ms[0].start == p)
            && (forall i | 0 <= i < |ms| - 1 :: ms[i + 1].start == End(ms[i]))
    decreases |t| - p
  {
    ExecStartsAtLastIndex(t, p);
    if Exec(t, p).Some? {
      var m := Exec(t, p).value;
      MatchesTile(t, End(m));
    }
  }

  /** The (trimmed key, role) pair each match contributes. */
  function Entries(t: string, ms: seq<Match>): (es: seq<(string, Role)>)
    ensures |es| == |ms|
    ensures forall i | 0 <= i < |ms| :: es[i] == (LabelOf(t, ms[i]), RoleOf(t, ms[i]))
  {
    if ms == [] then []
    else
      var rest := Entries(t, ms[1..]);
      assert forall i | 1 <= i < |ms| :: ms[1..][i - 1] == ms[i];
      [(LabelOf(t, ms[0]), RoleOf(t, ms[0]))] + rest
  }

  /** `roles[key] = role` for each entry in turn. */
  function Assign(es: seq<(string, Role)>, acc: map<string, Role>): map<string, Role> {
    if es == [] then acc else Assign(es[1..], acc[es[0].0 := es[0].1])
  }

  /** The role table the collecting loop builds from the (trimmed) text. */
  function RolesOf(t: string): map<string, Role> {
    Assign(Entries(t, MatchesFrom(t, 0)), map[])
  }

  /** A key that no entry carries keeps its value, or its absence. */
  lemma {:induction false} AssignUntouched(es: seq<(string, Role)>, acc: map<string, Role>, key: string)
    requires forall i | 0 <= i < |es| :: es[i].0 != key
    ensures key in Assign(es, acc) <==> key in acc
    ensures key in acc ==> Assign(es, acc)[key] == acc[key]
  {
    if es != [] {
      assert es[0].0 != key;
      AssignUntouched(es[1..], acc[es[0].0 := es[0].1], key);
    }
  }

  /** Assigning never removes a key. */
  lemma {:induction false} AssignKeeps(es: seq<(string, Role)>, acc: map<string, Role>, key: string)
    requires key in acc
    ensures key in Assign(es, acc)
  {
    if es != [] {
      AssignKeeps(es[1..], acc[es[0].0 := es[0].1], key);
    }
  }

  /** A key that an entry carries ends up in the table. */
  lemma {:induction false} AssignMatched(es: seq<(string, Role)>, acc: map<string, Role>, i: nat)
    requires i < |es|
    ensures es[i].0 in Assign(es, acc)
  {
    var acc' := acc[es[0].0 := es[0].1];
    if i == 0 {
      AssignKeeps(es[1..], acc', es[0].0);
    } else {
      assert es[1..][i - 1] == es[i];
      AssignMatched(es[1..], acc', i - 1);
    }
  }

  /** The value for a key is the role of the LAST entry that carries it. */
  lemma {:induction false} AssignLastWins(es: seq<(string, Role)>, acc: map<string, Role>, i: nat)
    requires i < |es|
    requires forall j | i < j < |es| :: es[j].0 != es[i].0
    ensures es[i].0 in Assign(es, acc) && Assign(es, acc)[es[i].0] == es[i].1
  {
    var acc' := acc[es[0].0 := es[0].1];
    if i == 0 {
      AssignUntouched(es[1..], acc', es[0].0);
    } else {
      assert es[1..][i - 1] == es[i];
      AssignLastWins(es[1..], acc', i - 1);
    }
  }

  /** Every key in the table of a text is carried by some match. */
  lemma RolesOfKeyMatched(t: string, key: string)
    requires key in RolesOf(t)
    ensures exists i | 0 <= i < |MatchesFrom(t, 0)| :: LabelOf(t, MatchesFrom(t, 0)[i]) == key
  {
    var es := Entries(t, MatchesFrom(t, 0));
    if forall i | 0 <= i < |es| :: es[i].0 != key {
      AssignUntouched(es, map[], key);
      assert false;
    }
  }

  /** Every key a match carries is in the table. */
  lemma RolesOfMatchedKey(t: string, i: nat)
    requires i < |MatchesFrom(t, 0)|
    ensures LabelOf(t, MatchesFrom(t, 0)[i]) in RolesOf(t)
  {
    AssignMatched(Entries(t, MatchesFrom(t, 0)), map[], i);
  }

  /** The entry for a key is the role of the last match that carries it. */
  lemma RolesOfLastWins(t: string, key: string, i: nat)
    requires i < |MatchesFrom(t, 0)| && LabelOf(t, MatchesFrom(t, 0)[i]) == key
    requires forall j | i < j < |MatchesFrom(t, 0)| :: LabelOf(t, MatchesFrom(t, 0)[j]) != key
    ensures key in RolesOf(t) && RolesOf(t)[key] == RoleOf(t, MatchesFrom(t, 0)[i])
  {
    AssignLastWins(Entries(t, MatchesFrom(t, 0)), map[], i);
  }

  /** Every collected match is a result of `exec`, so it has the pattern's shape. */
  lemma {:induction false} MatchesFound(t: string, p: nat)
    requires p <= |t|
    ensures forall i | 0 <= i < |MatchesFrom(t, p)| :: IsFound(t, MatchesFrom(t, p)[i])
    decreases |t| - p
  {
    ExecShape(t, p);
    if Exec(t, p).Some? {
      var m := Exec(t, p).value;
      MatchesFound(t, End(m));
      assert MatchesFrom(t, p) == [m] + MatchesFrom(t, End(m));
    }
  }

  /** `while ((match = pattern.exec(text)) !== null) roles[...] = {...}`. */
  method CollectRoles(t: string) returns (roles: map<string, Role>)
    ensures roles == RolesOf(t)
  {
    roles := map[];
    var p := 0;
    var m := Exec(t, p);
    while m.Some?
      invariant p <= |t|
      invariant m == Exec(t, p)
      invariant Assign(Entries(t, MatchesFrom(t, p)), roles) == RolesOf(t)
      decreases |t| - p
    {
      var found := m.value;
      roles := roles[LabelOf(t, found) := RoleOf(t, found)];
      p := End(found);
      m := Exec(t, p);
    }
  }

  // ---------------------------------------------------------------------------
  // The summary sentence

  const Pending := Role("【待定】", "【待定】")

  /** `roles[role] || {name: "【待定】", department: "【待定】"}`. */
  function Info(roles: map<string, Role>, key: string): (r: Role)
    ensures key !in roles ==> r == Pending
    ensures key in roles ==> r == roles[key]
  {
    if key in roles then roles[key] else Pending
  }

  function RolePhrase(roles: map<string, Role>, key: string): string {
    var info := Info(roles, key);
    key + "是" + info.name + "(" + info.department + ")"
  }

  function RoleSentence(roles: map<string, Role>): string {
    RolePhrase(roles, "项目经理") + "，" + RolePhrase(roles, "销售经理") + "，"
      + RolePhrase(roles, "方案经理") + "，" + RolePhrase(roles, "交付经理") + "。"
  }

  const NotFilled := "【铁三角信息未填写】。"

  /** What `_formatProjectRoles(inputText)` returns. */
  function ProjectRolesText(input: string): string {
    if input == [] then NotFilled else RoleSentence(RolesOf(Trim(input)))
  }

  /** `_formatProjectRoles(inputText)`. */
  method FormatProjectRoles(input: string) returns (text: string)
    ensures text == ProjectRolesText(input)
    ensures input == [] ==> text == NotFilled
    ensures input != [] ==> text == RoleSentence(RolesOf(Trim(input)))
  {
    if input == [] {
      return NotFilled;
    }
    var roles := CollectRoles(Trim(input));
    text := RoleSentence(roles);
  }

  /** A role that no match carries reads "【待定】(【待定】)" in the sentence. */
  lemma RolePhraseUnmatched(t: string, key: string)
    requires forall i | 0 <= i < |MatchesFrom(t, 0)| :: LabelOf(t, MatchesFrom(t, 0)[i]) != key
    ensures RolePhrase(RolesOf(t), key) == key + "是【待定】(【待定】)"
  {
    if key in RolesOf(t) {
      RolesOfKeyMatched(t, key);
      assert false;
    }
  }

  /** A role that matches carry reads the name and department of the last one. */
  lemma RolePhraseMatched(t: string, key: string, i: nat)
    requires i < |MatchesFrom(t, 0)| && LabelOf(t, MatchesFrom(t, 0)[i]) == key
    requires forall j | i < j < |MatchesFrom(t, 0)| :: LabelOf(t, MatchesFrom(t, 0)[j]) != key
    ensures RolePhrase(RolesOf(t), key)
              == key + "是" + RoleOf(t, MatchesFrom(t, 0)[i]).name + "(" + RoleOf(t, MatchesFrom(t, 0)[i]).department + ")"
  {
    RolesOfLastWins(t, key, i);
  }

  // ---------------------------------------------------------------------------
  // The lead department

  const ProjectManager := "项目经理"
  const UnknownDepartment := "【未知事业部】"

  /** The non-global project-manager pattern, anchored at `s`. */
  function ManagerAt(t: string, s: nat): (r: Option<Tail>)
    requires s <= |t|
    ensures r.Some? ==> OccursAt(t, ProjectManager, s)
  {
    if OccursAt(t, ProjectManager, s) then ColonTail(t, s + |ProjectManager|) else None
  }

  /** `text.match(pmPattern)`: the leftmost project-manager match at or after `s`. */
  function ManagerFrom(t: string, s: nat): (r: Option<(nat, Tail)>)
    requires s <= |t|
    ensures r.Some? ==> s <= r.value.0 <= |t| && ManagerAt(t, r.value.0) == Some(r.value.1)
    ensures forall k | s <= k <= |t| && (r.None? || k < r.value.0) :: ManagerAt(t, k).None?
    decreases |t| - s
  {
    match ManagerAt(t, s)
    case Some(x) => Some((s, x))
    case None => if s < |t| then ManagerFrom(t, s + 1) else None
  }

  /** `lead_department`: the trimmed department of the first project-manager
      match, or "【未知事业部】" when there is none. */
  function LeadDepartment(t: string): string {
    var r := ManagerFrom(t, 0);
    if r.None? then UnknownDepartment else DepartmentOf(t, r.value.1)
  }

  /** Without a project-manager match anywhere the lead department is unknown. */
  lemma LeadDepartmentUnknown(t: string)
    requires forall k | 0 <= k <= |t| :: ManagerAt(t, k).None?
    ensures LeadDepartment(t) == UnknownDepartment
  {
  }

  /** Every project-manager match has the shape of the pattern's tail after
      the colon that follows the words 项目经理. */
  lemma ManagerAtShape(t: string, k: nat)
    requires k <= |t| && ManagerAt(t, k).Some?
    ensures IsTail(t, SkipSpace(t, k + |ProjectManager|), ManagerAt(t, k).value)
  {
    AfterColonShape(t, SkipSpace(t, k + |ProjectManager|));
  }

  /** `match` returns the leftmost project-manager match. */
  lemma ManagerFromLeftmost(t: string, k: nat)
    requires k <= |t| && ManagerAt(t, k).Some?
    requires forall k' | 0 <= k' < k :: ManagerAt(t, k').None?
    ensures ManagerFrom(t, 0) == Some((k, ManagerAt(t, k).value))
  {
    var r := ManagerFrom(t, 0);
    if r.None? || r.value.0 > k {
      assert false;
    }
    if r.value.0 < k {
      assert false;
    }
  }

  /** The lead department is the trimmed bracketed department of the LEFTMOST
      project-manager match, whatever later ones say. */
  lemma LeadDepartmentFirst(t: string, k: nat)
    requires k <= |t| && ManagerAt(t, k).Some?
    requires forall k' | 0 <= k' < k :: ManagerAt(t, k').None?
    ensures LeadDepartment(t) == DepartmentOf(t, ManagerAt(t, k).value)
  {
    ManagerFromLeftmost(t, k);
  }

  /** A role-table match whose trimmed key is exactly 项目经理 is also a match of
      the project-manager pattern, so the lead department is found. */
  lemma ManagerRoleGivesLead(t: string, m: Match)
    requires IsFound(t, m) && LabelOf(t, m) == ProjectManager
    ensures ManagerFrom(t, 0).Some?
  {
    var s, e := TrimmedSliceAt(t, m.start, m.labelEnd);
    assert |t[s..e]| == |ProjectManager|;
    assert OccursAt(t, ProjectManager, s);
    assert forall k | e <= k < m.colon :: IsSpace(t[k]) by {
      forall k | e <= k < m.colon ensures IsSpace(t[k]) {
        if k >= m.labelEnd { assert m.labelEnd <= k < m.colon; }
      }
    }
    ColonIsNotSpace(t[m.colon]);
    SkipSpaceReaches(t, e, m.colon);
    assert ManagerAt(t, s) == AfterColon(t, m.colon);
  }

  lemma ColonIsNotSpace(c: char)
    requires IsColon(c)
    ensures !IsSpace(c)
  {
  }

  /** A 项目经理 entry in the role table implies a lead department is found. */
  lemma ManagerEntryGivesLead(t: string)
    requires ProjectManager in RolesOf(t)
    ensures ManagerFrom(t, 0).Some?
  {
    RolesOfKeyMatched(t, ProjectManager);
    var ms := MatchesFrom(t, 0);
    var i :| 0 <= i < |ms| && LabelOf(t, ms[i]) == ProjectManager;
    MatchesFound(t, 0);
    ManagerRoleGivesLead(t, ms[i]);
  }

  lemma {:induction false} SkipSpaceReaches(t: string, i: nat, c: nat)
    requires i <= c < |t| && !IsSpace(t[c])
    requires forall k | i <= k < c :: IsSpace(t[k])
    ensures SkipSpace(t, i) == c
    decreases c - i
  {
    if i < c { SkipSpaceReaches(t, i + 1, c); }
  }
}
