/**
 `Sort.SQL` of pkg/pagination/sort.go: the criteria are filtered by a whitelist and repeated
 columns are dropped.  The clause it prints orders rows exactly as all the whitelisted criteria would.

 `lower` stands for strings.ToLower.
 */
module OrderBy {
  import opened GoStrings
  import opened SortParser

  datatype Clause = Clause(column: string, desc: bool)

  type Whitelist = map<string, string>

  predicate Allowed(c: Criterion, whitelist: Whitelist, lower: string -> string) {
    lower(c.field) in whitelist
  }

  function ToClause(c: Criterion, whitelist: Whitelist, lower: string -> string): Clause
    requires Allowed(c, whitelist, lower)
  {
    Clause(whitelist[lower(c.field)], c.order == Desc)
  }

  /** Every whitelisted criterion, later repeats of a column included. */
  function AllClauses(criteria: seq<Criterion>, whitelist: Whitelist, lower: string -> string): seq<Clause> {
    if criteria == [] then []
    else
      var front, last := AllClauses(criteria[..|criteria| - 1], whitelist, lower), criteria[|criteria| - 1];
      if Allowed(last, whitelist, lower) then front + [ToClause(last, whitelist, lower)] else front
  }

  predicate Mentions(clauses: seq<Clause>, column: string) {
    exists i :: 0 <= i < |clauses| && clauses[i].column == column
  }

  /** The clauses that SQL keeps. */
  function KeptClauses(criteria: seq<Criterion>, whitelist: Whitelist, lower: string -> string): seq<Clause> {
    if criteria == [] then []
    else
      var front, last := KeptClauses(criteria[..|criteria| - 1], whitelist, lower), criteria[|criteria| - 1];
      if Allowed(last, whitelist, lower) && !Mentions(front, whitelist[lower(last.field)])
      then front + [ToClause(last, whitelist, lower)] else front
  }

  function Render(clause: Clause): string {
    clause.column + " " + (if clause.desc then "DESC" else "ASC")
  }

  function RenderAll(clauses: seq<Clause>): seq<string> {
    seq(|clauses|, i requires 0 <= i < |clauses| => Render(clauses[i]))
  }

  /** The source's loop, with its `seen` map as a set. */
  method SQL(criteria: seq<Criterion>, whitelist: Whitelist, lower: string -> string) returns (sql: string)
    ensures sql == Join(RenderAll(KeptClauses(criteria, whitelist, lower)), ", ")
  {
    if |whitelist| == 0 {
      NothingAllowed(criteria, whitelist, lower);
      return "";
    }
    var clauses: seq<string> := [];
    var seen: set<string> := {};
    for n := 0 to |criteria|
      invariant clauses == RenderAll(KeptClauses(criteria[..n], whitelist, lower))
      invariant forall column :: column in seen <==> Mentions(KeptClauses(criteria[..n], whitelist, lower), column)
    {
      assert criteria[..n + 1][..n] == criteria[..n];
      ghost var kept := KeptClauses(criteria[..n], whitelist, lower);
      ghost var kept' := KeptClauses(criteria[..n + 1], whitelist, lower);
      var c := criteria[n];
      var key := lower(c.field);
      if key !in whitelist || whitelist[key] in seen {
        continue;
      }
      var column := whitelist[key];
      seen := seen + {column};
      var dir := "ASC";
      if c.order == Desc {
        dir := "DESC";
      }
      clauses := clauses + [column + " " + dir];
      assert kept' == kept + [Clause(column, c.order == Desc)];
      assert RenderAll(kept') == RenderAll(kept) + [Render(kept'[|kept|])];
      assert kept'[|kept|].column == column;
      forall x ensures x in seen <==> Mentions(kept', x) {
        MentionsMore(kept, kept'[|kept|], x);
      }
    }
    assert criteria[..|criteria|] == criteria;
    sql := Join(clauses, ", ");
  }

  lemma {:induction false} NothingAllowed(criteria: seq<Criterion>, whitelist: Whitelist, lower: string -> string)
    requires |whitelist| == 0
    ensures KeptClauses(criteria, whitelist, lower) == []
  {
    if criteria != [] {
      NothingAllowed(criteria[..|criteria| - 1], whitelist, lower);
    }
  }

  lemma MentionsMore(clauses: seq<Clause>, clause: Clause, column: string)
    ensures Mentions(clauses + [clause], column) <==> Mentions(clauses, column) || clause.column == column
  {
    var more := clauses + [clause];
    assert more[|clauses|] == clause;
    if Mentions(clauses, column) {
      var i :| 0 <= i < |clauses| && clauses[i].column == column;
      assert more[i].column == column;
    }
  }

  // ---- What is kept ----

  /** The position of the first clause on this column. */
  function FirstOn(clauses: seq<Clause>, column: string): (i: nat)
    requires Mentions(clauses, column)
    ensures i < |clauses| && clauses[i].column == column
    ensures forall j :: 0 <= j < i ==> clauses[j].column != column
  {
    if clauses[0].column == column then 0
    else
      assert Mentions(clauses[1..], column) by {
        var i :| 0 <= i < |clauses| && clauses[i].column == column;
        assert clauses[1..][i - 1].column == column;
      }
      1 + FirstOn(clauses[1..], column)
  }

  lemma FirstOnMore(clauses: seq<Clause>, clause: Clause, column: string)
    requires Mentions(clauses + [clause], column)
    ensures FirstOn(clauses + [clause], column)
            == if Mentions(clauses, column) then FirstOn(clauses, column) else |clauses|
  {
    var more := clauses + [clause];
    var i := FirstOn(more, column);
    if i < |clauses| {
      assert more[i] == clauses[i];
    }
    if Mentions(clauses, column) {
      assert more[FirstOn(clauses, column)] == clauses[FirstOn(clauses, column)];
    }
  }

  /** The kept clause at p is the first one on its column. */
  ghost predicate IsFirst(all: seq<Clause>, kept: seq<Clause>, p: nat) {
    p < |kept| ==> Mentions(all, kept[p].column) && kept[p] == all[FirstOn(all, kept[p].column)]
  }

  /** The kept clauses at p and q occur in this order. */
  ghost predicate Rising(all: seq<Clause>, kept: seq<Clause>, p: nat, q: nat) {
    p < q < |kept| ==>
      Mentions(all, kept[p].column) && Mentions(all, kept[q].column)
      && FirstOn(all, kept[p].column) < FirstOn(all, kept[q].column)
  }

  /**
   `kept` is exactly the first clause of each column of `all`, in order of first occurrence: no column
   is lost, none is repeated, and each keeps the direction it was first given.
   */
  ghost predicate FirstOccurrences(all: seq<Clause>, kept: seq<Clause>) {
    && (forall column :: Mentions(all, column) <==> Mentions(kept, column))
    && (forall p {:trigger IsFirst(all, kept, p)} :: IsFirst(all, kept, p))
    && (forall p, q {:trigger Rising(all, kept, p, q)} :: Rising(all, kept, p, q))
  }

  /** A kept clause stays first when one more clause follows. */
  lemma FirstStays(all: seq<Clause>, kept: seq<Clause>, clause: Clause, p: nat)
    requires p < |kept| && IsFirst(all, kept, p)
    ensures IsFirst(all + [clause], kept, p)
    ensures FirstOn(all + [clause], kept[p].column) == FirstOn(all, kept[p].column)
  {
    MentionsMore(all, clause, kept[p].column);
    FirstOnMore(all, clause, kept[p].column);
  }

  lemma RepeatKeepsFirsts(all: seq<Clause>, kept: seq<Clause>, clause: Clause)
    requires FirstOccurrences(all, kept) && Mentions(kept, clause.column)
    ensures FirstOccurrences(all + [clause], kept)
  {
    forall column ensures Mentions(all + [clause], column) <==> Mentions(kept, column) {
      MentionsMore(all, clause, column);
    }
    forall p: nat ensures IsFirst(all + [clause], kept, p) {
      assert IsFirst(all, kept, p);
      if p < |kept| { FirstStays(all, kept, clause, p); }
    }
    forall p: nat, q: nat ensures Rising(all + [clause], kept, p, q) {
      assert IsFirst(all, kept, p) && IsFirst(all, kept, q) && Rising(all, kept, p, q);
      if p < q < |kept| { FirstStays(all, kept, clause, p); FirstStays(all, kept, clause, q); }
    }
  }

  lemma NewKeepsFirsts(all: seq<Clause>, kept: seq<Clause>, clause: Clause)
    requires FirstOccurrences(all, kept) && !Mentions(kept, clause.column)
    ensures FirstOccurrences(all + [clause], kept + [clause])
  {
    var all', kept' := all + [clause], kept + [clause];
    forall column ensures Mentions(all', column) <==> Mentions(kept', column) {
      MentionsMore(all, clause, column);
      MentionsMore(kept, clause, column);
    }
    MentionsMore(all, clause, clause.column);
    FirstOnMore(all, clause, clause.column);
    forall p: nat ensures IsFirst(all', kept', p) {
      assert IsFirst(all, kept, p);
      if p < |kept| { FirstStays(all, kept, clause, p); }
    }
    forall p: nat, q: nat ensures Rising(all', kept', p, q) {
      assert IsFirst(all, kept, p) && IsFirst(all, kept, q) && Rising(all, kept, p, q);
      if p < |kept| { FirstStays(all, kept, clause, p); }
      if q < |kept| { FirstStays(all, kept, clause, q); }
    }
  }

  lemma {:induction false} KeptAreFirstOccurrences(
      criteria: seq<Criterion>, whitelist: Whitelist, lower: string -> string)
    ensures FirstOccurrences(AllClauses(criteria, whitelist, lower), KeptClauses(criteria, whitelist, lower))
  {
    if criteria != [] {
      var front, last := criteria[..|criteria| - 1], criteria[|criteria| - 1];
      KeptAreFirstOccurrences(front, whitelist, lower);
      if Allowed(last, whitelist, lower) {
        var all, kept := AllClauses(front, whitelist, lower), KeptClauses(front, whitelist, lower);
        var clause := ToClause(last, whitelist, lower);
        if Mentions(kept, clause.column) {
          RepeatKeepsFirsts(all, kept, clause);
        } else {
          NewKeepsFirsts(all, kept, clause);
        }
      }
    }
  }

  ghost predicate DrawnFrom(clauses: seq<Clause>, columns: set<string>) {
    forall p :: 0 <= p < |clauses| ==> clauses[p].column in columns
  }

  ghost predicate DistinctColumns(clauses: seq<Clause>) {
    forall p, q :: 0 <= p < q < |clauses| ==> clauses[p].column != clauses[q].column
  }

  lemma {:induction false} KeptAreFromWhitelist(criteria: seq<Criterion>, whitelist: Whitelist, lower: string -> string)
    ensures DrawnFrom(KeptClauses(criteria, whitelist, lower), whitelist.Values)
  {
    if criteria != [] {
      KeptAreFromWhitelist(criteria[..|criteria| - 1], whitelist, lower);
    }
  }

  /** Nothing outside the whitelist reaches the query, and no column is named twice. */
  lemma KeptAreSafe(criteria: seq<Criterion>, whitelist: Whitelist, lower: string -> string)
    ensures DrawnFrom(KeptClauses(criteria, whitelist, lower), whitelist.Values)
    ensures DistinctColumns(KeptClauses(criteria, whitelist, lower))
  {
    KeptAreFromWhitelist(criteria, whitelist, lower);
    KeptAreFirstOccurrences(criteria, whitelist, lower);
    var all, kept := AllClauses(criteria, whitelist, lower), KeptClauses(criteria, whitelist, lower);
    forall p, q | 0 <= p < q < |kept| ensures kept[p].column != kept[q].column {
      assert Rising(all, kept, p, q);
    }
  }

  // ---- What it means ----

  /** Lexicographic comparison; `cmp` compares two rows on one column, and DESC turns its sign. */
  function Compare<R>(cmp: (string, R, R) -> int, clauses: seq<Clause>, a: R, b: R): int {
    if clauses == [] then 0
    else
      var d := cmp(clauses[0].column, a, b);
      if d != 0 then (if clauses[0].desc then -d else d) else Compare(cmp, clauses[1..], a, b)
  }

  lemma {:induction false} CompareMore<R>(cmp: (string, R, R) -> int, clauses: seq<Clause>, clause: Clause, a: R, b: R)
    ensures var first := Compare(cmp, clauses, a, b);
            Compare(cmp, clauses + [clause], a, b) == if first != 0 then first else Compare(cmp, [clause], a, b)
  {
    if clauses != [] {
      assert (clauses + [clause])[1..] == clauses[1..] + [clause];
      CompareMore(cmp, clauses[1..], clause, a, b);
    }
  }

  lemma {:induction false} TieOnEveryColumn<R>(
      cmp: (string, R, R) -> int, clauses: seq<Clause>, column: string, a: R, b: R)
    requires Compare(cmp, clauses, a, b) == 0 && Mentions(clauses, column)
    ensures cmp(column, a, b) == 0
  {
    var i :| 0 <= i < |clauses| && clauses[i].column == column;
    if i > 0 {
      assert clauses[1..][i - 1].column == column;
      TieOnEveryColumn(cmp, clauses[1..], column, a, b);
    }
  }

  /**
   What the client asked for: the first whitelisted criterion on which the rows differ decides, and only
   DESC turns the sign.
   */
  function Wanted<R>(
      cmp: (string, R, R) -> int, criteria: seq<Criterion>, whitelist: Whitelist, lower: string -> string, a: R, b: R)
    : int
  {
    if criteria == [] then 0
    else
      var key, rest := lower(criteria[0].field), Wanted(cmp, criteria[1..], whitelist, lower, a, b);
      if key !in whitelist then rest
      else
        var d := cmp(whitelist[key], a, b);
        if d == 0 then rest else if criteria[0].order == Desc then -d else d
  }

  lemma {:induction false} WantedMore<R>(
      cmp: (string, R, R) -> int, criteria: seq<Criterion>, c: Criterion, whitelist: Whitelist,
      lower: string -> string, a: R, b: R)
    ensures var first := Wanted(cmp, criteria, whitelist, lower, a, b);
            Wanted(cmp, criteria + [c], whitelist, lower, a, b)
            == if first != 0 then first else Wanted(cmp, [c], whitelist, lower, a, b)
  {
    if criteria == [] {
      assert criteria + [c] == [c];
    } else {
      assert (criteria + [c])[1..] == criteria[1..] + [c];
      WantedMore(cmp, criteria[1..], c, whitelist, lower, a, b);
    }
  }

  lemma {:induction false} ClausesMeanWanted<R>(
      cmp: (string, R, R) -> int, criteria: seq<Criterion>, whitelist: Whitelist, lower: string -> string, a: R, b: R)
    ensures Compare(cmp, AllClauses(criteria, whitelist, lower), a, b)
            == Wanted(cmp, criteria, whitelist, lower, a, b)
  {
    if criteria != [] {
      var front, last := criteria[..|criteria| - 1], criteria[|criteria| - 1];
      ClausesMeanWanted(cmp, front, whitelist, lower, a, b);
      assert criteria == front + [last];
      WantedMore(cmp, front, last, whitelist, lower, a, b);
      if Allowed(last, whitelist, lower) {
        CompareMore(cmp, AllClauses(front, whitelist, lower), ToClause(last, whitelist, lower), a, b);
      }
    }
  }

  /** ORDER BY with the kept clauses compares any two rows as the client asked, and as all whitelisted criteria do. */
  lemma OrderByMeaning<R>(
      cmp: (string, R, R) -> int, criteria: seq<Criterion>, whitelist: Whitelist, lower: string -> string, a: R, b: R)
    ensures Compare(cmp, KeptClauses(criteria, whitelist, lower), a, b)
            == Compare(cmp, AllClauses(criteria, whitelist, lower), a, b)
            == Wanted(cmp, criteria, whitelist, lower, a, b)
  {
    RepeatsDoNotMatter(cmp, criteria, whitelist, lower, a, b);
    ClausesMeanWanted(cmp, criteria, whitelist, lower, a, b);
  }

  lemma {:induction false} RepeatsDoNotMatter<R>(
      cmp: (string, R, R) -> int, criteria: seq<Criterion>, whitelist: Whitelist, lower: string -> string, a: R, b: R)
    ensures Compare(cmp, KeptClauses(criteria, whitelist, lower), a, b)
            == Compare(cmp, AllClauses(criteria, whitelist, lower), a, b)
  {
    if criteria != [] {
      var front, last := criteria[..|criteria| - 1], criteria[|criteria| - 1];
      RepeatsDoNotMatter(cmp, front, whitelist, lower, a, b);
      if Allowed(last, whitelist, lower) {
        var clause := ToClause(last, whitelist, lower);
        var all, kept := AllClauses(front, whitelist, lower), KeptClauses(front, whitelist, lower);
        CompareMore(cmp, all, clause, a, b);
        CompareMore(cmp, kept, clause, a, b);
        if Mentions(kept, clause.column) && Compare(cmp, kept, a, b) == 0 {
          TieOnEveryColumn(cmp, kept, clause.column, a, b);
        }
      }
    }
  }

  ghost predicate SortedBy<R>(cmp: (string, R, R) -> int, clauses: seq<Clause>, rows: seq<R>) {
    forall i, j :: 0 <= i < j < |rows| ==> Compare(cmp, clauses, rows[i], rows[j]) <= 0
  }

  /** So a result is a correct answer to the printed query exactly when it is one to the full query. */
  lemma SameSortedResults<R>(
      cmp: (string, R, R) -> int, criteria: seq<Criterion>, whitelist: Whitelist, lower: string -> string, rows: seq<R>)
    ensures SortedBy(cmp, KeptClauses(criteria, whitelist, lower), rows)
            <==> SortedBy(cmp, AllClauses(criteria, whitelist, lower), rows)
    ensures SortedBy(cmp, KeptClauses(criteria, whitelist, lower), rows)
            <==> forall i, j :: 0 <= i < j < |rows| ==> Wanted(cmp, criteria, whitelist, lower, rows[i], rows[j]) <= 0
  {
    forall i, j | 0 <= i < j < |rows|
      ensures Compare(cmp, KeptClauses(criteria, whitelist, lower), rows[i], rows[j])
              == Compare(cmp, AllClauses(criteria, whitelist, lower), rows[i], rows[j])
              == Wanted(cmp, criteria, whitelist, lower, rows[i], rows[j])
    {
      OrderByMeaning(cmp, criteria, whitelist, lower, rows[i], rows[j]);
    }
  }

  // ---- What is printed ----

  /** Criterion n is the first that the whitelist maps to this column. */
  ghost predicate FirstFor(
    criteria: seq<Criterion>, whitelist: Whitelist, lower: string -> string, column: string, n: nat)
  {
    && n < |criteria| && lower(criteria[n].field) in whitelist && whitelist[lower(criteria[n].field)] == column
    && forall m :: 0 <= m < n ==>
         lower(criteria[m].field) !in whitelist || whitelist[lower(criteria[m].field)] != column
  }

  /** Each printed part is a column and the direction of the first criterion for it. */
  lemma {:induction false} PrintedParts(
      criteria: seq<Criterion>, whitelist: Whitelist, lower: string -> string, p: nat) returns (n: nat)
    requires p < |KeptClauses(criteria, whitelist, lower)|
    ensures FirstFor(criteria, whitelist, lower, KeptClauses(criteria, whitelist, lower)[p].column, n)
    ensures RenderAll(KeptClauses(criteria, whitelist, lower))[p]
            == whitelist[lower(criteria[n].field)] + (if criteria[n].order == Desc then " DESC" else " ASC")
  {
    var front := criteria[..|criteria| - 1];
    var kept := KeptClauses(front, whitelist, lower);
    if p < |kept| {
      n := PrintedParts(front, whitelist, lower, p);
    } else {
      n := |front|;
      NoneBefore(front, whitelist, lower, whitelist[lower(criteria[n].field)]);
    }
  }

  /** A column that no kept clause mentions has no criterion. */
  lemma {:induction false} NoneBefore(
      criteria: seq<Criterion>, whitelist: Whitelist, lower: string -> string, column: string)
    requires !Mentions(KeptClauses(criteria, whitelist, lower), column)
    ensures forall m :: 0 <= m < |criteria| ==>
              lower(criteria[m].field) !in whitelist || whitelist[lower(criteria[m].field)] != column
  {
    if criteria != [] {
      var front, last := criteria[..|criteria| - 1], criteria[|criteria| - 1];
      var kept := KeptClauses(front, whitelist, lower);
      if Allowed(last, whitelist, lower) && !Mentions(kept, whitelist[lower(last.field)]) {
        MentionsMore(kept, ToClause(last, whitelist, lower), column);
      }
      NoneBefore(front, whitelist, lower, column);
    }
  }
}
