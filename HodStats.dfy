/**
 * The head-of-department dashboard statistics (`loadHodStats`): the parsed
 * project rows grouped and counted by display status, by month and by faculty,
 * plus the two pending-approval counts.
 */
module HodStats {
  import opened Counting

  /**
   * One parsed CSV row; only the three columns the statistics read. An empty
   * string stands for a missing or empty cell (the values JavaScript treats as falsy).
   */
  datatype Row = Row(status: string, month: string, faculty: string)

  /**
   * One entry of a grouped series: `{ name, value }` for the status distribution,
   * `{ month, submissions }` for the monthly series, `{ faculty, reviewed }` for the workload.
   */
  datatype Group = Group(key: string, count: nat)

  /** One entry `{ name, count }` of the pending-approvals series. */
  datatype Pending = Pending(name: string, count: nat)

  /** The object `loadHodStats` resolves to. */
  datatype Stats = Stats(
    projectStatus: seq<Group>,
    pendingApprovals: seq<Pending>,
    monthlySubmissions: seq<Group>,
    facultyWorkload: seq<Group>)

  /** Index of the first `c` in `s`, or `|s|` when there is none. */
  function FirstIndex(s: string, c: char): (k: nat)
    ensures k <= |s|
    ensures forall i :: 0 <= i < k ==> s[i] != c
    ensures k < |s| ==> s[k] == c
  {
    if |s| == 0 || s[0] == c then 0 else 1 + FirstIndex(s[1..], c)
  }

  /** `s.replace(c, d)` with a one-character string pattern: the first `c` only. */
  function ReplaceFirst(s: string, c: char, d: char): (r: string)
    ensures var k := FirstIndex(s, c);
      && |r| == |s|
      && (k == |s| ==> r == s)
      && (k < |s| ==> r == s[..k] + [d] + s[k + 1..])
  {
    if |s| == 0 then s
    else if s[0] == c then [d] + s[1..]
    else
      var rest := ReplaceFirst(s[1..], c, d);
      [s[0]] + rest
  }

  /** `safeStatus(status)`: "Draft" for a missing status, else its first `_` turned into a space. */
  function SafeStatus(status: string): string {
    if status == "" then "Draft" else ReplaceFirst(status, '_', ' ')
  }

  /** `row.month || "Unknown"` and `row.faculty || "Unknown"`. */
  function OrUnknown(s: string): string {
    if s == "" then "Unknown" else s
  }

  function StatusKey(r: Row): string { SafeStatus(r.status) }
  function MonthKey(r: Row): string { OrUnknown(r.month) }
  function FacultyKey(r: Row): string { OrUnknown(r.faculty) }

  /** The grouping key of every row, in row order. */
  function Keys(rows: seq<Row>, key: Row -> string): (r: seq<string>)
    ensures |r| == |rows|
    ensures forall i :: 0 <= i < |rows| ==> r[i] == key(rows[i])
  {
    seq(|rows|, i requires 0 <= i < |rows| => key(rows[i]))
  }

  /** `rows.filter(p).length`. */
  function CountRows(rows: seq<Row>, p: Row -> bool): nat {
    if |rows| == 0 then 0
    else CountRows(rows[..|rows| - 1], p) + (if p(rows[|rows| - 1]) then 1 else 0)
  }

  /** The entries of the accumulator for the listed keys, in the given order. */
  function GroupsOver(order: seq<string>, items: seq<string>): seq<Group> {
    if |order| == 0 then []
    else GroupsOver(order[..|order| - 1], items) + [Group(order[|order| - 1], multiset(items)[order[|order| - 1]])]
  }

  /** `Object.values` of the grouping dictionary: one entry per distinct key, in first-seen order. */
  function Groups(items: seq<string>): seq<Group> {
    GroupsOver(Dedup(items), items)
  }

  function GroupBy(rows: seq<Row>, key: Row -> string): seq<Group> {
    Groups(Keys(rows, key))
  }

  predicate IsSubmitted(r: Row) { r.status == "SUBMITTED" }
  predicate IsFacultyApproved(r: Row) { r.status == "FACULTY_APPROVED" }

  function PendingApprovals(rows: seq<Row>): seq<Pending> {
    [Pending("Faculty Pending", CountRows(rows, IsSubmitted)),
     Pending("HOD Pending", CountRows(rows, IsFacultyApproved))]
  }

  function StatsOf(rows: seq<Row>): Stats {
    Stats(GroupBy(rows, StatusKey), PendingApprovals(rows), GroupBy(rows, MonthKey), GroupBy(rows, FacultyKey))
  }

  /** Sum of the counts of a grouped series. */
  function SumGroups(gs: seq<Group>): nat {
    if |gs| == 0 then 0 else SumGroups(gs[..|gs| - 1]) + gs[|gs| - 1].count
  }

  /** One `data.reduce` over the rows: `acc[k] = acc[k] || {...}; acc[k].n++` for each row's key. */
  method Accumulate(rows: seq<Row>, key: Row -> string) returns (acc: map<string, nat>, order: seq<string>)
    ensures IsTally(acc, order, Keys(rows, key))
  {
    acc, order := map[], [];
    ghost var items := Keys(rows, key);
    ghost var seen: seq<string> := [];
    var i := 0;
    while i < |rows|
      invariant 0 <= i <= |rows|
      invariant seen == items[..i]
      invariant IsTally(acc, order, seen)
    {
      var k := key(rows[i]);
      acc, order := Increment(acc, order, k, seen);
      seen := seen + [k];
      assert items[..i + 1] == items[..i] + [items[i]];
      i := i + 1;
    }
    assert items[..i] == items;
  }

  /** `Object.values(acc)`: the dictionary's entries in key insertion order. */
  method Values(acc: map<string, nat>, order: seq<string>, ghost items: seq<string>) returns (gs: seq<Group>)
    requires forall i :: 0 <= i < |order| ==> order[i] in acc && acc[order[i]] == multiset(items)[order[i]]
    ensures gs == GroupsOver(order, items)
  {
    gs := [];
    var i := 0;
    while i < |order|
      invariant 0 <= i <= |order|
      invariant gs == GroupsOver(order[..i], items)
    {
      assert order[..i + 1][..i] == order[..i];
      gs := gs + [Group(order[i], acc[order[i]])];
      i := i + 1;
    }
    assert order[..i] == order;
  }

  /** One grouped series of `loadHodStats`. */
  method GroupRows(rows: seq<Row>, key: Row -> string) returns (gs: seq<Group>)
    ensures gs == GroupBy(rows, key)
  {
    var acc, order := Accumulate(rows, key);
    TallyLookup(acc, order, Keys(rows, key));
    gs := Values(acc, order, Keys(rows, key));
  }

  /** `loadHodStats()` over the parsed rows. */
  method LoadHodStats(rows: seq<Row>) returns (s: Stats)
    ensures s == StatsOf(rows)
  {
    var status := GroupRows(rows, StatusKey);
    var monthly := GroupRows(rows, MonthKey);
    var faculty := GroupRows(rows, FacultyKey);
    s := Stats(status, PendingApprovals(rows), monthly, faculty);
  }

  /** The entries for the listed keys carry those keys, in order, with their counts, and sum to the keys' count total. */
  lemma {:induction false} GroupsOverFacts(order: seq<string>, items: seq<string>)
    ensures |GroupsOver(order, items)| == |order|
    ensures forall i :: 0 <= i < |order| ==> GroupsOver(order, items)[i] == Group(order[i], multiset(items)[order[i]])
    ensures SumGroups(GroupsOver(order, items)) == SumCounts(order, items)
  {
    if |order| > 0 {
      var init := order[..|order| - 1];
      GroupsOverFacts(init, items);
      var gs := GroupsOver(order, items);
      assert gs[..|gs| - 1] == GroupsOver(init, items);
    }
  }

  /** The entries of `Groups(items)` have distinct keys and counts adding up to the number of items. */
  lemma GroupsTotal(items: seq<string>)
    ensures var gs := Groups(items);
      && SumGroups(gs) == |items|
      && (forall i, j :: 0 <= i < j < |gs| ==> gs[i].key != gs[j].key)
  {
    GroupsOverFacts(Dedup(items), items);
    DedupCountsSum(items);
  }

  /** Each entry of `Groups(items)` holds its key's multiplicity, at least one. */
  lemma GroupsCounts(items: seq<string>)
    ensures var gs := Groups(items);
      forall i :: 0 <= i < |gs| ==> gs[i].count == multiset(items)[gs[i].key] >= 1
  {
    var order := Dedup(items);
    GroupsOverFacts(order, items);
    var gs := Groups(items);
    forall i | 0 <= i < |gs| ensures gs[i].count == multiset(items)[gs[i].key] >= 1 {
      assert order[i] in multiset(items);
    }
  }

  /** Every item has an entry in `Groups(items)`. */
  lemma GroupsCover(items: seq<string>)
    ensures var gs := Groups(items);
      forall i :: 0 <= i < |items| ==> exists j :: 0 <= j < |gs| && gs[j].key == items[i]
  {
    var order := Dedup(items);
    GroupsOverFacts(order, items);
    var gs := Groups(items);
    forall i | 0 <= i < |items| ensures exists j :: 0 <= j < |gs| && gs[j].key == items[i] {
      assert items[i] in order;
      var j :| 0 <= j < |order| && order[j] == items[i];
      assert gs[j].key == items[i];
    }
  }

  /** The number of rows whose grouping key is `k`. */
  function CountKey(rows: seq<Row>, key: Row -> string, k: string): nat {
    if |rows| == 0 then 0
    else CountKey(rows[..|rows| - 1], key, k) + (if key(rows[|rows| - 1]) == k then 1 else 0)
  }

  /**
   * A grouped series has one entry per distinct key, with distinct keys;
   * each entry counts the rows with that key (at least one), every row's key
   * has an entry, and the counts add up to the number of rows.
   */
  lemma GroupByCorrect(rows: seq<Row>, key: Row -> string)
    ensures var gs := GroupBy(rows, key);
      && SumGroups(gs) == |rows|
      && (forall i, j :: 0 <= i < j < |gs| ==> gs[i].key != gs[j].key)
      && (forall i :: 0 <= i < |gs| ==> gs[i].count == CountKey(rows, key, gs[i].key) >= 1)
      && (forall i :: 0 <= i < |rows| ==> exists j :: 0 <= j < |gs| && gs[j].key == key(rows[i]))
  {
    var items := Keys(rows, key);
    GroupsTotal(items);
    GroupsCounts(items);
    GroupsCover(items);
    var gs := Groups(items);
    forall i | 0 <= i < |gs| ensures gs[i].count == CountKey(rows, key, gs[i].key) {
      KeysCount(rows, key, gs[i].key);
    }
  }

  /** A key's multiplicity among the row keys is the number of rows with that key. */
  lemma {:induction false} KeysCount(rows: seq<Row>, key: Row -> string, k: string)
    ensures multiset(Keys(rows, key))[k] == CountKey(rows, key, k)
  {
    if |rows| > 0 {
      var init := rows[..|rows| - 1];
      KeysCount(init, key, k);
      assert Keys(rows, key) == Keys(init, key) + [key(rows[|rows| - 1])];
    }
  }

  /** Replacing the first `c` changes that one position to `d` and keeps every other. */
  lemma ReplaceFirstAt(s: string, c: char, d: char)
    ensures var r := ReplaceFirst(s, c, d); var k := FirstIndex(s, c);
      && (forall i :: 0 <= i < |s| && i != k ==> r[i] == s[i])
      && (k < |s| ==> r[k] == d)
  {
    var r := ReplaceFirst(s, c, d);
    var k := FirstIndex(s, c);
    if k < |s| {
      var tail := s[k + 1..];
      assert r == s[..k] + [d] + tail;
      forall i | 0 <= i < |s| && i != k ensures r[i] == s[i] {
        if i > k {
          assert r[i] == tail[i - k - 1];
        }
      }
    }
  }

  /**
   * `safeStatus` gives "Draft" for a missing status; otherwise a status of the
   * same length in which only the first `_` (if any) became a space, so any
   * later `_` is kept.
   */
  lemma SafeStatusSpec(status: string)
    ensures status == "" ==> SafeStatus(status) == "Draft"
    ensures status != "" ==> var r := SafeStatus(status); var k := FirstIndex(status, '_');
      && |r| == |status|
      && (forall i :: 0 <= i < |status| && i != k ==> r[i] == status[i])
      && (k < |status| ==> r[k] == ' ')
  {
    if status != "" {
      ReplaceFirstAt(status, '_', ' ');
    }
  }

  /** A status without `_` and other than "Draft" is shown as itself, and only by itself. */
  lemma SafeStatusFixed(status: string, shown: string)
    requires shown != "Draft" && shown != ""
    requires forall i :: 0 <= i < |shown| ==> shown[i] != '_' && shown[i] != ' '
    ensures SafeStatus(status) == shown <==> status == shown
  {
    if status != "" {
      SafeStatusSpec(status);
      var k := FirstIndex(status, '_');
      if k < |status| {
        assert SafeStatus(status)[k] == ' ';
        assert k >= |shown| || shown[k] != ' ';
      }
    }
  }

  /** Rows picked by `p` are counted by any `q` that `p` implies. */
  lemma {:induction false} CountRowsMonotone(rows: seq<Row>, p: Row -> bool, q: Row -> bool)
    requires forall r :: p(r) ==> q(r)
    ensures CountRows(rows, p) <= CountRows(rows, q)
  {
    if |rows| > 0 {
      CountRowsMonotone(rows[..|rows| - 1], p, q);
    }
  }

  /** Rows the status distribution shows as "SUBMITTED". */
  predicate ShownSubmitted(r: Row) { StatusKey(r) == "SUBMITTED" }

  /** Rows shown as "FACULTY APPROVED". */
  predicate ShownFacultyApproved(r: Row) { StatusKey(r) == "FACULTY APPROVED" }

  /** Rows whose raw status already reads "FACULTY APPROVED", with a space. */
  predicate ReadsFacultyApproved(r: Row) { r.status == "FACULTY APPROVED" }

  /**
   * The pending series has exactly two entries, "Faculty Pending" then "HOD
   * Pending"; the faculty count is the number of rows the status distribution
   * shows as "SUBMITTED", and the HOD count together with the rows whose raw
   * status already reads "FACULTY APPROVED" is the number it shows so.
   */
  lemma PendingCounts(rows: seq<Row>)
    ensures var p := PendingApprovals(rows);
      && |p| == 2 && p[0].name == "Faculty Pending" && p[1].name == "HOD Pending"
      && p[0].count == CountKey(rows, StatusKey, "SUBMITTED")
      && p[1].count + CountRows(rows, ReadsFacultyApproved) == CountKey(rows, StatusKey, "FACULTY APPROVED")
  {
    forall r: Row ensures IsSubmitted(r) <==> ShownSubmitted(r) {
      SubmittedShown(r);
    }
    CountRowsEqual(rows, IsSubmitted, ShownSubmitted);
    forall r: Row ensures ShownFacultyApproved(r) <==> IsFacultyApproved(r) || ReadsFacultyApproved(r) {
      FacultyApprovedShownExactly(r);
    }
    CountRowsSplit(rows, ShownFacultyApproved, IsFacultyApproved, ReadsFacultyApproved);
    CountKeyIsCountRows(rows, "SUBMITTED");
    CountKeyIsCountRows(rows, "FACULTY APPROVED");
  }

  /** Exactly the rows with raw status "SUBMITTED" are shown as "SUBMITTED". */
  lemma SubmittedShown(r: Row)
    ensures IsSubmitted(r) <==> ShownSubmitted(r)
  {
    SafeStatusFixed(r.status, "SUBMITTED");
  }

  /** "FACULTY_APPROVED" is shown as "FACULTY APPROVED". */
  lemma FacultyApprovedShown(r: Row)
    requires IsFacultyApproved(r)
    ensures ShownFacultyApproved(r)
  {
    FacultyApprovedShownExactly(r);
  }

  /** Only the raw statuses "FACULTY_APPROVED" and "FACULTY APPROVED" are shown as "FACULTY APPROVED". */
  lemma FacultyApprovedShownExactly(r: Row)
    ensures ShownFacultyApproved(r) <==> IsFacultyApproved(r) || ReadsFacultyApproved(r)
  {
    ShownAsExactly(r.status, "FACULTY APPROVED", "FACULTY_APPROVED", 7);
  }

  /**
   * A displayed status with a single space, at `m`, and no `_` comes from exactly
   * two raw statuses: itself and its spelling `u` with `_` at `m`.
   */
  lemma ShownAsExactly(s: string, shown: string, u: string, m: nat)
    requires m < |shown| && shown[m] == ' ' && shown != "Draft"
    requires forall i :: 0 <= i < |shown| ==> shown[i] != '_' && (i != m ==> shown[i] != ' ')
    requires |u| == |shown| && u[m] == '_'
    requires forall i :: 0 <= i < |u| && i != m ==> u[i] == shown[i]
    ensures SafeStatus(s) == shown <==> s == u || s == shown
  {
    if SafeStatus(s) == shown {
      assert s != "";
      SafeStatusSpec(s);
      var k := FirstIndex(s, '_');
      if k < |s| {
        assert shown[k] == ' ';
        assert s == u;
      } else {
        assert s == shown;
      }
    }
    if s == shown {
      assert FirstIndex(s, '_') == |s|;
    }
    if s == u {
      FirstIndexIs(u, '_', m);
      SafeStatusSpec(u);
      assert SafeStatus(u) == shown;
    }
  }

  /** The first `c` of `s` is at `k` when `s[k]` is one and none comes before. */
  lemma {:induction false} FirstIndexIs(s: string, c: char, k: nat)
    requires k < |s| && s[k] == c
    requires forall i :: 0 <= i < k ==> s[i] != c
    ensures FirstIndex(s, c) == k
  {
    if k > 0 {
      FirstIndexIs(s[1..], c, k - 1);
    }
  }

  lemma {:induction false} CountKeyIsCountRows(rows: seq<Row>, k: string)
    ensures k == "SUBMITTED" ==> CountKey(rows, StatusKey, k) == CountRows(rows, ShownSubmitted)
    ensures k == "FACULTY APPROVED" ==> CountKey(rows, StatusKey, k) == CountRows(rows, ShownFacultyApproved)
  {
    if |rows| > 0 {
      CountKeyIsCountRows(rows[..|rows| - 1], k);
    }
  }

  /**
   * The entry of a series for key `k`, if any, counts the rows with key `k`;
   * when there is no such entry, no row has key `k`.
   */
  lemma KeyEntry(rows: seq<Row>, key: Row -> string, k: string)
    ensures var gs := GroupBy(rows, key);
      && (forall j :: 0 <= j < |gs| && gs[j].key == k ==> gs[j].count == CountKey(rows, key, k))
      && ((forall j :: 0 <= j < |gs| ==> gs[j].key != k) ==> CountKey(rows, key, k) == 0)
  {
    GroupByCorrect(rows, key);
    if forall j :: 0 <= j < |GroupBy(rows, key)| ==> GroupBy(rows, key)[j].key != k {
      NoKeyCounted(rows, key, k);
    }
  }

  /** Every row's key has an entry that counts all rows with that key. */
  lemma RowEntry(rows: seq<Row>, key: Row -> string, i: nat)
    requires i < |rows|
    ensures var gs := GroupBy(rows, key);
      exists j :: 0 <= j < |gs| && gs[j].key == key(rows[i]) && gs[j].count == CountKey(rows, key, key(rows[i]))
  {
    GroupByCorrect(rows, key);
  }

  /**
   * The pending counts agree with the status distribution: the faculty count is
   * that of its "SUBMITTED" entry, the HOD count plus the rows already reading
   * "FACULTY APPROVED" that of its "FACULTY APPROVED" entry, and each is 0 when
   * the entry is absent.
   */
  lemma PendingMatchesDistribution(rows: seq<Row>)
    ensures var p := PendingApprovals(rows); var gs := GroupBy(rows, StatusKey);
      && (forall j :: 0 <= j < |gs| && gs[j].key == "SUBMITTED" ==> p[0].count == gs[j].count)
      && ((forall j :: 0 <= j < |gs| ==> gs[j].key != "SUBMITTED") ==> p[0].count == 0)
      && (forall j :: 0 <= j < |gs| && gs[j].key == "FACULTY APPROVED" ==>
            p[1].count + CountRows(rows, ReadsFacultyApproved) == gs[j].count)
      && ((forall j :: 0 <= j < |gs| ==> gs[j].key != "FACULTY APPROVED") ==> p[1].count == 0)
  {
    PendingCounts(rows);
    KeyEntry(rows, StatusKey, "SUBMITTED");
    KeyEntry(rows, StatusKey, "FACULTY APPROVED");
  }

  /** A key no row has counts nothing. */
  lemma {:induction false} NoKeyCounted(rows: seq<Row>, key: Row -> string, k: string)
    requires forall i :: 0 <= i < |rows| ==> key(rows[i]) != k
    ensures CountKey(rows, key, k) == 0
  {
    if |rows| > 0 {
      NoKeyCounted(rows[..|rows| - 1], key, k);
    }
  }

  /** A predicate that is the disjoint union of two others counts the rows of both. */
  lemma {:induction false} CountRowsSplit(rows: seq<Row>, u: Row -> bool, p: Row -> bool, q: Row -> bool)
    requires forall r :: u(r) <==> p(r) || q(r)
    requires forall r :: !(p(r) && q(r))
    ensures CountRows(rows, u) == CountRows(rows, p) + CountRows(rows, q)
  {
    if |rows| > 0 {
      CountRowsSplit(rows[..|rows| - 1], u, p, q);
    }
  }

  /** Two equivalent predicates count the same rows. */
  lemma CountRowsEqual(rows: seq<Row>, p: Row -> bool, q: Row -> bool)
    requires forall r :: p(r) <==> q(r)
    ensures CountRows(rows, p) == CountRows(rows, q)
  {
    CountRowsMonotone(rows, p, q);
    CountRowsMonotone(rows, q, p);
  }

  /** Every series of `loadHodStats` apart from the pending one accounts for each row exactly once. */
  lemma SeriesTotals(rows: seq<Row>)
    ensures var s := StatsOf(rows);
      && SumGroups(s.projectStatus) == |rows|
      && SumGroups(s.monthlySubmissions) == |rows|
      && SumGroups(s.facultyWorkload) == |rows|
  {
    GroupsTotal(Keys(rows, StatusKey));
    GroupsTotal(Keys(rows, MonthKey));
    GroupsTotal(Keys(rows, FacultyKey));
  }

  /** A row without a month or faculty name, or naming "Unknown" itself. */
  predicate NoMonth(r: Row) { r.month == "" || r.month == "Unknown" }
  predicate NoFaculty(r: Row) { r.faculty == "" || r.faculty == "Unknown" }

  lemma {:induction false} UnknownCount(rows: seq<Row>)
    ensures CountKey(rows, MonthKey, "Unknown") == CountRows(rows, NoMonth)
    ensures CountKey(rows, FacultyKey, "Unknown") == CountRows(rows, NoFaculty)
  {
    if |rows| > 0 {
      UnknownCount(rows[..|rows| - 1]);
    }
  }

  /** A row without status shows up in the "Draft" entry of the status distribution. */
  lemma DraftBucket(rows: seq<Row>, i: nat)
    requires i < |rows| && rows[i].status == ""
    ensures var gs := GroupBy(rows, StatusKey);
      exists j :: 0 <= j < |gs| && gs[j].key == "Draft"
  {
    RowEntry(rows, StatusKey, i);
  }

  /**
   * A row with no month (no faculty) shows up in an "Unknown" entry that counts
   * exactly the rows with no month (no faculty) or with "Unknown" written in.
   */
  lemma UnknownBucket(rows: seq<Row>, i: nat)
    requires i < |rows|
    ensures rows[i].month == "" ==> var gs := GroupBy(rows, MonthKey);
      exists j :: 0 <= j < |gs| && gs[j].key == "Unknown" && gs[j].count == CountRows(rows, NoMonth)
    ensures rows[i].faculty == "" ==> var gs := GroupBy(rows, FacultyKey);
      exists j :: 0 <= j < |gs| && gs[j].key == "Unknown" && gs[j].count == CountRows(rows, NoFaculty)
  {
    RowEntry(rows, MonthKey, i);
    RowEntry(rows, FacultyKey, i);
    UnknownCount(rows);
  }
}
