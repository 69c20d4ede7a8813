/**
 * remind/db.py: the `reminders` table and the operations of `Database`.
 * The table is a sequence of rows in rowid order; every query returns its
 * rows ascending by due time (ties by id, the order of SQLite's scan) and
 * converts each with `to_pydantic`, which validates the text length.
 */
module Store {
  import opened Wrappers
  import opened Calendar
  import opened Priority
  import opened RemindModels
  import opened Text
  import opened SqlLike

  /** A table row carries the same columns as the `Reminder` model, unvalidated. */
  type Row = Reminder

  /** The table: positive ids, strictly increasing in storage order. */
  datatype Table = Table(rows: seq<Row>)

  predicate ValidTable(t: Table) {
    && (forall i :: 0 <= i < |t.rows| ==> t.rows[i].id >= 1)
    && (forall i, j :: 0 <= i < j < |t.rows| ==> t.rows[i].id < t.rows[j].id)
  }

  const EmptyTable: Table := Table([])

  predicate HasId(t: Table, id: int) {
    exists i :: 0 <= i < |t.rows| && t.rows[i].id == id
  }

  /** The largest id in use, or 0 for an empty table. */
  function MaxId(t: Table): (m: int)
    requires ValidTable(t)
    ensures m >= 0
    ensures forall i :: 0 <= i < |t.rows| ==> t.rows[i].id <= m
    ensures |t.rows| == 0 ==> m == 0
    ensures |t.rows| > 0 ==> HasId(t, m)
  {
    if |t.rows| == 0 then 0 else t.rows[|t.rows| - 1].id
  }

  /** The position of the row with `id`. */
  function Find(t: Table, id: int): (k: Option<nat>)
    ensures k.Some? ==> k.value < |t.rows| && t.rows[k.value].id == id
    ensures k.None? <==> !HasId(t, id)
    decreases |t.rows|
  {
    if |t.rows| == 0 then None
    else if t.rows[|t.rows| - 1].id == id then Some(|t.rows| - 1)
    else
      var k := Find(Table(t.rows[..|t.rows| - 1]), id);
      assert forall i :: 0 <= i < |t.rows| - 1 ==> t.rows[..|t.rows| - 1][i] == t.rows[i];
      k
  }

  /** `to_pydantic()`: the row's values go through the model's validation. */
  function ToModel(row: Row): (r: Result<Reminder, ValidationError>)
    ensures r.Ok? <==> ValidText(row.text)
    ensures r.Ok? ==> r.value == row
  {
    MakeReminder(row.id, row.text, row.dueAt, row.createdAt, row.doneAt, row.priority, row.project, row.aiText)
  }

  /** `[r.to_pydantic() for r in rows]`: the first invalid row's error escapes. */
  function ToModels(rows: seq<Row>): (r: Result<seq<Reminder>, ValidationError>)
    ensures r.Ok? <==> forall i :: 0 <= i < |rows| ==> ValidText(rows[i].text)
    ensures r.Ok? ==> r.value == rows
  {
    if |rows| == 0 then Ok([])
    else
      var first :- ToModel(rows[0]);
      var rest :- ToModels(rows[1..]);
      assert rows == [rows[0]] + rows[1..];
      Ok([first] + rest)
  }

  // ---------------------------------------------------------------------------
  // Ordering

  /** `ORDER BY due_at`, ties by id. */
  predicate Before(a: Row, b: Row) {
    a.dueAt < b.dueAt || (a.dueAt == b.dueAt && a.id < b.id)
  }

  predicate Ascending(s: seq<Row>) {
    forall i, j :: 0 <= i < j < |s| ==> Before(s[i], s[j])
  }

  predicate NoRepeats(s: seq<Row>) {
    forall i, j :: 0 <= i < j < |s| ==> s[i] != s[j]
  }

  predicate DistinctIds(s: seq<Row>) {
    forall i, j :: 0 <= i < j < |s| ==> s[i].id != s[j].id
  }

  /** Inserts `x` at its place in an ascending sequence. */
  function Insert(x: Row, s: seq<Row>): (r: seq<Row>)
    requires Ascending(s)
    requires forall i :: 0 <= i < |s| ==> s[i].id != x.id
    ensures Ascending(r)
    ensures multiset(r) == multiset(s) + multiset{x}
  {
    if |s| == 0 then [x]
    else if Before(x, s[0]) then
      InsertFront(x, s);
      [x] + s
    else
      var rest := Insert(x, s[1..]);
      assert s == [s[0]] + s[1..];
      InsertHead(x, s, rest);
      [s[0]] + rest
  }

  /** A row due before the head of an ascending sequence goes in front of it. */
  lemma InsertFront(x: Row, s: seq<Row>)
    requires |s| > 0 && Ascending(s) && Before(x, s[0])
    ensures Ascending([x] + s)
    ensures multiset([x] + s) == multiset(s) + multiset{x}
  {
    var r := [x] + s;
    forall i, j | 0 <= i < j < |r| ensures Before(r[i], r[j]) {
      assert r[j] == s[j - 1];
      if i > 0 {
        assert r[i] == s[i - 1];
      }
    }
  }

  /** The head of `s` stays in front of whatever `x` was inserted into its tail. */
  lemma InsertHead(x: Row, s: seq<Row>, rest: seq<Row>)
    requires |s| > 0 && Ascending(s) && s[0].id != x.id && !Before(x, s[0])
    requires Ascending(rest) && multiset(rest) == multiset(s[1..]) + multiset{x}
    ensures Ascending([s[0]] + rest)
  {
    var r := [s[0]] + rest;
    forall j | 0 < j < |r| ensures Before(r[0], r[j]) {
      var y := rest[j - 1];
      assert y in multiset(rest);
      if y != x {
        assert y in s[1..];
        var k :| 0 <= k < |s[1..]| && s[1..][k] == y;
        assert s[k + 1] == y;
      }
    }
  }

  /** Sorts rows with distinct ids into due order. */
  function SortRows(s: seq<Row>): (r: seq<Row>)
    requires DistinctIds(s)
    ensures Ascending(r)
    ensures multiset(r) == multiset(s)
  {
    if |s| == 0 then []
    else
      DistinctTail(s);
      var rest := SortRows(s[1..]);
      PermutationAvoidsId(s[1..], rest, s[0].id);
      HeadTailMultiset(s);
      Insert(s[0], rest)
  }

  /** The tail of rows with distinct ids has distinct ids, none of them the head's. */
  lemma DistinctTail(s: seq<Row>)
    requires |s| > 0 && DistinctIds(s)
    ensures DistinctIds(s[1..])
    ensures forall i :: 0 <= i < |s[1..]| ==> s[1..][i].id != s[0].id
  {
  }

  lemma HeadTailMultiset(s: seq<Row>)
    requires |s| > 0
    ensures multiset(s) == multiset(s[1..]) + multiset{s[0]}
  {
    assert s == [s[0]] + s[1..];
  }

  /** A permutation of rows that avoid an id avoids it too. */
  lemma PermutationAvoidsId(s: seq<Row>, r: seq<Row>, id: int)
    requires multiset(r) == multiset(s)
    requires forall i :: 0 <= i < |s| ==> s[i].id != id
    ensures forall i :: 0 <= i < |r| ==> r[i].id != id
  {
    forall i | 0 <= i < |r| ensures r[i].id != id {
      assert r[i] in multiset(s);
      var k :| 0 <= k < |s| && s[k] == r[i];
    }
  }

  /** The row-selecting `WHERE` clauses of the queries. */
  datatype Selection =
    | All                      // list_all_reminders
    | Active                   // list_active_reminders: done_at IS NULL
    | DueBy(now: Instant)      // get_due_reminders: done_at IS NULL AND due_at <= now
    | Matching(query: string)  // search_reminders: text ILIKE '%query%'

  predicate Selects(sel: Selection, row: Row) {
    match sel
    case All => true
    case Active => row.doneAt.None?
    case DueBy(now) => row.doneAt.None? && row.dueAt <= now
    case Matching(q) => ILike(row.text, "%" + q + "%")
  }

  function Filter(s: seq<Row>, sel: Selection): (r: seq<Row>)
    ensures forall y :: y in r <==> y in s && Selects(sel, y)
    ensures DistinctIds(s) ==> DistinctIds(r)
  {
    if |s| == 0 then []
    else
      var rest := Filter(s[1..], sel);
      assert forall y :: y in s <==> y == s[0] || y in s[1..];
      if Selects(sel, s[0]) then
        assert forall j :: 0 <= j < |rest| ==> rest[j] in s[1..];
        [s[0]] + rest
      else rest
  }

  /** The rows a query returns: exactly the selected rows, in due order. */
  function Select(t: Table, sel: Selection): (r: seq<Row>)
    requires ValidTable(t)
    ensures Ascending(r)
    ensures forall y :: y in r <==> y in t.rows && Selects(sel, y)
  {
    var f := Filter(t.rows, sel);
    var r := SortRows(f);
    assert forall y :: y in r <==> y in multiset(f);
    r
  }

  /** A query: select, order, convert. */
  function Query(t: Table, sel: Selection): (r: Result<seq<Reminder>, ValidationError>)
    requires ValidTable(t)
    ensures r.Ok? ==> Ascending(r.value)
    ensures r.Ok? ==> forall y :: y in r.value <==> y in t.rows && Selects(sel, y)
    ensures r.Err? <==> exists y :: y in t.rows && Selects(sel, y) && !ValidText(y.text)
  {
    var s := Select(t, sel);
    assert forall i :: 0 <= i < |s| ==> s[i] in s;
    ToModels(s)
  }

  // ---------------------------------------------------------------------------
  // Operations

  /**
   * `add_reminder`: the row gets the next rowid and is committed before it
   * is converted, so text the model rejects is stored all the same and the
   * call fails.
   */
  function Add(t: Table, text: string, dueAt: Instant, priority: Priority, project: Option<string>,
               aiText: Option<string>, now: Instant): (out: (Table, Result<Reminder, ValidationError>))
    requires ValidTable(t)
    ensures ValidTable(out.0)
    ensures |out.0.rows| == |t.rows| + 1 && out.0.rows[..|t.rows|] == t.rows
    ensures var row := out.0.rows[|t.rows|];
            && row.id >= 1
            && (forall i :: 0 <= i < |t.rows| ==> t.rows[i].id < row.id)
            && row == Reminder(row.id, text, dueAt, now, None, priority, project, aiText)
    ensures out.1.Ok? <==> ValidText(text)
    ensures out.1.Ok? ==> out.1.value == out.0.rows[|t.rows|]
  {
    var row := Reminder(MaxId(t) + 1, text, dueAt, now, None, priority, project, aiText);
    var t' := Table(t.rows + [row]);
    assert t'.rows[..|t.rows|] == t.rows;
    (t', ToModel(row))
  }

  /** `get_reminder(id)`. */
  function Get(t: Table, id: int): (r: Result<Option<Reminder>, ValidationError>)
    ensures r == Ok(None) <==> !HasId(t, id)
    ensures r.Ok? && r.value.Some? ==> r.value.value in t.rows && r.value.value.id == id
    ensures r.Err? ==> exists i :: 0 <= i < |t.rows| && t.rows[i].id == id && !ValidText(t.rows[i].text)
  {
    match Find(t, id)
    case None => Ok(None)
    case Some(k) =>
      var m :- ToModel(t.rows[k]);
      Ok(Some(m))
  }

  /** `list_active_reminders()`. */
  function ListActive(t: Table): (r: Result<seq<Reminder>, ValidationError>)
    requires ValidTable(t)
    ensures r.Ok? ==> Ascending(r.value)
    ensures r.Ok? ==> forall y :: y in r.value <==> y in t.rows && y.doneAt.None?
    ensures r.Err? <==> exists y :: y in t.rows && y.doneAt.None? && !ValidText(y.text)
  {
    Query(t, Active)
  }

  /** `list_all_reminders()`. */
  function ListAll(t: Table): (r: Result<seq<Reminder>, ValidationError>)
    requires ValidTable(t)
    ensures r.Ok? ==> Ascending(r.value) && |r.value| == |t.rows|
    ensures r.Ok? ==> forall y :: y in r.value <==> y in t.rows
    ensures r.Err? <==> exists i :: 0 <= i < |t.rows| && !ValidText(t.rows[i].text)
  {
    var s := Select(t, All);
    assert forall i :: 0 <= i < |t.rows| ==> t.rows[i] in t.rows;
    assert forall i :: 0 <= i < |s| ==> s[i] in s;
    AscendingCount(s, t);
    ToModels(s)
  }

  /** An ascending listing of all rows has one entry per row. */
  lemma AscendingCount(s: seq<Row>, t: Table)
    requires ValidTable(t) && Ascending(s)
    requires forall y :: y in s <==> y in t.rows
    ensures |s| == |t.rows|
  {
    var ss := set y | y in s;
    var ts := set y | y in t.rows;
    assert ss == ts;
    DistinctCard(s);
    DistinctCard(t.rows);
  }

  /** A sequence without repeats has as many distinct elements as entries. */
  lemma {:induction false} DistinctCard(s: seq<Row>)
    requires NoRepeats(s)
    ensures |set y | y in s| == |s|
  {
    if |s| > 0 {
      DistinctCard(s[1..]);
      assert (set y | y in s) == (set y | y in s[1..]) + {s[0]};
      assert s[0] !in s[1..] by {
        forall j | 0 <= j < |s[1..]| ensures s[1..][j] != s[0] {
          assert s[1..][j] == s[j + 1];
        }
      }
    }
  }

  /** `get_due_reminders(now)`. */
  function GetDue(t: Table, now: Instant): (r: Result<seq<Reminder>, ValidationError>)
    requires ValidTable(t)
    ensures r.Ok? ==> Ascending(r.value)
    ensures r.Ok? ==> forall y :: y in r.value <==> y in t.rows && y.doneAt.None? && y.dueAt <= now
    ensures r.Err? <==> exists y :: y in t.rows && y.doneAt.None? && y.dueAt <= now && !ValidText(y.text)
  {
    Query(t, DueBy(now))
  }

  /** `search_reminders(query)`: the query goes into the pattern unescaped. */
  function Search(t: Table, query: string): (r: Result<seq<Reminder>, ValidationError>)
    requires ValidTable(t)
    ensures r.Ok? ==> Ascending(r.value)
    ensures r.Ok? ==> forall y :: y in r.value <==> y in t.rows && ILike(y.text, "%" + query + "%")
    ensures r.Err? <==> exists y :: y in t.rows && ILike(y.text, "%" + query + "%") && !ValidText(y.text)
  {
    Query(t, Matching(query))
  }

  /** With a wildcard-free query, search is a case-insensitive substring test. */
  lemma SearchLiteral(t: Table, query: string)
    requires ValidTable(t) && Literal(query)
    requires Search(t, query).Ok?
    ensures forall y :: y in Search(t, query).value <==> y in t.rows && Contains(Lower(y.text), Lower(query))
  {
    forall y | y in t.rows
      ensures ILike(y.text, "%" + query + "%") <==> Contains(Lower(y.text), Lower(query))
    {
      ILikeLiteral(y.text, query);
    }
  }

  /**
   * `mark_done(id)`: an existing row gets `done_at = now` (overwriting an
   * earlier one) and is committed before conversion; an unknown id changes
   * nothing.
   */
  function MarkDone(t: Table, id: int, now: Instant): (out: (Table, Result<Option<Reminder>, ValidationError>))
    requires ValidTable(t)
    ensures ValidTable(out.0)
    ensures !HasId(t, id) ==> out == (t, Ok(None))
    ensures HasId(t, id) ==> |out.0.rows| == |t.rows|
    ensures HasId(t, id) ==> forall i :: 0 <= i < |t.rows| ==>
              out.0.rows[i] == (if t.rows[i].id == id then t.rows[i].(doneAt := Some(now)) else t.rows[i])
    ensures HasId(t, id) ==> (out.1.Ok? <==> exists i :: 0 <= i < |t.rows| && t.rows[i].id == id && ValidText(t.rows[i].text))
    ensures HasId(t, id) && out.1.Ok? ==> out.1.value.Some?
    ensures out.1.Ok? && out.1.value.Some? ==> out.1.value.value in out.0.rows && out.1.value.value.id == id
                                               && out.1.value.value.doneAt == Some(now)
  {
    match Find(t, id)
    case None => (t, Ok(None))
    case Some(k) =>
      var row := t.rows[k].(doneAt := Some(now));
      var t' := Table(t.rows[k := row]);
      (t', match ToModel(row) case Ok(m) => Ok(Some(m)) case Err(e) => Err(e))
  }

  /** `delete_reminder(id)`: true iff a row was removed. */
  function Delete(t: Table, id: int): (out: (Table, bool))
    requires ValidTable(t)
    ensures ValidTable(out.0)
    ensures out.1 <==> HasId(t, id)
    ensures !out.1 ==> out.0 == t
    ensures !HasId(out.0, id)
    ensures forall y :: y in out.0.rows <==> y in t.rows && y.id != id
  {
    match Find(t, id)
    case None => (t, false)
    case Some(k) =>
      RemoveRow(t, k);
      (Table(RemoveAt(t.rows, k)), true)
  }

  /** The rows without the one at position `k`: those before it stay put, those after it move down by one. */
  function RemoveAt(rows: seq<Row>, k: nat): (r: seq<Row>)
    requires k < |rows|
    ensures |r| == |rows| - 1
    ensures forall i :: 0 <= i < |r| ==> r[i] == rows[if i < k then i else i + 1]
  {
    rows[..k] + rows[k + 1..]
  }

  /** Removing the row at `k` keeps the table valid and removes exactly that row's id. */
  lemma RemoveRow(t: Table, k: nat)
    requires ValidTable(t) && k < |t.rows|
    ensures var t' := Table(RemoveAt(t.rows, k));
            && ValidTable(t')
            && !HasId(t', t.rows[k].id)
            && forall y :: y in t'.rows <==> y in t.rows && y.id != t.rows[k].id
  {
    var rows := t.rows;
    var r := RemoveAt(rows, k);
    forall i, j | 0 <= i < j < |r|
      ensures r[i].id < r[j].id
    {
      assert r[i] == rows[if i < k then i else i + 1];
      assert r[j] == rows[if j < k then j else j + 1];
    }
    forall i | 0 <= i < |r|
      ensures r[i].id != rows[k].id
    {
      assert r[i] == rows[if i < k then i else i + 1];
    }
    forall y
      ensures y in r <==> y in rows && y.id != rows[k].id
    {
      if y in rows && y.id != rows[k].id {
        var i :| 0 <= i < |rows| && rows[i] == y;
        assert r[if i < k then i else i - 1] == y;
      }
    }
  }

  /** A reminder just added with valid text is what `get_reminder` returns for its id. */
  lemma AddThenGet(t: Table, text: string, dueAt: Instant, priority: Priority, project: Option<string>,
                   aiText: Option<string>, now: Instant)
    requires ValidTable(t) && ValidText(text)
    ensures var (t', r) := Add(t, text, dueAt, priority, project, aiText, now);
            && r.Ok?
            && Get(t', r.value.id) == Ok(Some(r.value))
  {
    var (t', r) := Add(t, text, dueAt, priority, project, aiText, now);
    assert t'.rows[|t.rows|].id == r.value.id;
  }

  /** After `delete_reminder(id)` the id is gone for `get_reminder`, whatever was deleted. */
  lemma DeleteThenGet(t: Table, id: int)
    requires ValidTable(t)
    ensures Get(Delete(t, id).0, id) == Ok(None)
  {
  }

  /** Marking done removes a reminder from the active listing and from the due query. */
  lemma MarkDoneLeavesActive(t: Table, id: int, now: Instant, later: Instant)
    requires ValidTable(t)
    ensures var t' := MarkDone(t, id, now).0;
            && (ListActive(t').Ok? ==> forall y :: y in ListActive(t').value ==> y.id != id)
            && (GetDue(t', later).Ok? ==> forall y :: y in GetDue(t', later).value ==> y.id != id)
  {
    var t' := MarkDone(t, id, now).0;
    forall y | y in t'.rows && y.id == id ensures y.doneAt.Some? {
      var i :| 0 <= i < |t'.rows| && t'.rows[i] == y;
    }
  }
}
