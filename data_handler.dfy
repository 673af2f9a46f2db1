/**
 * The tracking-error log: a table kept as a list of rows whose first row is
 * the header `Step, Follower_<id>_Error, ...` and whose every later row holds
 * a step number and one error cell per follower id, `None` where the step
 * reported no error for that follower.
 */
module DataHandler {
  import opened Wrappers

  /** A row of the table: the header of column names, or one step's entry. */
  datatype Row = Header(columns: seq<string>) | Entry(step: int, cells: seq<Option<real>>)

  /** The number of cells of a row, the step counted as a cell. */
  function Width(row: Row): nat {
    match row
    case Header(columns) => |columns|
    case Entry(_, cells) => 1 + |cells|
  }

  // ---------------------------------------------------------------------------
  // Decimal rendering of follower ids, as Python's f-string writes an int.
  // ---------------------------------------------------------------------------

  predicate IsDigit(c: char) {
    '0' <= c <= '9'
  }

  function DigitChar(d: nat): (c: char)
    requires d < 10
    ensures IsDigit(c) && c as int - '0' as int == d
  {
    ('0' as int + d) as char
  }

  function NatToString(n: nat): string {
    if n < 10 then [DigitChar(n)] else NatToString(n / 10) + [DigitChar(n % 10)]
  }

  /** The decimal form is made of digits, and has one digit exactly for numbers below ten. */
  lemma {:induction false} NatToStringDigits(n: nat)
    ensures var s := NatToString(n);
      && |s| >= 1
      && (forall k :: 0 <= k < |s| ==> IsDigit(s[k]))
      && (n >= 10 <==> |s| >= 2)
  {
    if n >= 10 {
      NatToStringDigits(n / 10);
    }
  }

  function IntToString(i: int): string {
    if i < 0 then "-" + NatToString(-i) else NatToString(i)
  }

  lemma {:induction false} NatToStringInjective(a: nat, b: nat)
    requires NatToString(a) == NatToString(b)
    ensures a == b
  {
    var s := NatToString(a);
    NatToStringDigits(a);
    NatToStringDigits(b);
    if a >= 10 {
      assert b >= 10;
      assert s[..|s| - 1] == NatToString(a / 10) == NatToString(b / 10);
      NatToStringInjective(a / 10, b / 10);
      assert DigitChar(a % 10) == s[|s| - 1] == DigitChar(b % 10);
    } else {
      assert b < 10;
      assert DigitChar(a) == s[0] == DigitChar(b);
    }
  }

  lemma IntToStringInjective(a: int, b: int)
    requires IntToString(a) == IntToString(b)
    ensures a == b
  {
    var s := IntToString(a);
    if a < 0 {
      assert s[0] == '-';
      if b >= 0 {
        NatToStringDigits(b);
      }
      assert b < 0;
      assert NatToString(-a) == s[1..] == NatToString(-b);
      NatToStringInjective(-a, -b);
    } else {
      NatToStringDigits(a);
      assert IsDigit(s[0]);
      assert b >= 0;
      NatToStringInjective(a, b);
    }
  }

  // ---------------------------------------------------------------------------
  // Header and entry rows.
  // ---------------------------------------------------------------------------

  const STEP_COLUMN: string := "Step"

  /** The column name of follower `fid`: `Follower_<fid>_Error`. */
  function ColumnName(fid: int): string {
    "Follower_" + IntToString(fid) + "_Error"
  }

  /** Two followers share a column name only when they share an id. */
  lemma ColumnNameInjective(a: int, b: int)
    requires ColumnName(a) == ColumnName(b)
    ensures a == b
  {
    var c := ColumnName(a);
    assert IntToString(a) == c[9..|c| - 6] == IntToString(b);
    IntToStringInjective(a, b);
  }

  /** The follower columns of the header, one per id, in the order of `ids`. */
  function ColumnNames(ids: seq<int>): (r: seq<string>)
    ensures |r| == |ids|
  {
    if ids == [] then [] else [ColumnName(ids[0])] + ColumnNames(ids[1..])
  }

  /** Column `k` of the follower columns belongs to `ids[k]`. */
  lemma {:induction false} ColumnNameAt(ids: seq<int>, k: nat)
    requires k < |ids|
    ensures ColumnNames(ids)[k] == ColumnName(ids[k])
  {
    if k > 0 {
      ColumnNameAt(ids[1..], k - 1);
    }
  }

  function HeaderColumns(ids: seq<int>): seq<string> {
    [STEP_COLUMN] + ColumnNames(ids)
  }

  /** `errors.get(fid, None)`. */
  function Lookup(errors: map<int, Option<real>>, fid: int): Option<real> {
    if fid in errors then errors[fid] else None
  }

  /** The error cells of an entry: the error of each id in `ids`, in order. */
  function Cells(ids: seq<int>, errors: map<int, Option<real>>): (r: seq<Option<real>>)
    ensures |r| == |ids|
    ensures forall k :: 0 <= k < |ids| ==> r[k] == Lookup(errors, ids[k])
  {
    if ids == [] then [] else [Lookup(errors, ids[0])] + Cells(ids[1..], errors)
  }

  predicate Distinct<T(==)>(s: seq<T>) {
    forall i, j :: 0 <= i < j < |s| ==> s[i] != s[j]
  }

  /** No follower column is called `Step`. */
  lemma ColumnNameIsNotStep(fid: int)
    ensures ColumnName(fid) != STEP_COLUMN
  {
    assert ColumnName(fid)[0] == 'F';
  }

  lemma ConsIndex<T>(x: T, s: seq<T>, k: nat)
    requires 1 <= k <= |s|
    ensures ([x] + s)[k] == s[k - 1]
  {
  }

  /** Column `k` of the header, after `Step`, is the column of `ids[k - 1]`. */
  lemma HeaderColumnAt(ids: seq<int>, k: nat)
    requires 1 <= k <= |ids|
    ensures HeaderColumns(ids)[k] == ColumnName(ids[k - 1])
  {
    ConsIndex(STEP_COLUMN, ColumnNames(ids), k);
    ColumnNameAt(ids, k - 1);
  }

  /**
   * The header names every column once: distinct follower ids give distinct
   * column names, and none of them is `Step`.
   */
  lemma HeaderColumnsDistinct(ids: seq<int>)
    requires Distinct(ids)
    ensures |HeaderColumns(ids)| == 1 + |ids|
    ensures Distinct(HeaderColumns(ids))
  {
    var h := HeaderColumns(ids);
    forall i, j | 0 <= i < j < |h| ensures h[i] != h[j] {
      HeaderColumnAt(ids, j);
      if i == 0 {
        ColumnNameIsNotStep(ids[j - 1]);
      } else {
        HeaderColumnAt(ids, i);
        if h[i] == h[j] {
          ColumnNameInjective(ids[i - 1], ids[j - 1]);
        }
      }
    }
  }

  /** Keys of `errors` that are not follower ids have no effect on the entry. */
  lemma CellsIgnoreOtherKeys(ids: seq<int>, errors: map<int, Option<real>>, extra: map<int, Option<real>>)
    requires forall fid :: fid in extra ==> fid !in ids
    ensures Cells(ids, errors + extra) == Cells(ids, errors)
  {
  }

  /** An entry built from any error map is exactly as wide as the header. */
  lemma EntryMatchesHeader(ids: seq<int>, step: int, errors: map<int, Option<real>>)
    ensures Width(Entry(step, Cells(ids, errors))) == Width(Header(HeaderColumns(ids))) == 1 + |ids|
  {
  }

  /** The header for `ids` comes first, and every later row is an entry as wide as the header. */
  predicate LogShape(ids: seq<int>, log: seq<Row>) {
    && |log| >= 1
    && log[0] == Header(HeaderColumns(ids))
    && forall k :: 1 <= k < |log| ==> log[k].Entry? && Width(log[k]) == Width(log[0])
  }

  /** The logger: the follower ids it was built for and the rows so far. */
  class DataLogger {
    var followerIds: seq<int>
    var data: seq<Row>

    ghost predicate Valid()
      reads this
    {
      LogShape(followerIds, data)
    }

    constructor (followerIds: seq<int>)
      ensures Valid()
      ensures this.followerIds == followerIds
      ensures data == [Header(HeaderColumns(followerIds))]
    {
      this.followerIds := followerIds;
      data := [Header(HeaderColumns(followerIds))];
    }

    /** Appends one entry for `step`, with the error of each follower id. */
    method AddEntry(step: int, errors: map<int, Option<real>>)
      requires Valid()
      modifies this`data
      ensures Valid()
      ensures followerIds == old(followerIds)
      ensures data == old(data) + [Entry(step, Cells(followerIds, errors))]
    {
      data := data + [Entry(step, Cells(followerIds, errors))];
    }
  }
}
