/** The LGA → baseline discharge table (load_baseline). */
module Baseline {
  import opened Common

  /** One CSV row: the `LGA` and `baseline` columns. */
  datatype BaselineRow = BaselineRow(lga: string, baseline: real)

  /** The names that occur in the table. */
  ghost function Names(rows: seq<BaselineRow>): set<string> {
    set i | 0 <= i < |rows| :: rows[i].lga
  }

  /** `set_index('LGA')['baseline'].to_dict()`: rows are entered in file
      order, so a later row overwrites an earlier one with the same name. */
  function BaselineMap(rows: seq<BaselineRow>): (m: map<string, real>)
    ensures m.Keys == Names(rows)
    decreases |rows|
  {
    if |rows| == 0 then map[]
    else
      var front := rows[..|rows| - 1];
      var last := rows[|rows| - 1];
      assert forall i :: 0 <= i < |front| ==> front[i] == rows[i];
      assert Names(rows) == Names(front) + {last.lga};
      BaselineMap(front)[last.lga := last.baseline]
  }

  /** load_baseline: `None` stands for a file that cannot be read or lacks a
      column; any such failure gives the empty map. */
  function LoadBaseline(table: Option<seq<BaselineRow>>): (m: map<string, real>)
    ensures table.None? ==> m == map[]
    ensures table.Some? ==> m.Keys == Names(table.value)
  {
    match table
    case None => map[]
    case Some(rows) => BaselineMap(rows)
  }

  /** The value of a row that no later row renames is the value in the map. */
  lemma {:induction false} LastRowWins(rows: seq<BaselineRow>, i: nat)
    requires i < |rows|
    requires forall j :: i < j < |rows| ==> rows[j].lga != rows[i].lga
    ensures rows[i].lga in BaselineMap(rows)
    ensures BaselineMap(rows)[rows[i].lga] == rows[i].baseline
    decreases |rows|
  {
    if i < |rows| - 1 {
      var front := rows[..|rows| - 1];
      LastRowWins(front, i);
    }
  }

  /** Every value in the map comes from the last row carrying its name. */
  lemma {:induction false} ValueFromLastRow(rows: seq<BaselineRow>, name: string)
    requires name in BaselineMap(rows)
    ensures exists i :: 0 <= i < |rows| && rows[i].lga == name && rows[i].baseline == BaselineMap(rows)[name] &&
                        forall j :: i < j < |rows| ==> rows[j].lga != name
    decreases |rows|
  {
    var last := rows[|rows| - 1];
    var front := rows[..|rows| - 1];
    assert BaselineMap(rows) == BaselineMap(front)[last.lga := last.baseline];
    if last.lga == name {
      assert rows[|rows| - 1].baseline == BaselineMap(rows)[name];
    } else {
      ValueFromLastRow(front, name);
      var i :| 0 <= i < |front| && front[i].lga == name && front[i].baseline == BaselineMap(front)[name] &&
               forall j :: i < j < |front| ==> front[j].lga != name;
      assert rows[i] == front[i];
      assert forall j :: i < j < |rows| ==> rows[j].lga != name by {
        forall j | i < j < |rows| ensures rows[j].lga != name {
          if j < |front| { assert rows[j] == front[j]; }
        }
      }
    }
  }

  /** Duplicate names: the later row's value is kept. */
  lemma DuplicateNameKeepsLast()
    ensures BaselineMap([BaselineRow("X", 10.0), BaselineRow("X", 20.0)]) == map["X" := 20.0]
  {
  }
}
