/** `node-info/src/main.py`: the table from node names to their region and
    zone, built from the rows of `nodes.csv`, and the three lookups the
    service answers. The file is given as its rows of fields. */
module NodeInfoService {
  import opened Common

  /** A row of the CSV file: its fields, as many as the line has. */
  type CsvRow = seq<string>

  datatype NodeInfo = NodeInfo(region: string, zone: string)

  type NodeTable = map<string, NodeInfo>

  /** The error a row with fewer than three fields raises when its fields
      are indexed. */
  const ShortRowError := "list index out of range"

  /** A row that is entered into the table: a node name, a region and a
      zone, none of them empty. */
  predicate Entered(row: CsvRow) {
    |row| >= 3 && row[0] != "" && row[1] != "" && row[2] != ""
  }

  /** One pass of the loop: index the three fields, skip the row if one of
      them is empty, otherwise store it under its node name. */
  function AddRow(table: NodeTable, row: CsvRow): Result<NodeTable, string> {
    if |row| < 3 then Err(ShortRowError)
    else if !(row[0] != "" && row[1] != "" && row[2] != "") then Ok(table)
    else Ok(table[row[0] := NodeInfo(row[1], row[2])])
  }

  /** The table the rows give, or the error of the first short row. */
  function NodesInfo(rows: seq<CsvRow>): Result<NodeTable, string> {
    if |rows| == 0 then Ok(map[])
    else
      match NodesInfo(rows[..|rows| - 1])
      case Err(e) => Err(e)
      case Ok(table) => AddRow(table, rows[|rows| - 1])
  }

  /** Once a prefix of the rows fails, the whole file fails the same way. */
  lemma {:induction false} ErrorPersists(rows: seq<CsvRow>, i: nat, e: string)
    requires i <= |rows| && NodesInfo(rows[..i]) == Err(e)
    ensures NodesInfo(rows) == Err(e)
    decreases |rows| - i
  {
    if i < |rows| {
      assert rows[..i + 1][..i] == rows[..i];
      ErrorPersists(rows, i + 1, e);
    } else {
      assert rows[..i] == rows;
    }
  }

  /** `load_nodes_info`: the loop over the rows, writing into the dict. */
  method LoadNodesInfo(rows: seq<CsvRow>) returns (r: Result<NodeTable, string>)
    ensures r == NodesInfo(rows)
  {
    var table: NodeTable := map[];
    var i := 0;
    while i < |rows|
      invariant 0 <= i <= |rows|
      invariant NodesInfo(rows[..i]) == Ok(table)
    {
      var row := rows[i];
      assert rows[..i + 1][..i] == rows[..i];
      if |row| < 3 {
        ErrorPersists(rows, i + 1, ShortRowError);
        return Err(ShortRowError);
      }
      var nodename := row[0];
      var region := row[1];
      var zone := row[2];
      if !(nodename != "" && region != "" && zone != "") {
        i := i + 1;
        continue;
      }
      table := table[nodename := NodeInfo(region, zone)];
      i := i + 1;
    }
    assert rows[..i] == rows;
    r := Ok(table);
  }

  /** The file loads exactly when every row has at least three fields; a
      short row fails it even when it comes after all the others. */
  lemma {:induction false} LoadsIffRowsLongEnough(rows: seq<CsvRow>)
    ensures NodesInfo(rows).Ok? <==> forall i :: 0 <= i < |rows| ==> |rows[i]| >= 3
    ensures NodesInfo(rows).Err? ==> NodesInfo(rows).error == ShortRowError
  {
    if |rows| > 0 {
      var front := rows[..|rows| - 1];
      LoadsIffRowsLongEnough(front);
      assert forall i :: 0 <= i < |front| ==> front[i] == rows[i];
    }
  }

  /** A node is in the loaded table exactly when some entered row names it. */
  lemma {:induction false} TableMembership(rows: seq<CsvRow>, name: string)
    requires NodesInfo(rows).Ok?
    ensures name in NodesInfo(rows).value <==>
      exists i :: 0 <= i < |rows| && Entered(rows[i]) && rows[i][0] == name
  {
    if |rows| > 0 {
      var front := rows[..|rows| - 1];
      var last := rows[|rows| - 1];
      assert NodesInfo(front).Ok?;
      TableMembership(front, name);
      assert forall i :: 0 <= i < |front| ==> front[i] == rows[i];
      if name in NodesInfo(front).value {
        var i :| 0 <= i < |front| && Entered(front[i]) && front[i][0] == name;
        assert Entered(rows[i]) && rows[i][0] == name;
      }
      if Entered(last) && last[0] == name {
        assert Entered(rows[|rows| - 1]) && rows[|rows| - 1][0] == name;
      }
    }
  }

  /** A node's entry is the one of the last entered row that names it. */
  lemma {:induction false} TableEntry(rows: seq<CsvRow>, name: string)
    requires NodesInfo(rows).Ok? && name in NodesInfo(rows).value
    ensures exists i ::
              0 <= i < |rows| && Entered(rows[i]) && rows[i][0] == name
              && NodesInfo(rows).value[name] == NodeInfo(rows[i][1], rows[i][2])
              && forall j :: i < j < |rows| && Entered(rows[j]) ==> rows[j][0] != name
  {
    var front := rows[..|rows| - 1];
    var last := rows[|rows| - 1];
    assert NodesInfo(front).Ok?;
    assert forall i :: 0 <= i < |front| ==> front[i] == rows[i];
    if Entered(last) && last[0] == name {
      assert NodesInfo(rows).value[name] == NodeInfo(last[1], last[2]);
      assert Entered(rows[|rows| - 1]) && rows[|rows| - 1][0] == name;
    } else {
      var table := NodesInfo(front).value;
      assert NodesInfo(rows).value == table || NodesInfo(rows).value == table[last[0] := NodeInfo(last[1], last[2])];
      assert name in table && NodesInfo(rows).value[name] == table[name];
      TableEntry(front, name);
      var i :| 0 <= i < |front| && Entered(front[i]) && front[i][0] == name
        && table[name] == NodeInfo(front[i][1], front[i][2])
        && forall j :: i < j < |front| && Entered(front[j]) ==> front[j][0] != name;
      assert Entered(rows[i]) && rows[i][0] == name;
    }
  }

  /** The entered row that comes last for its node name decides that node's
      entry; an earlier row for the same name is overwritten. */
  lemma LastRowWins(rows: seq<CsvRow>, i: nat)
    requires NodesInfo(rows).Ok? && i < |rows| && Entered(rows[i])
    requires forall j :: i < j < |rows| && Entered(rows[j]) ==> rows[j][0] != rows[i][0]
    ensures rows[i][0] in NodesInfo(rows).value
    ensures NodesInfo(rows).value[rows[i][0]] == NodeInfo(rows[i][1], rows[i][2])
  {
    TableMembership(rows, rows[i][0]);
    TableEntry(rows, rows[i][0]);
    var k :| 0 <= k < |rows| && Entered(rows[k]) && rows[k][0] == rows[i][0]
      && NodesInfo(rows).value[rows[i][0]] == NodeInfo(rows[k][1], rows[k][2])
      && forall j :: k < j < |rows| && Entered(rows[j]) ==> rows[j][0] != rows[i][0];
    assert k == i;
  }

  /** Every stored name, region and zone is non-empty: rows with an empty
      field never reach the table. */
  lemma {:induction false} StoredFieldsNonEmpty(rows: seq<CsvRow>)
    requires NodesInfo(rows).Ok?
    ensures forall name :: name in NodesInfo(rows).value ==>
      name != "" && NodesInfo(rows).value[name].region != "" && NodesInfo(rows).value[name].zone != ""
  {
    if |rows| > 0 {
      StoredFieldsNonEmpty(rows[..|rows| - 1]);
    }
  }

  /** Fields after the third do not change the table. */
  lemma {:induction false} ExtraColumnsIgnored(rows: seq<CsvRow>, i: nat, extra: seq<string>)
    requires i < |rows| && |rows[i]| >= 3
    ensures NodesInfo(rows[i := rows[i] + extra]) == NodesInfo(rows)
  {
    var wider := rows[i := rows[i] + extra];
    if i < |rows| - 1 {
      assert wider[..|wider| - 1] == rows[..|rows| - 1][i := rows[i] + extra];
      ExtraColumnsIgnored(rows[..|rows| - 1], i, extra);
    } else {
      assert wider[..|wider| - 1] == rows[..|rows| - 1];
      var row := rows[i] + extra;
      assert row[0] == rows[i][0] && row[1] == rows[i][1] && row[2] == rows[i][2];
    }
  }

  /** `get_node_info`: the node's region and zone, or an empty dict for an
      unknown node. */
  function GetNodeInfo(table: NodeTable, nodename: string): (r: map<string, string>)
    ensures nodename in table ==>
      r.Keys == {"region", "zone"} && r["region"] == table[nodename].region && r["zone"] == table[nodename].zone
    ensures nodename !in table ==> r == map[]
  {
    if nodename in table then map["region" := table[nodename].region, "zone" := table[nodename].zone]
    else map[]
  }

  /** `get_node_region`: the node's region, or `None` for an unknown node. */
  function GetNodeRegion(table: NodeTable, nodename: string): (r: Option<string>)
    ensures r.Some? <==> nodename in table
    ensures r.Some? ==> r.value == table[nodename].region
  {
    if nodename in table then Some(table[nodename].region) else None
  }

  /** `get_node_zone`: the node's zone, or `None` for an unknown node. */
  function GetNodeZone(table: NodeTable, nodename: string): (r: Option<string>)
    ensures r.Some? <==> nodename in table
    ensures r.Some? ==> r.value == table[nodename].zone
  {
    if nodename in table then Some(table[nodename].zone) else None
  }

  /** The three lookups agree: the dict is empty exactly when the single
      lookups answer `None`, and otherwise holds what they answer. */
  lemma LookupsAgree(table: NodeTable, nodename: string)
    ensures GetNodeInfo(table, nodename) == map[] <==> GetNodeRegion(table, nodename).None?
    ensures GetNodeRegion(table, nodename).None? <==> GetNodeZone(table, nodename).None?
    ensures GetNodeRegion(table, nodename).Some? ==>
      GetNodeInfo(table, nodename) == map["region" := GetNodeRegion(table, nodename).value,
                                          "zone" := GetNodeZone(table, nodename).value]
  {
    if nodename in table {
      assert "region" in GetNodeInfo(table, nodename);
    }
  }

  /** A known node's lookups answer with the fields of the last entered row
      that names it; the non-empty region is a non-empty response. */
  lemma LookupsFromRows(rows: seq<CsvRow>, i: nat)
    requires NodesInfo(rows).Ok? && i < |rows| && Entered(rows[i])
    requires forall j :: i < j < |rows| && Entered(rows[j]) ==> rows[j][0] != rows[i][0]
    ensures GetNodeRegion(NodesInfo(rows).value, rows[i][0]) == Some(rows[i][1])
    ensures GetNodeZone(NodesInfo(rows).value, rows[i][0]) == Some(rows[i][2])
    ensures GetNodeInfo(NodesInfo(rows).value, rows[i][0]) == map["region" := rows[i][1], "zone" := rows[i][2]]
  {
    LastRowWins(rows, i);
  }

  /** A name that no entered row carries is unknown to all three lookups. */
  lemma UnknownNode(rows: seq<CsvRow>, name: string)
    requires NodesInfo(rows).Ok?
    requires forall i :: 0 <= i < |rows| && Entered(rows[i]) ==> rows[i][0] != name
    ensures GetNodeInfo(NodesInfo(rows).value, name) == map[]
    ensures GetNodeRegion(NodesInfo(rows).value, name).None? && GetNodeZone(NodesInfo(rows).value, name).None?
  {
    TableMembership(rows, name);
  }
}
