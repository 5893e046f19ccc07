/**
 * The in-memory knowledge graph of src/decisions/knowledge_graph.py: a
 * dictionary from employee id to the employee's feature record, filled from
 * the survey frame one row at a time.
 */
module KnowledgeGraph {
  import opened Wrappers
  import opened Engagement

  /** The ids of the rows of a frame. */
  function RowIds(rows: seq<SurveyRow>): set<int> {
    set i | 0 <= i < |rows| :: rows[i].employeeId
  }

  /**
   * The dictionary after every row has been added in frame order: each row
   * stores the feature record holding its engagement under its id,
   * overwriting whatever the id held before.
   */
  function Populate(m: map<int, Features>, rows: seq<SurveyRow>): map<int, Features>
    requires EngagementComputed(rows)
  {
    if |rows| == 0 then m
    else
      var last := rows[|rows| - 1];
      Populate(m, rows[..|rows| - 1])[last.employeeId := Features(last.engagement.value)]
  }

  /** Building adds exactly the ids of the frame to the ids already present. */
  lemma {:induction false} PopulateKeys(m: map<int, Features>, rows: seq<SurveyRow>)
    requires EngagementComputed(rows)
    ensures Populate(m, rows).Keys == m.Keys + RowIds(rows)
  {
    if |rows| > 0 {
      var init := rows[..|rows| - 1];
      PopulateKeys(m, init);
      assert RowIds(rows) == RowIds(init) + {rows[|rows| - 1].employeeId} by {
        forall id | id in RowIds(rows) ensures id in RowIds(init) + {rows[|rows| - 1].employeeId} {
          var i :| 0 <= i < |rows| && rows[i].employeeId == id;
          if i < |rows| - 1 {
            assert init[i] == rows[i];
          }
        }
        forall id | id in RowIds(init) ensures id in RowIds(rows) {
          var i :| 0 <= i < |init| && init[i].employeeId == id;
          assert rows[i] == init[i];
        }
      }
    }
  }

  /** When an id occurs several times in the frame, the last of its rows decides what is stored. */
  lemma {:induction false} PopulateLastWins(m: map<int, Features>, rows: seq<SurveyRow>, i: int)
    requires EngagementComputed(rows)
    requires 0 <= i < |rows|
    requires forall j :: i < j < |rows| ==> rows[j].employeeId != rows[i].employeeId
    ensures rows[i].employeeId in Populate(m, rows)
    ensures Populate(m, rows)[rows[i].employeeId] == Features(rows[i].engagement.value)
  {
    var init := rows[..|rows| - 1];
    if i < |rows| - 1 {
      assert init[i] == rows[i];
      forall j | i < j < |init| ensures init[j].employeeId != init[i].employeeId {
        assert init[j] == rows[j];
      }
      PopulateLastWins(m, init, i);
    }
  }

  /** An id that no row carries keeps its entry, or its absence. */
  lemma {:induction false} PopulateOthersUnchanged(m: map<int, Features>, rows: seq<SurveyRow>, id: int)
    requires EngagementComputed(rows)
    requires forall j :: 0 <= j < |rows| ==> rows[j].employeeId != id
    ensures id in Populate(m, rows) <==> id in m
    ensures id in m ==> Populate(m, rows)[id] == m[id]
  {
    if |rows| > 0 {
      var init := rows[..|rows| - 1];
      forall j | 0 <= j < |init| ensures init[j].employeeId != id {
        assert init[j] == rows[j];
      }
      PopulateOthersUnchanged(m, init, id);
    }
  }

  /** Building the graph from a frame twice stores the same as building it once. */
  lemma {:induction false} PopulateTwice(m: map<int, Features>, rows: seq<SurveyRow>)
    requires EngagementComputed(rows)
    ensures Populate(Populate(m, rows), rows) == Populate(m, rows)
  {
    var once := Populate(m, rows);
    var twice := Populate(once, rows);
    PopulateKeys(m, rows);
    PopulateKeys(once, rows);
    forall id | id in twice ensures twice[id] == once[id] {
      if id in RowIds(rows) {
        var i :| 0 <= i < |rows| && rows[i].employeeId == id;
        var k := LastIndexOf(rows, id, i);
        PopulateLastWins(m, rows, k);
        PopulateLastWins(once, rows, k);
      } else {
        PopulateOthersUnchanged(once, rows, id);
      }
    }
  }

  /** The index of the last row carrying `id`, given one row at or after `from` that carries it. */
  ghost function LastIndexOf(rows: seq<SurveyRow>, id: int, from: int): (k: int)
    requires 0 <= from < |rows| && rows[from].employeeId == id
    ensures from <= k < |rows| && rows[k].employeeId == id
    ensures forall j :: k < j < |rows| ==> rows[j].employeeId != id
    decreases |rows| - from
  {
    if exists j :: from < j < |rows| && rows[j].employeeId == id then
      var j :| from < j < |rows| && rows[j].employeeId == id;
      LastIndexOf(rows, id, j)
    else from
  }

  /** The graph: one dictionary from employee id to feature record, updated in place. */
  class Graph {
    var nodes: map<int, Features>

    /** A graph that holds no employee yet. */
    constructor ()
      ensures nodes == map[]
    {
      nodes := map[];
    }

    /** Stores `features` under `id`, replacing any record the id had. */
    method AddEmployee(id: int, features: Features)
      modifies this
      ensures nodes == old(nodes)[id := features]
      ensures GetEmployee(id) == Some(features)
      ensures forall other :: other != id ==> GetEmployee(other) == old(GetEmployee(other))
    {
      nodes := nodes[id := features];
    }

    /** The record stored under `id`, or None when the id was never added. */
    function GetEmployee(id: int): (r: Option<Features>)
      reads this
      ensures r.Some? <==> id in nodes
      ensures r.Some? ==> r.value == nodes[id]
    {
      if id in nodes then Some(nodes[id]) else None
    }

    /**
     * Adds every row of the frame in frame order, each with its engagement
     * as the feature record, and returns the graph itself.
     */
    method BuildGraph(df: SurveyFrame) returns (g: Graph)
      requires EngagementComputed(df.rows)
      modifies this
      ensures g == this
      ensures nodes == Populate(old(nodes), df.rows)
      ensures nodes.Keys == old(nodes).Keys + RowIds(df.rows)
    {
      var rows := df.rows;
      for i := 0 to |rows|
        invariant nodes == Populate(old(nodes), rows[..i])
      {
        assert rows[..i + 1][..i] == rows[..i];
        AddEmployee(rows[i].employeeId, Features(rows[i].engagement.value));
      }
      assert rows[..|rows|] == rows;
      PopulateKeys(old(nodes), rows);
      return this;
    }
  }
}
