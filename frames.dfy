/**
 * Per-channel series and the wide table `pd.concat(frames, axis=1)` builds
 * from them. Timestamps and readings are taken as given: how `read_csv` and
 * `to_datetime` produce them is not part of this model.
 */
module Frames {
  import opened Text

  /** A `datetime64[ns]` index value: nanoseconds since the epoch. */
  type Timestamp = int

  /** A meter reading, taken as exact. */
  type Power = real

  /** A one-column frame: its column name and its readings by timestamp. */
  datatype Column = Column(name: string, cells: map<Timestamp, Power>)

  /** A frame: column names in order, and per timestamp one optional cell per column. */
  datatype Table = Table(columns: seq<string>, rows: map<Timestamp, seq<Option<Power>>>)

  /** `DataFrame()`: no columns, no rows. */
  const EmptyTable: Table := Table([], map[])

  /** `DataFrame.empty`: true when either axis has length zero. */
  predicate IsEmpty(t: Table)
  {
    |t.columns| == 0 || |t.rows| == 0
  }

  function Names(frames: seq<Column>): seq<string>
  {
    seq(|frames|, j requires 0 <= j < |frames| => frames[j].name)
  }

  lemma NamesAppend(x: seq<Column>, y: seq<Column>)
    ensures Names(x + y) == Names(x) + Names(y)
  {
  }

  /** Every timestamp some frame has a reading at. */
  function Timestamps(frames: seq<Column>): set<Timestamp>
    decreases |frames|
  {
    if |frames| == 0 then {}
    else Timestamps(frames[..|frames| - 1]) + frames[|frames| - 1].cells.Keys
  }

  /** What one column contributes at `ts`: its reading, or an absent cell (NaN). */
  function CellOf(c: Column, ts: Timestamp): Option<Power>
  {
    if ts in c.cells then Some(c.cells[ts]) else None
  }

  /**
   * The outer join of `frames` on the time index: one column per frame, in
   * order and under the frame's name; one row per timestamp any frame has;
   * each cell the frame's reading there or absent.
   */
  ghost predicate IsOuterJoin(frames: seq<Column>, t: Table)
  {
    && t.columns == Names(frames)
    && t.rows.Keys == Timestamps(frames)
    && forall ts :: ts in t.rows ==>
         && |t.rows[ts]| == |frames|
         && forall j :: 0 <= j < |frames| ==> t.rows[ts][j] == CellOf(frames[j], ts)
  }

  /** The row a table has at `ts`, all cells absent when it has none there. */
  function RowAt(t: Table, ts: Timestamp): seq<Option<Power>>
  {
    if ts in t.rows then t.rows[ts] else seq(|t.columns|, _ => None)
  }

  /** Appends one frame on the right, aligning on the index. */
  function AddColumn(t: Table, c: Column): Table
  {
    Table(t.columns + [c.name],
          map ts | ts in t.rows.Keys + c.cells.Keys :: RowAt(t, ts) + [CellOf(c, ts)])
  }

  /** `pd.concat(frames, axis=1)`, which refuses an empty list. */
  function Concat(frames: seq<Column>): (t: Table)
    requires |frames| > 0
    ensures IsOuterJoin(frames, t)
    decreases |frames|
  {
    var n := |frames|;
    var prefix := frames[..n - 1];
    assert frames == prefix + [frames[n - 1]];
    var left := if n == 1 then EmptyTable else Concat(prefix);
    AddColumnJoin(prefix, left, frames[n - 1]);
    AddColumn(left, frames[n - 1])
  }

  /** Appending a frame to the join of a prefix joins the longer sequence. */
  lemma AddColumnJoin(prefix: seq<Column>, t: Table, c: Column)
    requires IsOuterJoin(prefix, t)
    ensures IsOuterJoin(prefix + [c], AddColumn(t, c))
  {
    var frames := prefix + [c];
    var u := AddColumn(t, c);
    assert frames[..|prefix|] == prefix;
    assert Names(frames) == Names(prefix) + [c.name];
    forall ts | ts in u.rows
      ensures |u.rows[ts]| == |frames|
      ensures forall j :: 0 <= j < |frames| ==> u.rows[ts][j] == CellOf(frames[j], ts)
    {
      if ts !in t.rows {
        forall j | 0 <= j < |prefix|
          ensures ts !in prefix[j].cells
        {
          TimestampsMember(prefix, ts);
        }
      }
    }
  }

  /** `pd.concat(frames, axis=1) if frames else pd.DataFrame()`. */
  function JoinedFrame(frames: seq<Column>): (t: Table)
    ensures |frames| == 0 ==> t == EmptyTable
    ensures |frames| > 0 ==> IsOuterJoin(frames, t)
  {
    if |frames| == 0 then EmptyTable else Concat(frames)
  }

  /** A timestamp is a row exactly when some frame has a reading there. */
  lemma {:induction false} TimestampsMember(frames: seq<Column>, ts: Timestamp)
    ensures ts in Timestamps(frames) <==> exists j :: 0 <= j < |frames| && ts in frames[j].cells
    decreases |frames|
  {
    if |frames| > 0 {
      var n := |frames|;
      var prefix := frames[..n - 1];
      TimestampsMember(prefix, ts);
      if ts in Timestamps(frames) && ts !in frames[n - 1].cells {
        var j :| 0 <= j < n - 1 && ts in prefix[j].cells;
        assert frames[j] == prefix[j];
      }
      if j :| 0 <= j < n && ts in frames[j].cells {
        if j < n - 1 {
          assert prefix[j] == frames[j];
        }
      }
    }
  }

  /** The outer join is determined by the frames: two tables that both are one coincide. */
  lemma OuterJoinUnique(frames: seq<Column>, t: Table, u: Table)
    requires IsOuterJoin(frames, t) && IsOuterJoin(frames, u)
    ensures t == u
  {
    forall ts | ts in t.rows
      ensures t.rows[ts] == u.rows[ts]
    {
    }
    assert t.rows == u.rows;
  }

  /** The join of at least one frame is empty exactly when no frame has a reading. */
  lemma JoinedFrameEmpty(frames: seq<Column>)
    ensures IsEmpty(JoinedFrame(frames)) <==>
      |frames| == 0 || forall j :: 0 <= j < |frames| ==> |frames[j].cells| == 0
  {
    if |frames| > 0 {
      var t := JoinedFrame(frames);
      if |t.rows| == 0 {
        forall j | 0 <= j < |frames|
          ensures |frames[j].cells| == 0
        {
          forall ts | ts in frames[j].cells
            ensures false
          {
            TimestampsMember(frames, ts);
          }
          assert frames[j].cells.Keys == {};
        }
      } else {
        var ts :| ts in t.rows;
        TimestampsMember(frames, ts);
      }
    }
  }

  /** The readings of column `j` of a table: its present cells. */
  function ColumnReadings(t: Table, j: nat): map<Timestamp, Power>
  {
    map ts | ts in t.rows && j < |t.rows[ts]| && t.rows[ts][j].Some? :: t.rows[ts][j].value
  }

  /** Nothing is lost or invented by the join: column `j` gives back frame `j`. */
  lemma ColumnRoundTrip(frames: seq<Column>, j: nat)
    requires j < |frames|
    ensures JoinedFrame(frames).columns[j] == frames[j].name
    ensures ColumnReadings(JoinedFrame(frames), j) == frames[j].cells
  {
    var t := JoinedFrame(frames);
    var m := ColumnReadings(t, j);
    var cells := frames[j].cells;
    forall ts
      ensures ts in m <==> ts in cells
    {
      if ts in cells {
        TimestampsMember(frames, ts);
        assert ts in t.rows;
        assert t.rows[ts][j] == CellOf(frames[j], ts);
      }
      if ts in t.rows {
        assert t.rows[ts][j] == CellOf(frames[j], ts);
      }
    }
    forall ts | ts in m
      ensures m[ts] == cells[ts]
    {
      assert t.rows[ts][j] == CellOf(frames[j], ts);
    }
    assert m == cells;
  }

  function TotalReadings(frames: seq<Column>): nat
    decreases |frames|
  {
    if |frames| == 0 then 0
    else TotalReadings(frames[..|frames| - 1]) + |frames[|frames| - 1].cells|
  }

  ghost predicate DisjointTimes(frames: seq<Column>)
  {
    forall i, j :: 0 <= i < j < |frames| ==> frames[i].cells.Keys !! frames[j].cells.Keys
  }

  /**
   * Frames over disjoint time ranges give one row per reading: the row count
   * is the total number of readings.
   */
  lemma {:induction false} DisjointRowCount(frames: seq<Column>)
    requires DisjointTimes(frames)
    ensures |JoinedFrame(frames).rows| == TotalReadings(frames)
  {
    TimestampsCount(frames);
  }

  lemma {:induction false} TimestampsCount(frames: seq<Column>)
    requires DisjointTimes(frames)
    ensures |Timestamps(frames)| == TotalReadings(frames)
    decreases |frames|
  {
    var n := |frames|;
    if n > 0 {
      var prefix := frames[..n - 1];
      var last := frames[n - 1].cells.Keys;
      assert DisjointTimes(prefix) by {
        forall i, j | 0 <= i < j < |prefix|
          ensures prefix[i].cells.Keys !! prefix[j].cells.Keys
        {
          assert prefix[i] == frames[i] && prefix[j] == frames[j];
        }
      }
      TimestampsCount(prefix);
      assert Timestamps(prefix) !! last by {
        forall ts | ts in Timestamps(prefix)
          ensures ts !in last
        {
          TimestampsMember(prefix, ts);
          var i :| 0 <= i < |prefix| && ts in prefix[i].cells;
          assert prefix[i] == frames[i];
        }
      }
      assert |Timestamps(frames)| == |Timestamps(prefix)| + |last|;
      assert |frames[n - 1].cells| == |last|;
    }
  }
}
