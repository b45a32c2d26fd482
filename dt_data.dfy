/**
 * The event model `DtData`: a DDL statement, a row change (`Dml`) or a
 * transaction `Commit`. `Dml` and `Commit` carry a position string; stamping
 * overwrites it and touches nothing else.
 */
module DtEvent {
  import opened Common

  datatype RowType = Insert | Update | Delete

  /** One row change; column values are kept as their rendered text. */
  datatype RowData = RowData(
    schema: string,
    tb: string,
    rowType: RowType,
    before: Option<map<string, string>>,
    after: Option<map<string, string>>,
    position: string)

  datatype DdlData = DdlData(schema: string, query: string)

  datatype DtData =
    | Ddl(ddlData: DdlData)
    | Dml(rowData: RowData)
    | Commit(xid: string, position: string)

  /** The variants that carry a position. */
  predicate Positioned(d: DtData)
  {
    d.Dml? || d.Commit?
  }

  /** The position an event carries, if its variant has one. */
  function PositionOf(d: DtData): (r: Option<string>)
    ensures r.Some? <==> Positioned(d)
  {
    match d
    case Dml(row) => Some(row.position)
    case Commit(_, position) => Some(position)
    case Ddl(_) => None
  }

  /** The event with its position (if any) cleared: everything but the position. */
  function Blanked(d: DtData): (r: DtData)
    ensures PositionOf(r) == if Positioned(d) then Some("") else None
  {
    match d
    case Dml(row) => Dml(row.(position := ""))
    case Commit(xid, _) => Commit(xid, "")
    case Ddl(_) => d
  }

  /**
   * Overwrites the position of a `Dml` (on its row data) or a `Commit`; any
   * other variant is returned unchanged.
   */
  function Stamp(d: DtData, position: string): (r: DtData)
    ensures Blanked(r) == Blanked(d)
    ensures PositionOf(r) == if Positioned(d) then Some(position) else None
    ensures !Positioned(d) ==> r == d
  {
    match d
    case Commit(xid, _) => Commit(xid, position)
    case Dml(row) => Dml(row.(position := position))
    case Ddl(_) => d
  }

  /** An event is determined by its blanked form and its position. */
  lemma {:induction false} BlankedAndPositionDetermine(a: DtData, b: DtData)
    requires Blanked(a) == Blanked(b) && PositionOf(a) == PositionOf(b)
    ensures a == b
  {
    match a
    case Dml(ra) =>
      var rb := b.rowData;
      assert ra.(position := "") == rb.(position := "");
      assert ra.position == rb.position;
    case Commit(_, _) =>
      assert Blanked(a).xid == Blanked(b).xid;
    case Ddl(_) =>
  }

  /** `Stamp` is characterised, in both directions, by what it keeps and what it sets. */
  lemma StampCharacterised(d: DtData, position: string, r: DtData)
    ensures r == Stamp(d, position) <==>
            Blanked(r) == Blanked(d) &&
            PositionOf(r) == (if Positioned(d) then Some(position) else None)
  {
    if Blanked(r) == Blanked(d) && PositionOf(r) == (if Positioned(d) then Some(position) else None) {
      BlankedAndPositionDetermine(r, Stamp(d, position));
    }
  }

  /** Whatever position the decoded payload carried, the stamped event is the same. */
  lemma StampIgnoresCarriedPosition(d1: DtData, d2: DtData, position: string)
    requires Blanked(d1) == Blanked(d2)
    ensures Stamp(d1, position) == Stamp(d2, position)
  {
    BlankedAndPositionDetermine(Stamp(d1, position), Stamp(d2, position));
  }
}
