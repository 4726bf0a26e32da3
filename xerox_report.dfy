/**
 * The Xerox report-line builder of a day route (`get_xerox_data`):
 * group the shipment lines by (product, unit of measure), sum their
 * quantities, keep the highest sale price, then emit one header per
 * product category that has lines, the lines of that category, and a
 * closing TOTAL line, every line numbered from 1.
 */
module XeroxReport {
  import opened Wrappers
  import opened Ordered

  type ProductId = nat
  type UomId = nat
  type CategId = nat

  /** A stock move reached through route -> batch picking -> picking -> moves. */
  datatype MoveLine = MoveLine(
    id: nat,
    product: ProductId,
    productCode: string,      // product_id.ref_etd
    productName: string,      // product_id.name
    uom: UomId,
    uomName: string,          // product_uom.name
    categ: CategId,           // product_id.categ_id
    categName: Option<string>, // categ_id.complete_name, None when unset
    qtyDone: int,             // quantity_done
    qtyTodo: int,             // product_uom_qty
    salePrice: Option<int>)   // sale_line_id.price_unit, None without a sale line

  /** A picking and the moves it holds outside packages. */
  datatype Picking = Picking(id: nat, moves: seq<MoveLine>)

  /** A batch picking and its pickings. */
  datatype BatchPicking = BatchPicking(id: nat, pickings: seq<Picking>)

  /** The grouping key of a report line. */
  datatype Key = Key(product: ProductId, uom: UomId)

  /** One accumulated report line: the dictionary seeded by `lines.setdefault`. */
  datatype Accum = Accum(
    code: string,
    name: string,
    uom: string,
    quantity: int,
    price: int,
    section: CategId)

  /**
   * The two insertion-ordered dictionaries the builder fills: `lines`
   * (keys in insertion order plus the map) and `sections` (category ids in
   * insertion order plus their names).
   */
  datatype Grouping = Grouping(
    keys: seq<Key>,
    lines: map<Key, Accum>,
    sections: seq<CategId>,
    names: map<CategId, string>)

  /** A report row before it is numbered. */
  datatype Row =
    | HeaderRow(section: CategId, title: string) // "***** <title> *****"
    | ProductRow(key: Key, line: Accum)
    | TotalRow(quantity: int)                   // "***** TOTAL *****", unit "TT"

  /** An emitted report line: its 1-based `index` and its row. */
  datatype ReportLine = ReportLine(index: int, row: Row)

  // ---------------------------------------------------------------------
  // Reaching the moves
  // ---------------------------------------------------------------------

  /** All moves of all pickings of all batches, in traversal order, repeats included. */
  function AllMoves(batches: seq<BatchPicking>): seq<MoveLine> {
    if batches == [] then []
    else AllMoves(batches[..|batches| - 1]) + PickingMoves(batches[|batches| - 1].pickings)
  }

  function PickingMoves(pickings: seq<Picking>): seq<MoveLine> {
    if pickings == [] then []
    else PickingMoves(pickings[..|pickings| - 1]) + pickings[|pickings| - 1].moves
  }

  /**
   * `mapped('shipping_batchpick_ids.picking_ids.move_ids_without_package')`:
   * the recordset union keeps each move once, at its first occurrence.
   */
  function ReachableMoves(batches: seq<BatchPicking>): seq<MoveLine> {
    Dedup(AllMoves(batches))
  }

  // ---------------------------------------------------------------------
  // Grouping pass
  // ---------------------------------------------------------------------

  function KeyOf(m: MoveLine): Key {
    Key(m.product, m.uom)
  }

  /** `quantity_done or product_uom_qty`: the planned quantity when nothing is done. */
  function MoveQty(m: MoveLine): int {
    if m.qtyDone != 0 then m.qtyDone else m.qtyTodo
  }

  /** `sale_line_id.price_unit or 0`. */
  function SalePrice(m: MoveLine): int {
    m.salePrice.GetOr(0)
  }

  /** `complete_name or ''`. */
  function SectionName(m: MoveLine): string {
    m.categName.GetOr("")
  }

  function Max(a: int, b: int): int {
    if a < b then b else a
  }

  /** The line dictionary seeded on the first sight of a key. */
  function Seed(m: MoveLine): Accum {
    Accum(m.productCode, m.productName, m.uomName, 0, 0, m.categ)
  }

  /** The structural invariant of the two dictionaries. */
  ghost predicate Wf(g: Grouping) {
    && NoDup(g.keys)
    && NoDup(g.sections)
    && (forall k :: k in g.lines <==> k in g.keys)
    && (forall c :: c in g.names <==> c in g.sections)
    && (forall k :: k in g.lines ==> g.lines[k].section in g.names)
  }

  /** Every registered section has a name: what emission needs of the dictionaries. */
  ghost predicate SectionsNamed(g: Grouping) {
    forall c :: c in g.sections ==> c in g.names
  }

  const EmptyGrouping := Grouping([], map[], [], map[])

  /** `sections.setdefault(section_key, section_name or '')`. */
  function AddSection(g: Grouping, m: MoveLine): (r: Grouping)
    ensures m.categ in r.names
  {
    if m.categ in g.names then g
    else g.(sections := g.sections + [m.categ], names := g.names[m.categ := SectionName(m)])
  }

  /** `lines.setdefault(key, {...})`. */
  function AddLine(g: Grouping, m: MoveLine): (r: Grouping)
    ensures KeyOf(m) in r.lines
  {
    if KeyOf(m) in g.lines then g
    else g.(keys := g.keys + [KeyOf(m)], lines := g.lines[KeyOf(m) := Seed(m)])
  }

  /** The `+=` on the key's quantity and the `max` on its price. */
  function Update(g: Grouping, m: MoveLine): Grouping
    requires KeyOf(m) in g.lines
  {
    var a := g.lines[KeyOf(m)];
    g.(lines := g.lines[KeyOf(m) := a.(quantity := a.quantity + MoveQty(m),
                                       price := Max(a.price, SalePrice(m)))])
  }

  /** One iteration of the grouping loop. */
  function Step(g: Grouping, m: MoveLine): Grouping {
    Update(AddLine(AddSection(g, m), m), m)
  }

  /** The dictionaries after the grouping loop has seen `ms`. */
  function Accumulate(ms: seq<MoveLine>): Grouping {
    if ms == [] then EmptyGrouping
    else Step(Accumulate(ms[..|ms| - 1]), ms[|ms| - 1])
  }

  /** Grouping one more move is one more step. */
  lemma AccumulateSnoc(ms: seq<MoveLine>, i: nat)
    requires i < |ms|
    ensures Accumulate(ms[..i + 1]) == Step(Accumulate(ms[..i]), ms[i])
  {
    assert ms[..i + 1][..i] == ms[..i];
  }

  /** The grouping loop keeps both dictionaries well formed. */
  lemma {:induction false} AccumulateWf(ms: seq<MoveLine>)
    ensures Wf(Accumulate(ms))
  {
    if ms != [] {
      AccumulateWf(ms[..|ms| - 1]);
      StepKeepsWf(Accumulate(ms[..|ms| - 1]), ms[|ms| - 1]);
    }
  }

  lemma StepKeepsWf(g: Grouping, m: MoveLine)
    requires Wf(g)
    ensures Wf(Step(g, m))
    ensures KeyOf(m) in Step(g, m).lines && m.categ in Step(g, m).names
  {
    AddSectionKeepsWf(g, m);
    AddLineKeepsWf(AddSection(g, m), m);
    UpdateKeepsWf(AddLine(AddSection(g, m), m), m);
  }

  /** What one step does to the line of a key: only the move's own key changes. */
  lemma StepLine(g: Grouping, m: MoveLine, k: Key)
    ensures k in Step(g, m).lines <==> k in g.lines || k == KeyOf(m)
    ensures k != KeyOf(m) && k in g.lines ==> Step(g, m).lines[k] == g.lines[k]
    ensures k == KeyOf(m) ==>
              var a := if k in g.lines then g.lines[k] else Seed(m);
              Step(g, m).lines[k] == a.(quantity := a.quantity + MoveQty(m), price := Max(a.price, SalePrice(m)))
  {
  }

  lemma AddSectionKeepsWf(g: Grouping, m: MoveLine)
    requires Wf(g)
    ensures Wf(AddSection(g, m))
  {
    if m.categ !in g.names {
      NoDupAppend(g.sections, [m.categ]);
    }
  }

  lemma AddLineKeepsWf(g: Grouping, m: MoveLine)
    requires Wf(g) && m.categ in g.names
    ensures Wf(AddLine(g, m)) && m.categ in AddLine(g, m).names
  {
    if KeyOf(m) !in g.lines {
      NoDupAppend(g.keys, [KeyOf(m)]);
    }
  }

  lemma UpdateKeepsWf(g: Grouping, m: MoveLine)
    requires Wf(g) && KeyOf(m) in g.lines && m.categ in g.names
    ensures Wf(Update(g, m)) && KeyOf(m) in Update(g, m).lines && m.categ in Update(g, m).names
  {
  }

  // ---------------------------------------------------------------------
  // Emission
  // ---------------------------------------------------------------------

  /** The keys of `ks` whose line belongs to section `c`, in the order of `ks`. */
  function Members(lines: map<Key, Accum>, ks: seq<Key>, c: CategId): (r: seq<Key>)
    ensures forall k :: k in r ==> k in ks && k in lines && lines[k].section == c
  {
    if ks == [] then []
    else
      var rest := Members(lines, ks[..|ks| - 1], c);
      var k := ks[|ks| - 1];
      if k in lines && lines[k].section == c then rest + [k] else rest
  }

  /** One product row per key of `ks`, in that order. */
  function ProductRows(lines: map<Key, Accum>, ks: seq<Key>): (r: seq<Row>)
    requires forall k :: k in ks ==> k in lines
    ensures |r| == |ks|
  {
    if ks == [] then []
    else ProductRows(lines, ks[..|ks| - 1]) + [ProductRow(ks[|ks| - 1], lines[ks[|ks| - 1]])]
  }

  /** A section's header and lines, or nothing when no line belongs to it. */
  function Block(g: Grouping, c: CategId): seq<Row>
    requires c in g.names
  {
    var ks := Members(g.lines, g.keys, c);
    if ks == [] then [] else [HeaderRow(c, g.names[c])] + ProductRows(g.lines, ks)
  }

  /** The blocks of the sections `secs`, in that order. */
  function Blocks(g: Grouping, secs: seq<CategId>): seq<Row>
    requires forall c :: c in secs ==> c in g.names
  {
    if secs == [] then []
    else Blocks(g, secs[..|secs| - 1]) + Block(g, secs[|secs| - 1])
  }

  /** `sum(x['quantity'] for x in lines.values())`. */
  function TotalQuantity(lines: map<Key, Accum>, ks: seq<Key>): int {
    if ks == [] then 0
    else
      var k := ks[|ks| - 1];
      TotalQuantity(lines, ks[..|ks| - 1]) + (if k in lines then lines[k].quantity else 0)
  }

  /** The unnumbered rows: every block in section order, then the total. */
  function Rows(g: Grouping): seq<Row>
    requires SectionsNamed(g)
  {
    Blocks(g, g.sections) + [TotalRow(TotalQuantity(g.lines, g.keys))]
  }

  /** Rows numbered consecutively from `start`. */
  function Numbered(rows: seq<Row>, start: int): (r: seq<ReportLine>)
    ensures |r| == |rows|
  {
    if rows == [] then []
    else Numbered(rows[..|rows| - 1], start) + [ReportLine(start + |rows| - 1, rows[|rows| - 1])]
  }

  /** The report `get_xerox_data` returns for the moves `ms`. */
  function Report(ms: seq<MoveLine>): seq<ReportLine> {
    AccumulateWf(ms);
    Numbered(Rows(Accumulate(ms)), 1)
  }

  lemma NumberedSnoc(rows: seq<Row>, r: Row, start: int)
    ensures Numbered(rows + [r], start) == Numbered(rows, start) + [ReportLine(start + |rows|, r)]
  {
    assert (rows + [r])[..|rows|] == rows;
  }

  // ---------------------------------------------------------------------
  // The builder
  // ---------------------------------------------------------------------

  /**
   * `get_xerox_data` on the batch pickings of the day routes: the moves
   * reachable from them, the grouping loop filling the two dictionaries,
   * then the emission loop with its running index.
   */
  method XeroxData(batchpicks: seq<BatchPicking>) returns (report: seq<ReportLine>)
    ensures report == Report(ReachableMoves(batchpicks))
  {
    var moves := ReachableMoves(batchpicks);
    var g := GroupMoves(moves);
    AccumulateWf(moves);
    report := EmitReport(g);
  }

  /** The grouping loop over `moves`: the two ordered dictionaries of the source. */
  method GroupMoves(moves: seq<MoveLine>) returns (g: Grouping)
    ensures g == Accumulate(moves)
  {
    var keys: seq<Key> := [];
    var lines: map<Key, Accum> := map[];
    var sections: seq<CategId> := [];
    var names: map<CategId, string> := map[];
    var i := 0;
    while i < |moves|
      invariant 0 <= i <= |moves|
      invariant Grouping(keys, lines, sections, names) == Accumulate(moves[..i])
    {
      keys, lines, sections, names := GroupMove(keys, lines, sections, names, moves[i]);
      AccumulateSnoc(moves, i);
      i := i + 1;
    }
    assert moves[..i] == moves;
    g := Grouping(keys, lines, sections, names);
  }

  /** One iteration of the grouping loop: register the section, seed the line, add quantity and price. */
  method GroupMove(keys: seq<Key>, lines: map<Key, Accum>, sections: seq<CategId>, names: map<CategId, string>, m: MoveLine)
    returns (keys': seq<Key>, lines': map<Key, Accum>, sections': seq<CategId>, names': map<CategId, string>)
    ensures Grouping(keys', lines', sections', names') == Step(Grouping(keys, lines, sections, names), m)
  {
    keys', lines', sections', names' := keys, lines, sections, names;
    if m.categ !in names' {
      sections' := sections' + [m.categ];
      names' := names'[m.categ := SectionName(m)];
    }
    ghost var g1 := Grouping(keys', lines', sections', names');
    assert g1 == AddSection(Grouping(keys, lines, sections, names), m);
    var key := KeyOf(m);
    if key !in lines' {
      keys' := keys' + [key];
      lines' := lines'[key := Seed(m)];
    }
    assert Grouping(keys', lines', sections', names') == AddLine(g1, m);
    var a := lines'[key];
    lines' := lines'[key := a.(quantity := a.quantity + MoveQty(m),
                               price := Max(a.price, SalePrice(m)))];
  }

  /** The emission loop: header and lines per non-empty section, then the total, with a running index. */
  method EmitReport(g: Grouping) returns (report: seq<ReportLine>)
    requires SectionsNamed(g)
    ensures report == Numbered(Rows(g), 1)
  {
    report := [];
    var index := 1;
    var s := 0;
    while s < |g.sections|
      invariant 0 <= s <= |g.sections|
      invariant index == |report| + 1
      invariant report == Numbered(Blocks(g, g.sections[..s]), 1)
    {
      var c := g.sections[s];
      BlocksSnoc(g, g.sections, s);
      report, index := EmitSection(g, c, Blocks(g, g.sections[..s]), report, index);
      s := s + 1;
    }
    assert g.sections[..s] == g.sections;
    var total := TotalQuantity(g.lines, g.keys);
    NumberedSnoc(Blocks(g, g.sections), TotalRow(total), 1);
    report := report + [ReportLine(index, TotalRow(total))];
  }

  /** Emitting one more section appends that section's block. */
  lemma BlocksSnoc(g: Grouping, secs: seq<CategId>, s: nat)
    requires s < |secs| && forall c :: c in secs ==> c in g.names
    ensures Blocks(g, secs[..s + 1]) == Blocks(g, secs[..s]) + Block(g, secs[s])
  {
    assert secs[..s + 1][..s] == secs[..s];
  }

  /**
   * One turn of the emission loop: the section's lines, and when there are
   * any, its header followed by them, numbered on from `index`.
   */
  method EmitSection(g: Grouping, c: CategId, ghost done: seq<Row>, report: seq<ReportLine>, index: int)
    returns (report': seq<ReportLine>, index': int)
    requires c in g.names
    requires report == Numbered(done, 1) && index == |report| + 1
    ensures report' == Numbered(done + Block(g, c), 1) && index' == |report'| + 1
  {
    report', index' := report, index;
    var sectionLines := Members(g.lines, g.keys, c);
    if sectionLines != [] {
      var header := HeaderRow(c, g.names[c]);
      NumberedSnoc(done, header, 1);
      report' := report' + [ReportLine(index', header)];
      index' := index' + 1;
      report', index' := EmitLines(g.lines, sectionLines, done + [header], report', index');
      assert done + [header] + ProductRows(g.lines, sectionLines) == done + Block(g, c);
    } else {
      assert done + Block(g, c) == done;
    }
  }

  /** The inner loop: each line of the section numbered on from `index`. */
  method EmitLines(lines: map<Key, Accum>, ks: seq<Key>, ghost prefix: seq<Row>, report: seq<ReportLine>, index: int)
    returns (report': seq<ReportLine>, index': int)
    requires forall k :: k in ks ==> k in lines
    requires report == Numbered(prefix, 1) && index == |report| + 1
    ensures report' == Numbered(prefix + ProductRows(lines, ks), 1) && index' == |report'| + 1
  {
    report', index' := report, index;
    assert ks[..0] == [] && prefix + ProductRows(lines, ks[..0]) == prefix;
    for j := 0 to |ks|
      invariant index' == |report'| + 1
      invariant report' == Numbered(prefix + ProductRows(lines, ks[..j]), 1)
    {
      var k := ks[j];
      var row := ProductRow(k, lines[k]);
      ghost var sofar := prefix + ProductRows(lines, ks[..j]);
      ProductRowsSnoc(lines, ks, j);
      assert prefix + ProductRows(lines, ks[..j + 1]) == sofar + [row];
      NumberedSnoc(sofar, row, 1);
      report' := report' + [ReportLine(index', row)];
      index' := index' + 1;
    }
    assert ks[..|ks|] == ks;
  }

  lemma ProductRowsSnoc(lines: map<Key, Accum>, ks: seq<Key>, j: nat)
    requires j < |ks|
    requires forall k :: k in ks ==> k in lines
    ensures ProductRows(lines, ks[..j + 1]) == ProductRows(lines, ks[..j]) + [ProductRow(ks[j], lines[ks[j]])]
  {
    assert ks[..j + 1][..j] == ks[..j];
  }
}
