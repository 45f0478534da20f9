/** Costing of the upgrades an upgrade simulation proposes: transformers and lines
    priced from a unit-cost database (exact match on the deciding properties, else
    the row closest on one backup property), fixed costs from a miscellaneous
    database, and capacitor-controller changes priced from a controls database.
    Tables are sequences of records in row order; costs are reals. */
module CostComputation {
  import opened Wrappers
  import Seqs
  import Text
  import opened Extrema

  // ---------------------------------------------------------------------------
  // Output rows
  // ---------------------------------------------------------------------------

  /** The comment of a cost row: empty for an exact match, the closest-match note, or
      no comment column at all (the controller rows). */
  datatype Comment =
    | Blank
    | ClosestUsed(equipment: string, name: string, property: string)
    | Absent

  /** The text of the closest-match note up to the closest row's values, which are
      rendered by pandas and not modelled. */
  function CommentText(c: Comment): (s: string)
    ensures c.Blank? <==> s == ""
  {
    match c
    case Blank => ""
    case Absent => "nan"
    case ClosestUsed(equipment, name, property) =>
      equipment + " " + name + ": Exact cost not available. Unit cost for "
        + (if equipment == "Line" then "line" else "transformer")
        + " with these parameters used (based on closest " + property + ":"
  }

  datatype CostRow = CostRow(kind: string, count: int, totalCostUsd: real, comment: Comment)

  datatype CostError =
    | NoAddedUpgrades                  // no row left to cost: the output frame lacks its columns
    | EmptyCostDatabase                // `idxmin` over an empty database
    | UnknownLengthUnit(units: string) // the unit is not in the conversion table
    | MissingRowLabel(rowLabel: string)   // `.loc[rowLabel]` on the voltage upgrades
    | MissingControlCost(controlType: string) // `.values[0]` of an empty selection
    | MissingMiscCost(description: string)   // no miscellaneous row has the description
    | MissingColumn(column: string)    // selecting an output column that is not there

  /** The upgrade types that are costed. */
  const UpgradeType: string := "upgrade"
  const NewParallelType: string := "new (parallel)"

  function Abs(x: real): real {
    if x < 0.0 then -x else x
  }

  /** The position of the earliest database value closest to `target`: `idxmin` of the
      absolute differences. */
  function Closest(values: seq<real>, target: real): (k: nat)
    requires |values| > 0
    ensures k < |values|
    ensures forall i :: 0 <= i < |values| ==> Abs(values[k] - target) <= Abs(values[i] - target)
    ensures forall i :: 0 <= i < k ==> Abs(values[k] - target) < Abs(values[i] - target)
  {
    var distances := seq(|values|, i requires 0 <= i < |values| => Abs(values[i] - target));
    var keep := KeepAll(|values|);
    assert keep[0];
    var k := FirstBest(Smallest, distances, keep);
    assert forall i :: 0 <= i < |values| ==> keep[i] && distances[i] == Abs(values[i] - target);
    k
  }

  // ---------------------------------------------------------------------------
  // Transformers
  // ---------------------------------------------------------------------------

  datatype TransformerUpgrade = TransformerUpgrade(
    upgradeType: string, action: string, finalEquipmentName: string,
    ratedKva: real, phases: real, primaryKv: real, secondaryKv: real,
    primaryConnectionType: string, secondaryConnectionType: string, numWindings: real)

  datatype TransformerUnitCost = TransformerUnitCost(
    ratedKva: real, phases: real, primaryKv: real, secondaryKv: real,
    primaryConnectionType: string, secondaryConnectionType: string, numWindings: real,
    cost: real)

  /** A row of the miscellaneous database. */
  datatype MiscCost = MiscCost(description: string, totalCost: real)

  /** The numeric properties a closest match can be based on; `rated_kVA` by default. */
  datatype TransformerProperty = RatedKva | Phases | PrimaryKv | SecondaryKv | NumWindings

  function TransformerPropertyName(p: TransformerProperty): string {
    match p
    case RatedKva => "rated_kVA"
    case Phases => "phases"
    case PrimaryKv => "primary_kV"
    case SecondaryKv => "secondary_kV"
    case NumWindings => "num_windings"
  }

  function UpgradeProperty(u: TransformerUpgrade, p: TransformerProperty): real {
    match p
    case RatedKva => u.ratedKva
    case Phases => u.phases
    case PrimaryKv => u.primaryKv
    case SecondaryKv => u.secondaryKv
    case NumWindings => u.numWindings
  }

  function UnitCostProperty(c: TransformerUnitCost, p: TransformerProperty): real {
    match p
    case RatedKva => c.ratedKva
    case Phases => c.phases
    case PrimaryKv => c.primaryKv
    case SecondaryKv => c.secondaryKv
    case NumWindings => c.numWindings
  }

  predicate IsAddedTransformer(u: TransformerUpgrade) {
    (u.upgradeType == UpgradeType || u.upgradeType == NewParallelType) && u.action == "add"
  }

  /** The database row agrees with the transformer on all seven deciding properties. */
  predicate TransformerMatches(c: TransformerUnitCost, u: TransformerUpgrade) {
    && c.ratedKva == u.ratedKva && c.phases == u.phases
    && c.primaryKv == u.primaryKv && c.secondaryKv == u.secondaryKv
    && c.primaryConnectionType == u.primaryConnectionType
    && c.secondaryConnectionType == u.secondaryConnectionType
    && c.numWindings == u.numWindings
  }

  const ReplaceTransformerFixedCost: string := "Replace transformer (fixed cost)"
  const NewTransformerFixedCost: string := "Add new transformer (fixed cost)"

  /** The value of the first miscellaneous row with this description, if any. */
  function MiscTotal(misc: seq<MiscCost>, description: string): (r: Result<real, CostError>)
    ensures r.Ok? <==> exists i :: 0 <= i < |misc| && misc[i].description == description
    ensures r.Ok? ==> exists i :: (0 <= i < |misc| && misc[i] == MiscCost(description, r.value)
                                   && forall j :: 0 <= j < i ==> misc[j].description != description)
  {
    var i := Seqs.FirstIndex(misc, (m: MiscCost) => m.description == description);
    if i < |misc| then Ok(misc[i].totalCost) else Err(MissingMiscCost(description))
  }

  /** The fixed cost added to a transformer: the replacement cost for an upgrade, the
      new-transformer cost for a parallel one, and nothing when the database lacks it. */
  function FixedCost(misc: seq<MiscCost>, upgradeType: string): (cost: real)
    ensures |misc| == 0 ==> cost == 0.0
    ensures upgradeType == UpgradeType ==>
      cost == (if MiscTotal(misc, ReplaceTransformerFixedCost).Ok? then MiscTotal(misc, ReplaceTransformerFixedCost).value else 0.0)
    ensures upgradeType == NewParallelType ==>
      cost == (if MiscTotal(misc, NewTransformerFixedCost).Ok? then MiscTotal(misc, NewTransformerFixedCost).value else 0.0)
    ensures upgradeType != UpgradeType && upgradeType != NewParallelType ==> cost == 0.0
  {
    if |misc| == 0 then 0.0
    else
      var replace := MiscTotal(misc, ReplaceTransformerFixedCost);
      var addNew := MiscTotal(misc, NewTransformerFixedCost);
      if upgradeType == UpgradeType && replace.Ok? then replace.value
      else if upgradeType == NewParallelType && addNew.Ok? then addNew.value
      else 0.0
  }

  function TransformerDistance(c: TransformerUnitCost, u: TransformerUpgrade, backup: TransformerProperty): real {
    Abs(UnitCostProperty(c, backup) - UpgradeProperty(u, backup))
  }

  predicate HasTransformerMatch(db: seq<TransformerUnitCost>, u: TransformerUpgrade) {
    exists i :: 0 <= i < |db| && TransformerMatches(db[i], u)
  }

  /** Row `i` is the first database row matching the transformer exactly. */
  predicate IsFirstTransformerMatch(db: seq<TransformerUnitCost>, u: TransformerUpgrade, i: nat) {
    i < |db| && TransformerMatches(db[i], u) && forall j :: 0 <= j < i ==> !TransformerMatches(db[j], u)
  }

  /** Row `k` is the earliest database row closest to the transformer on the backup property. */
  predicate IsClosestTransformer(db: seq<TransformerUnitCost>, u: TransformerUpgrade, backup: TransformerProperty, k: nat) {
    && k < |db|
    && (forall i :: 0 <= i < |db| ==> TransformerDistance(db[k], u, backup) <= TransformerDistance(db[i], u, backup))
    && (forall i :: 0 <= i < k ==> TransformerDistance(db[k], u, backup) < TransformerDistance(db[i], u, backup))
  }

  function ClosestTransformer(db: seq<TransformerUnitCost>, u: TransformerUpgrade, backup: TransformerProperty): (k: nat)
    requires |db| > 0
    ensures IsClosestTransformer(db, u, backup, k)
  {
    var values := seq(|db|, i requires 0 <= i < |db| => UnitCostProperty(db[i], backup));
    var k := Closest(values, UpgradeProperty(u, backup));
    assert forall i :: 0 <= i < |db| ==> TransformerDistance(db[i], u, backup) == Abs(values[i] - UpgradeProperty(u, backup));
    k
  }

  /** There is one closest row: ties go to the earliest. */
  lemma ClosestTransformerUnique(db: seq<TransformerUnitCost>, u: TransformerUpgrade, backup: TransformerProperty, k1: nat, k2: nat)
    requires IsClosestTransformer(db, u, backup, k1) && IsClosestTransformer(db, u, backup, k2)
    ensures k1 == k2
  {
    assert TransformerDistance(db[k1], u, backup) == TransformerDistance(db[k2], u, backup);
  }

  /** `row` prices the transformer from the first exact match, or else from the closest
      row with a note, adding the fixed cost either way. */
  ghost predicate TransformerPriced(u: TransformerUpgrade, db: seq<TransformerUnitCost>, misc: seq<MiscCost>,
                              backup: TransformerProperty, row: CostRow) {
    && (HasTransformerMatch(db, u) ==>
          exists i: nat :: IsFirstTransformerMatch(db, u, i)
            && row == CostRow("Transformer", 1, db[i].cost + FixedCost(misc, u.upgradeType), Blank))
    && (!HasTransformerMatch(db, u) ==>
          exists k: nat :: IsClosestTransformer(db, u, backup, k)
            && row == CostRow("Transformer", 1, db[k].cost + FixedCost(misc, u.upgradeType),
                              ClosestUsed("Transformer", u.finalEquipmentName, TransformerPropertyName(backup))))
  }

  /** The cost row of one added transformer: the first exact match's cost, else the
      closest row's cost with a note, plus the fixed cost. */
  function TransformerCost(u: TransformerUpgrade, db: seq<TransformerUnitCost>, misc: seq<MiscCost>,
                           backup: TransformerProperty): (r: Result<CostRow, CostError>)
    ensures r.Err? <==> (|db| == 0)
    ensures r.Err? ==> r.error == EmptyCostDatabase
    ensures r.Ok? ==> r.value.kind == "Transformer" && r.value.count == 1
    ensures r.Ok? ==> TransformerPriced(u, db, misc, backup, r.value)
  {
    var exact := Seqs.FirstIndex(db, (c: TransformerUnitCost) => TransformerMatches(c, u));
    if exact < |db| then
      assert IsFirstTransformerMatch(db, u, exact);
      Ok(CostRow("Transformer", 1, db[exact].cost + FixedCost(misc, u.upgradeType), Blank))
    else if |db| == 0 then
      Err(EmptyCostDatabase)
    else
      var k := ClosestTransformer(db, u, backup);
      Ok(CostRow("Transformer", 1, db[k].cost + FixedCost(misc, u.upgradeType),
                 ClosestUsed("Transformer", u.finalEquipmentName, TransformerPropertyName(backup))))
  }

  /** The cost rows of the given transformers, in order; the first failure stops it. */
  function TransformerCostRows(added: seq<TransformerUpgrade>, db: seq<TransformerUnitCost>, misc: seq<MiscCost>,
                               backup: TransformerProperty): (r: Result<seq<CostRow>, CostError>)
    ensures r.Ok? ==> |r.value| == |added|
    ensures r.Ok? ==> forall i :: 0 <= i < |added| ==> TransformerCost(added[i], db, misc, backup) == Ok(r.value[i])
    ensures r.Err? ==> r.error == EmptyCostDatabase
    decreases |added|
  {
    if |added| == 0 then Ok([])
    else
      var n := |added| - 1;
      var rows :- TransformerCostRows(added[..n], db, misc, backup);
      var row :- TransformerCost(added[n], db, misc, backup);
      Ok(rows + [row])
  }

  /** Pricing a list of transformers fails exactly when there is one and the database is empty. */
  lemma {:induction false} TransformerRowsFail(added: seq<TransformerUpgrade>, db: seq<TransformerUnitCost>, misc: seq<MiscCost>,
                                               backup: TransformerProperty)
    ensures TransformerCostRows(added, db, misc, backup).Err? <==> |added| > 0 && |db| == 0
    decreases |added|
  {
    if |added| > 0 {
      TransformerRowsFail(added[..|added| - 1], db, misc, backup);
    }
  }

  /** The costed transformers: the added upgrades, each priced; no added upgrade is an error. */
  function TransformerCostsOf(upgrades: seq<TransformerUpgrade>, db: seq<TransformerUnitCost>, misc: seq<MiscCost>,
                              backup: TransformerProperty): Result<seq<CostRow>, CostError>
  {
    var added := Seqs.Filter(upgrades, IsAddedTransformer);
    if |added| == 0 then Err(NoAddedUpgrades) else TransformerCostRows(added, db, misc, backup)
  }

  lemma TransformerRowsSnoc(xs: seq<TransformerUpgrade>, x: TransformerUpgrade, db: seq<TransformerUnitCost>,
                            misc: seq<MiscCost>, backup: TransformerProperty, rows: seq<CostRow>)
    requires TransformerCostRows(xs, db, misc, backup) == Ok(rows) && TransformerCost(x, db, misc, backup).Ok?
    ensures TransformerCostRows(xs + [x], db, misc, backup) == Ok(rows + [TransformerCost(x, db, misc, backup).value])
  {
    assert (xs + [x])[..|xs|] == xs;
  }

  /** One pass of the costing loop: a skipped upgrade leaves the rows as they are, a
      priced one appends its row. */
  lemma TransformerLoopStep(upgrades: seq<TransformerUpgrade>, i: nat, db: seq<TransformerUnitCost>,
                            misc: seq<MiscCost>, backup: TransformerProperty, computed: seq<CostRow>)
    requires i < |upgrades|
    requires TransformerCostRows(Seqs.Filter(upgrades[..i], IsAddedTransformer), db, misc, backup) == Ok(computed)
    ensures !IsAddedTransformer(upgrades[i]) ==>
      TransformerCostRows(Seqs.Filter(upgrades[..i + 1], IsAddedTransformer), db, misc, backup) == Ok(computed)
    ensures IsAddedTransformer(upgrades[i]) && TransformerCost(upgrades[i], db, misc, backup).Ok? ==>
      TransformerCostRows(Seqs.Filter(upgrades[..i + 1], IsAddedTransformer), db, misc, backup)
        == Ok(computed + [TransformerCost(upgrades[i], db, misc, backup).value])
  {
    Seqs.FilterPrefixStep(upgrades, i, IsAddedTransformer);
    if IsAddedTransformer(upgrades[i]) && TransformerCost(upgrades[i], db, misc, backup).Ok? {
      TransformerRowsSnoc(Seqs.Filter(upgrades[..i], IsAddedTransformer), upgrades[i], db, misc, backup, computed);
    }
  }

  /** A transformer that cannot be priced makes the whole costing fail with its error. */
  lemma TransformerErrorIsFinal(upgrades: seq<TransformerUpgrade>, i: nat, db: seq<TransformerUnitCost>,
                                misc: seq<MiscCost>, backup: TransformerProperty)
    requires i < |upgrades| && IsAddedTransformer(upgrades[i]) && TransformerCost(upgrades[i], db, misc, backup).Err?
    ensures TransformerCostsOf(upgrades, db, misc, backup) == Err(TransformerCost(upgrades[i], db, misc, backup).error)
  {
    Seqs.FilterSplit(upgrades, i + 1, IsAddedTransformer);
    Seqs.FilterPrefixStep(upgrades, i, IsAddedTransformer);
    TransformerRowsFail(Seqs.Filter(upgrades, IsAddedTransformer), db, misc, backup);
  }

  /** Row by row over the upgrades: skip the ones not added, price the others; the
      first failure ends it. */
  method ComputeTransformerCosts(upgrades: seq<TransformerUpgrade>, db: seq<TransformerUnitCost>, misc: seq<MiscCost>,
                                 backup: TransformerProperty) returns (r: Result<seq<CostRow>, CostError>)
    ensures r == TransformerCostsOf(upgrades, db, misc, backup)
  {
    var computed: seq<CostRow> := [];
    for i := 0 to |upgrades|
      invariant TransformerCostRows(Seqs.Filter(upgrades[..i], IsAddedTransformer), db, misc, backup) == Ok(computed)
    {
      var u := upgrades[i];
      TransformerLoopStep(upgrades, i, db, misc, backup, computed);
      if !IsAddedTransformer(u) {
        continue;
      }
      var row := TransformerCost(u, db, misc, backup);
      if row.Err? {
        TransformerErrorIsFinal(upgrades, i, db, misc, backup);
        return Err(row.error);
      }
      computed := computed + [row.value];
    }
    TransformerRowsComplete(upgrades, db, misc, backup, computed);
    if |computed| == 0 {
      return Err(NoAddedUpgrades);
    }
    r := Ok(computed);
  }

  lemma TransformerRowsComplete(upgrades: seq<TransformerUpgrade>, db: seq<TransformerUnitCost>, misc: seq<MiscCost>,
                                backup: TransformerProperty, computed: seq<CostRow>)
    requires TransformerCostRows(Seqs.Filter(upgrades[..|upgrades|], IsAddedTransformer), db, misc, backup) == Ok(computed)
    ensures TransformerCostsOf(upgrades, db, misc, backup) == if |computed| == 0 then Err(NoAddedUpgrades) else Ok(computed)
  {
    assert upgrades[..|upgrades|] == upgrades;
  }

  /** The costing succeeds exactly when some upgrade adds a transformer and the database
      has rows; it then prices each added upgrade once, with count one. */
  lemma TransformerCostsCountAdded(upgrades: seq<TransformerUpgrade>, db: seq<TransformerUnitCost>, misc: seq<MiscCost>,
                                   backup: TransformerProperty)
    ensures TransformerCostsOf(upgrades, db, misc, backup).Ok? <==>
      (exists i :: 0 <= i < |upgrades| && IsAddedTransformer(upgrades[i])) && |db| > 0
    ensures TransformerCostsOf(upgrades, db, misc, backup).Ok? ==>
      var rows := TransformerCostsOf(upgrades, db, misc, backup).value;
      |rows| == |Seqs.Filter(upgrades, IsAddedTransformer)|
        && forall i :: 0 <= i < |rows| ==> rows[i].count == 1 && rows[i].kind == "Transformer"
  {
    var added := Seqs.Filter(upgrades, IsAddedTransformer);
    var anyAdded := exists i :: 0 <= i < |upgrades| && IsAddedTransformer(upgrades[i]);
    if anyAdded {
      var i :| 0 <= i < |upgrades| && IsAddedTransformer(upgrades[i]);
      assert upgrades[i] in added;
    }
    if |added| > 0 {
      assert added[0] in upgrades && IsAddedTransformer(added[0]);
      var j :| 0 <= j < |upgrades| && upgrades[j] == added[0];
      assert IsAddedTransformer(upgrades[j]);
    }
    assert anyAdded <==> |added| > 0;
    TransformerRowsFail(added, db, misc, backup);
    var r := TransformerCostRows(added, db, misc, backup);
    if r.Ok? {
      forall i | 0 <= i < |r.value|
        ensures r.value[i].count == 1 && r.value[i].kind == "Transformer"
      {
        assert TransformerCost(added[i], db, misc, backup) == Ok(r.value[i]);
      }
    }
  }

  // ---------------------------------------------------------------------------
  // Lines
  // ---------------------------------------------------------------------------

  datatype LineUpgrade = LineUpgrade(
    upgradeType: string, action: string, finalEquipmentName: string,
    phases: real, voltageKv: real, ampereRating: real, linePlacement: string,
    length: real, units: string)

  datatype LineUnitCost = LineUnitCost(
    phases: real, voltageKv: real, ampereRating: real, linePlacement: string,
    description: string, costPerM: real)

  /** The numeric properties a closest line match can be based on; `ampere_rating` by default. */
  datatype LineProperty = LinePhases | VoltageKv | AmpereRating

  function LinePropertyName(p: LineProperty): string {
    match p
    case LinePhases => "phases"
    case VoltageKv => "voltage_kV"
    case AmpereRating => "ampere_rating"
  }

  function LineUpgradeProperty(u: LineUpgrade, p: LineProperty): real {
    match p
    case LinePhases => u.phases
    case VoltageKv => u.voltageKv
    case AmpereRating => u.ampereRating
  }

  function LineUnitCostProperty(c: LineUnitCost, p: LineProperty): real {
    match p
    case LinePhases => c.phases
    case VoltageKv => c.voltageKv
    case AmpereRating => c.ampereRating
  }

  predicate IsAddedLine(u: LineUpgrade) {
    (u.upgradeType == UpgradeType || u.upgradeType == NewParallelType) && u.action == "add"
  }

  /** Upgraded lines are priced as reconductored, every other line as new. */
  function LineDescription(upgradeType: string): (d: string)
    ensures d == "reconductored_line" <==> upgradeType == UpgradeType
    ensures d == "reconductored_line" || d == "new_line"
  {
    if upgradeType == UpgradeType then "reconductored_line" else "new_line"
  }

  predicate LineMatches(c: LineUnitCost, u: LineUpgrade) {
    && c.phases == u.phases && c.voltageKv == u.voltageKv
    && c.ampereRating == u.ampereRating && c.linePlacement == u.linePlacement
    && c.description == LineDescription(u.upgradeType)
  }

  /** Metres per unit of each length unit the solver can report. */
  const LengthConversionToMetre: map<string, real> := map[
    "mi" := 1609.34, "kft" := 304.8, "km" := 1000.0, "ft" := 0.3048,
    "in" := 0.0254, "cm" := 0.01, "m" := 1.0]

  /** The line length in metres; an unknown unit is a `KeyError`. */
  function LengthInMetres(length: real, units: string): (r: Result<real, CostError>)
    ensures r.Err? <==> units !in LengthConversionToMetre
    ensures r.Err? ==> r.error == UnknownLengthUnit(units)
    ensures r.Ok? ==> r.value == length * LengthConversionToMetre[units]
  {
    if units in LengthConversionToMetre then Ok(length * LengthConversionToMetre[units])
    else Err(UnknownLengthUnit(units))
  }

  /** A thousand feet is a thousand times a foot, and a kilometre a thousand metres. */
  lemma LengthConversionScales(length: real)
    ensures LengthInMetres(length, "kft").value == 1000.0 * LengthInMetres(length, "ft").value
    ensures LengthInMetres(length, "km").value == 1000.0 * LengthInMetres(length, "m").value
    ensures LengthInMetres(length, "m").value == length
  {
  }

  function LineDistance(c: LineUnitCost, u: LineUpgrade, backup: LineProperty): real {
    Abs(LineUnitCostProperty(c, backup) - LineUpgradeProperty(u, backup))
  }

  predicate HasLineMatch(db: seq<LineUnitCost>, u: LineUpgrade) {
    exists i :: 0 <= i < |db| && LineMatches(db[i], u)
  }

  predicate IsFirstLineMatch(db: seq<LineUnitCost>, u: LineUpgrade, i: nat) {
    i < |db| && LineMatches(db[i], u) && forall j :: 0 <= j < i ==> !LineMatches(db[j], u)
  }

  predicate IsClosestLine(db: seq<LineUnitCost>, u: LineUpgrade, backup: LineProperty, k: nat) {
    && k < |db|
    && (forall i :: 0 <= i < |db| ==> LineDistance(db[k], u, backup) <= LineDistance(db[i], u, backup))
    && (forall i :: 0 <= i < k ==> LineDistance(db[k], u, backup) < LineDistance(db[i], u, backup))
  }

  function ClosestLine(db: seq<LineUnitCost>, u: LineUpgrade, backup: LineProperty): (k: nat)
    requires |db| > 0
    ensures IsClosestLine(db, u, backup, k)
  {
    var values := seq(|db|, i requires 0 <= i < |db| => LineUnitCostProperty(db[i], backup));
    var k := Closest(values, LineUpgradeProperty(u, backup));
    assert forall i :: 0 <= i < |db| ==> LineDistance(db[i], u, backup) == Abs(values[i] - LineUpgradeProperty(u, backup));
    k
  }

  /** `row` prices the line at `lengthM` metres, from the first exact match or else from
      the closest row with a note. */
  ghost predicate LinePriced(u: LineUpgrade, db: seq<LineUnitCost>, backup: LineProperty, lengthM: real, row: CostRow) {
    && (HasLineMatch(db, u) ==>
          exists i: nat :: IsFirstLineMatch(db, u, i)
            && row == CostRow("Line", 1, db[i].costPerM * lengthM, Blank))
    && (!HasLineMatch(db, u) ==>
          exists k: nat :: IsClosestLine(db, u, backup, k)
            && row == CostRow("Line", 1, db[k].costPerM * lengthM,
                              ClosestUsed("Line", u.finalEquipmentName, LinePropertyName(backup))))
  }

  /** The cost row of a line of `lengthM` metres. */
  function LineRow(u: LineUpgrade, db: seq<LineUnitCost>, backup: LineProperty, lengthM: real): (row: CostRow)
    requires |db| > 0
    ensures row.kind == "Line" && row.count == 1
    ensures LinePriced(u, db, backup, lengthM, row)
  {
    var exact := Seqs.FirstIndex(db, (c: LineUnitCost) => LineMatches(c, u));
    if exact < |db| then
      assert IsFirstLineMatch(db, u, exact);
      LineExactPriced(u, db, backup, lengthM, exact);
      CostRow("Line", 1, db[exact].costPerM * lengthM, Blank)
    else
      assert forall j :: 0 <= j < |db| ==> !LineMatches(db[j], u);
      var k := ClosestLine(db, u, backup);
      LineClosestPriced(u, db, backup, lengthM, k);
      CostRow("Line", 1, db[k].costPerM * lengthM, ClosestUsed("Line", u.finalEquipmentName, LinePropertyName(backup)))
  }

  lemma LineExactPriced(u: LineUpgrade, db: seq<LineUnitCost>, backup: LineProperty, lengthM: real, i: nat)
    requires IsFirstLineMatch(db, u, i)
    ensures LinePriced(u, db, backup, lengthM, CostRow("Line", 1, db[i].costPerM * lengthM, Blank))
  {
    assert HasLineMatch(db, u);
  }

  lemma LineClosestPriced(u: LineUpgrade, db: seq<LineUnitCost>, backup: LineProperty, lengthM: real, k: nat)
    requires !HasLineMatch(db, u) && IsClosestLine(db, u, backup, k)
    ensures LinePriced(u, db, backup, lengthM, CostRow("Line", 1, db[k].costPerM * lengthM,
                                                       ClosestUsed("Line", u.finalEquipmentName, LinePropertyName(backup))))
  {
  }

  /** The cost row of one added line: unit cost per metre times length in metres. The
      length unit is converted before any database row is looked at, and an empty
      database has no closest row. */
  function LineCost(u: LineUpgrade, db: seq<LineUnitCost>, backup: LineProperty): (r: Result<CostRow, CostError>)
    ensures r.Err? <==> LengthInMetres(u.length, u.units).Err? || |db| == 0
    ensures LengthInMetres(u.length, u.units).Err? ==> r == Err(LengthInMetres(u.length, u.units).error)
    ensures r.Ok? ==> r.value.kind == "Line" && r.value.count == 1
    ensures r.Ok? ==> (LengthInMetres(u.length, u.units).Ok?
                       && LinePriced(u, db, backup, LengthInMetres(u.length, u.units).value, r.value))
  {
    var length := LengthInMetres(u.length, u.units);
    if length.Err? then Err(length.error)
    else if |db| == 0 then Err(EmptyCostDatabase)
    else Ok(LineRow(u, db, backup, length.value))
  }

  function LineCostRows(added: seq<LineUpgrade>, db: seq<LineUnitCost>, backup: LineProperty): (r: Result<seq<CostRow>, CostError>)
    ensures r.Ok? ==> |r.value| == |added|
    ensures r.Ok? ==> forall i :: 0 <= i < |added| ==> LineCost(added[i], db, backup) == Ok(r.value[i])
    ensures r.Ok? <==> forall i :: 0 <= i < |added| ==> LineCost(added[i], db, backup).Ok?
    decreases |added|
  {
    if |added| == 0 then Ok([])
    else
      var n := |added| - 1;
      var rows :- LineCostRows(added[..n], db, backup);
      var row :- LineCost(added[n], db, backup);
      Ok(rows + [row])
  }

  function LineCostsOf(upgrades: seq<LineUpgrade>, db: seq<LineUnitCost>, backup: LineProperty): Result<seq<CostRow>, CostError> {
    var added := Seqs.Filter(upgrades, IsAddedLine);
    if |added| == 0 then Err(NoAddedUpgrades) else LineCostRows(added, db, backup)
  }

  lemma LineRowsSnoc(xs: seq<LineUpgrade>, x: LineUpgrade, db: seq<LineUnitCost>, backup: LineProperty, rows: seq<CostRow>)
    requires LineCostRows(xs, db, backup) == Ok(rows) && LineCost(x, db, backup).Ok?
    ensures LineCostRows(xs + [x], db, backup) == Ok(rows + [LineCost(x, db, backup).value])
  {
    assert (xs + [x])[..|xs|] == xs;
  }

  /** Once a line fails to be priced, no later line changes the outcome. */
  lemma {:induction false} LineRowsErrorPersists(xs: seq<LineUpgrade>, ys: seq<LineUpgrade>, db: seq<LineUnitCost>, backup: LineProperty)
    requires LineCostRows(xs, db, backup).Err?
    ensures LineCostRows(xs + ys, db, backup) == LineCostRows(xs, db, backup)
    decreases |ys|
  {
    if |ys| == 0 {
      assert xs + ys == xs;
    } else {
      var n := |ys| - 1;
      assert (xs + ys)[..|xs| + n] == xs + ys[..n];
      LineRowsErrorPersists(xs, ys[..n], db, backup);
    }
  }

  lemma LineLoopStep(upgrades: seq<LineUpgrade>, i: nat, db: seq<LineUnitCost>, backup: LineProperty, computed: seq<CostRow>)
    requires i < |upgrades|
    requires LineCostRows(Seqs.Filter(upgrades[..i], IsAddedLine), db, backup) == Ok(computed)
    ensures !IsAddedLine(upgrades[i]) ==>
      LineCostRows(Seqs.Filter(upgrades[..i + 1], IsAddedLine), db, backup) == Ok(computed)
    ensures IsAddedLine(upgrades[i]) && LineCost(upgrades[i], db, backup).Ok? ==>
      LineCostRows(Seqs.Filter(upgrades[..i + 1], IsAddedLine), db, backup) == Ok(computed + [LineCost(upgrades[i], db, backup).value])
  {
    Seqs.FilterPrefixStep(upgrades, i, IsAddedLine);
    if IsAddedLine(upgrades[i]) && LineCost(upgrades[i], db, backup).Ok? {
      LineRowsSnoc(Seqs.Filter(upgrades[..i], IsAddedLine), upgrades[i], db, backup, computed);
    }
  }

  /** The first line that cannot be priced makes the whole costing fail with its error. */
  lemma LineErrorIsFinal(upgrades: seq<LineUpgrade>, i: nat, db: seq<LineUnitCost>, backup: LineProperty)
    requires i < |upgrades| && IsAddedLine(upgrades[i]) && LineCost(upgrades[i], db, backup).Err?
    requires LineCostRows(Seqs.Filter(upgrades[..i], IsAddedLine), db, backup).Ok?
    ensures LineCostsOf(upgrades, db, backup) == Err(LineCost(upgrades[i], db, backup).error)
  {
    var before := Seqs.Filter(upgrades[..i], IsAddedLine);
    Seqs.FilterPrefixStep(upgrades, i, IsAddedLine);
    Seqs.FilterSplit(upgrades, i + 1, IsAddedLine);
    assert (before + [upgrades[i]])[..|before|] == before;
    assert LineCostRows(before + [upgrades[i]], db, backup) == Err(LineCost(upgrades[i], db, backup).error);
    LineRowsErrorPersists(before + [upgrades[i]], Seqs.Filter(upgrades[i + 1..], IsAddedLine), db, backup);
  }

  /** Row by row over the upgrades: skip the ones not added, price the others; the
      first failure ends it. */
  method ComputeLineCosts(upgrades: seq<LineUpgrade>, db: seq<LineUnitCost>, backup: LineProperty)
    returns (r: Result<seq<CostRow>, CostError>)
    ensures r == LineCostsOf(upgrades, db, backup)
  {
    var computed: seq<CostRow> := [];
    for i := 0 to |upgrades|
      invariant LineCostRows(Seqs.Filter(upgrades[..i], IsAddedLine), db, backup) == Ok(computed)
    {
      var u := upgrades[i];
      LineLoopStep(upgrades, i, db, backup, computed);
      if !IsAddedLine(u) {
        continue;
      }
      var row := LineCost(u, db, backup);
      if row.Err? {
        LineErrorIsFinal(upgrades, i, db, backup);
        return Err(row.error);
      }
      computed := computed + [row.value];
    }
    assert upgrades[..|upgrades|] == upgrades;
    if |computed| == 0 {
      return Err(NoAddedUpgrades);
    }
    r := Ok(computed);
  }

  // ---------------------------------------------------------------------------
  // Capacitor controllers
  // ---------------------------------------------------------------------------

  /** One column of the voltage-upgrade table: an equipment name and a count per row label. */
  datatype VoltageColumn = VoltageColumn(name: string, counts: seq<int>)

  datatype VoltageUpgrades = VoltageUpgrades(rowLabels: seq<string>, columns: seq<VoltageColumn>)

  /** Every column has a count for every row label, and the labels are distinct. */
  predicate WellFormedVoltageUpgrades(v: VoltageUpgrades) {
    && (forall c :: c in v.columns ==> |c.counts| == |v.rowLabels|)
    && (forall i, j :: 0 <= i < j < |v.rowLabels| ==> v.rowLabels[i] != v.rowLabels[j])
  }

  datatype ControlCost = ControlCost(controlType: string, cost: real)

  const NewCapControllerLabel: string := "New controller added"
  const CapSettingChangeLabel: string := "Controller settings modified"
  const NewCapControllerType: string := "Add new capacitor controller"
  const CapSettingChangeType: string := "Change capacitor controller settings"

  predicate IsCapacitorColumn(c: VoltageColumn) {
    Text.Contains(c.name, "Capacitor")
  }

  /** The two controller rows with nothing to cost. */
  function ZeroCapRows(): seq<CostRow> {
    [CostRow("New capacitor controller", 0, 0.0, Absent), CostRow("Capacitor controller setting change", 0, 0.0, Absent)]
  }

  /** The sum over the columns of the counts at row `k`. */
  function RowSum(columns: seq<VoltageColumn>, k: nat): int
    requires forall c :: c in columns ==> k < |c.counts|
    decreases |columns|
  {
    if |columns| == 0 then 0 else columns[0].counts[k] + RowSum(columns[1..], k)
  }

  /** `frame.loc[rowLabel].sum()` over the given columns. */
  function LabelCount(v: VoltageUpgrades, columns: seq<VoltageColumn>, rowLabel: string): (r: Result<int, CostError>)
    requires forall c :: c in columns ==> |c.counts| == |v.rowLabels|
    ensures r.Err? <==> rowLabel !in v.rowLabels
    ensures r.Err? ==> r.error == MissingRowLabel(rowLabel)
    ensures r.Ok? ==> exists k :: 0 <= k < |v.rowLabels| && v.rowLabels[k] == rowLabel && r.value == RowSum(columns, k)
  {
    if rowLabel in v.rowLabels then
      var k := Seqs.FirstIndex(v.rowLabels, (l: string) => l == rowLabel);
      Ok(RowSum(columns, k))
    else Err(MissingRowLabel(rowLabel))
  }

  /** The unit cost of the first controls-database row of a type. */
  function ControlUnitCost(db: seq<ControlCost>, controlType: string): (r: Result<real, CostError>)
    ensures r.Err? <==> forall i :: 0 <= i < |db| ==> db[i].controlType != controlType
    ensures r.Err? ==> r.error == MissingControlCost(controlType)
    ensures r.Ok? ==> exists i :: (0 <= i < |db| && db[i] == ControlCost(controlType, r.value)
                                   && forall j :: 0 <= j < i ==> db[j].controlType != controlType)
  {
    var i := Seqs.FirstIndex(db, (c: ControlCost) => c.controlType == controlType);
    if i < |db| then Ok(db[i].cost) else Err(MissingControlCost(controlType))
  }

  /** The counts and unit costs the controller rows are made of, when they can be looked up. */
  datatype CapCounts = CapCounts(countNew: int, unitNew: real, countChange: int, unitChange: real)

  function CapControlCounts(v: VoltageUpgrades, db: seq<ControlCost>): (r: Result<CapCounts, CostError>)
    requires WellFormedVoltageUpgrades(v)
  {
    var caps := Seqs.Filter(v.columns, IsCapacitorColumn);
    var countNew :- LabelCount(v, caps, NewCapControllerLabel);
    var unitNew :- ControlUnitCost(db, NewCapControllerType);
    var countChange :- LabelCount(v, caps, CapSettingChangeLabel);
    var unitChange :- ControlUnitCost(db, CapSettingChangeType);
    Ok(CapCounts(countNew, unitNew, countChange, unitChange))
  }

  /** The controller rows: each count priced at its unit cost. */
  function ControllerRows(c: CapCounts): seq<CostRow> {
    [CostRow("new capacitor controller", c.countNew, c.countNew as real * c.unitNew, Absent),
     CostRow("capacitor controller setting changes", c.countChange, c.countChange as real * c.unitChange, Absent)]
  }

  /** The voltage upgrades have no capacitor entries: no rows, or no column naming a capacitor. */
  predicate NoCapacitorUpgrades(v: VoltageUpgrades) {
    |v.rowLabels| == 0 || |Seqs.Filter(v.columns, IsCapacitorColumn)| == 0
  }

  /** `compute_capcontrol_cost` as written: the rows it builds have no "comment"
      column, so selecting the output columns fails whenever there is something to cost. */
  function CapControlCostAsWritten(v: VoltageUpgrades, db: seq<ControlCost>): (r: Result<seq<CostRow>, CostError>)
    requires WellFormedVoltageUpgrades(v)
    ensures NoCapacitorUpgrades(v) ==> r == Ok(ZeroCapRows())
    ensures !NoCapacitorUpgrades(v) ==> r.Err?
  {
    if NoCapacitorUpgrades(v) then Ok(ZeroCapRows())
    else
      var _ :- CapControlCounts(v, db);
      Err(MissingColumn("comment"))
  }

  /** The controller costs as intended: a row for new controllers and one for setting
      changes, each totalling its count times its unit cost. */
  function CapControlCost(v: VoltageUpgrades, db: seq<ControlCost>): (r: Result<seq<CostRow>, CostError>)
    requires WellFormedVoltageUpgrades(v)
    ensures NoCapacitorUpgrades(v) ==> r == Ok(ZeroCapRows())
    ensures !NoCapacitorUpgrades(v) ==> (r.Ok? <==> CapControlCounts(v, db).Ok?)
    ensures r.Ok? ==> |r.value| == 2
    ensures r.Ok? && NoCapacitorUpgrades(v) ==> forall i :: 0 <= i < |r.value| ==> r.value[i].count == 0 && r.value[i].totalCostUsd == 0.0
    ensures r.Ok? && !NoCapacitorUpgrades(v) ==> (
      var c := CapControlCounts(v, db).value;
      && r.value[0].count == c.countNew && r.value[0].totalCostUsd == c.countNew as real * c.unitNew
      && r.value[1].count == c.countChange && r.value[1].totalCostUsd == c.countChange as real * c.unitChange)

  {
    if NoCapacitorUpgrades(v) then Ok(ZeroCapRows())
    else
      var c :- CapControlCounts(v, db);
      Ok(ControllerRows(c))
  }

  /** The row sums of joined column lists add up. */
  lemma {:induction false} RowSumAppend(a: seq<VoltageColumn>, b: seq<VoltageColumn>, k: nat)
    requires forall c :: c in a + b ==> k < |c.counts|
    ensures forall c :: c in a ==> k < |c.counts|
    ensures forall c :: c in b ==> k < |c.counts|
    ensures RowSum(a + b, k) == RowSum(a, k) + RowSum(b, k)
    decreases |a|
  {
    assert forall c :: c in a ==> c in a + b;
    assert forall c :: c in b ==> c in a + b;
    if |a| > 0 {
      assert (a + b)[1..] == a[1..] + b;
      assert forall c :: c in a[1..] ==> c in a;
      RowSumAppend(a[1..], b, k);
    } else {
      assert a + b == b;
    }
  }

  /** Columns that do not name a capacitor never change the controller counts. */
  lemma {:induction false} OtherColumnsIgnored(v: VoltageUpgrades, extra: VoltageColumn, db: seq<ControlCost>)
    requires WellFormedVoltageUpgrades(v) && |extra.counts| == |v.rowLabels| && !IsCapacitorColumn(extra)
    ensures WellFormedVoltageUpgrades(VoltageUpgrades(v.rowLabels, v.columns + [extra]))
    ensures CapControlCost(VoltageUpgrades(v.rowLabels, v.columns + [extra]), db) == CapControlCost(v, db)
  {
    var w := VoltageUpgrades(v.rowLabels, v.columns + [extra]);
    Seqs.FilterSnoc(v.columns, extra, IsCapacitorColumn);
    assert Seqs.Filter(v.columns, IsCapacitorColumn) + [] == Seqs.Filter(v.columns, IsCapacitorColumn);
    assert Seqs.Filter(w.columns, IsCapacitorColumn) == Seqs.Filter(v.columns, IsCapacitorColumn);
    assert CapControlCounts(w, db) == CapControlCounts(v, db);
    assert NoCapacitorUpgrades(w) == NoCapacitorUpgrades(v);
  }

  /** An example the source gets wrong: one capacitor column with one new controller
      and one settings change, both priced in the database. */
  function ExampleCapUpgrades(): VoltageUpgrades {
    VoltageUpgrades([NewCapControllerLabel, CapSettingChangeLabel], [VoltageColumn("Capacitor.cap1", [1, 1])])
  }

  function ExampleControlCosts(): seq<ControlCost> {
    [ControlCost(NewCapControllerType, 500.0), ControlCost(CapSettingChangeType, 50.0)]
  }

  lemma CapControlAsWrittenFails()
    ensures WellFormedVoltageUpgrades(ExampleCapUpgrades())
    ensures CapControlCostAsWritten(ExampleCapUpgrades(), ExampleControlCosts()) == Err(MissingColumn("comment"))
    ensures CapControlCost(ExampleCapUpgrades(), ExampleControlCosts()) ==
      Ok([CostRow("new capacitor controller", 1, 500.0, Absent),
          CostRow("capacitor controller setting changes", 1, 50.0, Absent)])
  {
    var v := ExampleCapUpgrades();
    var col := v.columns[0];
    assert "Capacitor" <= col.name;
    assert IsCapacitorColumn(col);
    assert Seqs.Filter(v.columns, IsCapacitorColumn) == v.columns;
    assert Seqs.FirstIndex(v.rowLabels, (l: string) => l == NewCapControllerLabel) == 0;
    assert v.rowLabels[1] == CapSettingChangeLabel;
    assert Seqs.FirstIndex(v.rowLabels, (l: string) => l == CapSettingChangeLabel) == 1;
    assert RowSum(v.columns, 0) == 1 && RowSum(v.columns, 1) == 1;
  }

  // ---------------------------------------------------------------------------
  // Totals
  // ---------------------------------------------------------------------------

  /** The total cost table: the thermal rows followed by the voltage rows. */
  function TotalCosts(thermal: seq<CostRow>, voltage: seq<CostRow>): (r: seq<CostRow>)
    ensures |r| == |thermal| + |voltage|
    ensures r[..|thermal|] == thermal && r[|thermal|..] == voltage
  {
    thermal + voltage
  }

  function SumCosts(rows: seq<CostRow>): real
    decreases |rows|
  {
    if |rows| == 0 then 0.0 else rows[0].totalCostUsd + SumCosts(rows[1..])
  }

  /** Appending the tables adds their costs: nothing is dropped or counted twice. */
  lemma {:induction false} TotalCostsSum(thermal: seq<CostRow>, voltage: seq<CostRow>)
    ensures SumCosts(TotalCosts(thermal, voltage)) == SumCosts(thermal) + SumCosts(voltage)
    decreases |thermal|
  {
    if |thermal| > 0 {
      assert (thermal + voltage)[1..] == thermal[1..] + voltage;
      TotalCostsSum(thermal[1..], voltage);
    } else {
      assert thermal + voltage == voltage;
    }
  }
}
