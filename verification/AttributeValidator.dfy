/**
 Attribute validation of a data frame: required fields, plausible ranges, timestamps and
 duplicates, all of which put rows on one quarantine list.

 A cell carries what the data frame library reads off it by itself: a value to compare by
 and the number it can be taken for, if any. Times it reads a column at a time, so that what
 a cell is read as may depend on the rows around it; the reader is a parameter.
 */
module AttributeValidator {
  import opened Prelude

  /** 2024-01-01 in UTC, in seconds. */
  const PLATFORM_START_DATE := 1704067200.0
  const MAX_FUTURE_SECONDS := 300.0

  datatype Bound = Bound(column: string, lo: real, hi: real)

  const ATTRIBUTE_BOUNDS := [
    Bound("precipitation_mm", 0.0, 500.0),
    Bound("temperature_c", -50.0, 60.0),
    Bound("wind_speed_ms", 0.0, 80.0),
    Bound("soil_moisture_pct", 0.0, 100.0),
    Bound("river_level_m", 0.0, 30.0),
    Bound("magnitude", 0.0, 10.0),
    Bound("depth_km", 0.0, 700.0),
    Bound("severity", 1.0, 5.0),
    Bound("affected_population", 0.0, 10000000.0)
  ]

  datatype Label = Number(n: int) | Name(s: string)

  datatype Cell = Null | Value(raw: int, number: Option<real>)

  type Column = seq<Cell>

  datatype Frame = Frame(columns: map<string, Column>, labels: seq<Label>)

  ghost predicate FrameOk(f: Frame) {
    forall c :: c in f.columns ==> |f.columns[c]| == |f.labels|
  }

  /** How the library reads timestamps: a column may be refused as a whole, and else every
      cell of it has a time or none. */
  datatype Reader = Reader(refuses: Column -> bool, time: (Column, nat) -> Option<real>)

  /** The time of one cell of a column. */
  function Reading(read: Reader, column: Column, i: nat): Option<real>
    requires i < |column|
  {
    if column[i].Null? || read.refuses(column) then None else read.time(column, i)
  }

  // -------------------------------------------------------------------- problems

  datatype Problem =
    | NoColumn(column: string)
    | IsNull(column: string)
    | OutOfRange(column: string)
    | TooEarly(column: string)
    | TooLate(column: string)
    | Duplicate

  datatype Error = Error(row: Label, problem: Problem)

  /** What a validation is asked to check, and the reader it has at hand. */
  datatype Rules = Rules(required: seq<string>, timestamps: seq<string>, primaryKey: seq<string>, read: Reader)

  predicate Outside(cell: Cell, b: Bound) {
    cell.Value? && cell.number.Some? && (cell.number.value < b.lo || cell.number.value > b.hi)
  }

  predicate BeforeStart(time: Option<real>) {
    time.Some? && time.value < PLATFORM_START_DATE
  }

  predicate Ahead(time: Option<real>, now: real) {
    time.Some? && time.value > now + MAX_FUTURE_SECONDS
  }

  predicate InRange(time: Option<real>, now: real) {
    !BeforeStart(time) && !Ahead(time, now)
  }

  /** Two cells count as equal when both are missing or both have the same value. */
  predicate SameCell(a: Cell, b: Cell) {
    if a.Null? then b.Null? else b.Value? && a.raw == b.raw
  }

  predicate SameKey(f: Frame, key: seq<string>, i: nat, j: nat)
    requires i < |f.labels| && j < |f.labels| && FrameOk(f)
    requires forall c :: c in key ==> c in f.columns
  {
    forall c :: c in key ==> SameCell(f.columns[c][i], f.columns[c][j])
  }

  /** An earlier row has the same key. */
  predicate Repeats(f: Frame, key: seq<string>, i: nat)
    requires i < |f.labels| && FrameOk(f)
    requires forall c :: c in key ==> c in f.columns
  {
    exists j :: 0 <= j < i && SameKey(f, key, i, j)
  }

  predicate KeyPresent(f: Frame, key: seq<string>) {
    key != [] && forall c :: c in key ==> c in f.columns
  }

  /** What is wrong with a row. */
  ghost predicate HasProblem(f: Frame, rules: Rules, now: real, i: nat, p: Problem)
    requires i < |f.labels| && FrameOk(f)
  {
    match p
    case NoColumn(c) => false
    case IsNull(c) => c in rules.required && c in f.columns && f.columns[c][i].Null?
    case OutOfRange(c) => c in f.columns && exists b :: b in ATTRIBUTE_BOUNDS && b.column == c && Outside(f.columns[c][i], b)
    case TooEarly(c) => c in rules.timestamps && c in f.columns && BeforeStart(Reading(rules.read, f.columns[c], i))
    case TooLate(c) =>
      && c in rules.timestamps && c in f.columns
      && !BeforeStart(Reading(rules.read, f.columns[c], i)) && Ahead(Reading(rules.read, f.columns[c], i), now)
    case Duplicate => KeyPresent(f, rules.primaryKey) && Repeats(f, rules.primaryKey, i)
  }

  ghost predicate Flagged(f: Frame, rules: Rules, now: real, i: nat)
    requires i < |f.labels| && FrameOk(f)
  {
    exists p :: HasProblem(f, rules, now, i, p)
  }

  /** The error is about a row that has the problem, or about a missing required column. */
  ghost predicate Justified(f: Frame, rules: Rules, now: real, e: Error)
    requires FrameOk(f)
  {
    if e.problem.NoColumn? then
      e.row == Name("schema") && e.problem.column in rules.required && e.problem.column !in f.columns
    else
      exists i :: 0 <= i < |f.labels| && f.labels[i] == e.row && HasProblem(f, rules, now, i, e.problem)
  }

  // ---------------------------------------------------------------- spelled out

  /** The number is one that the column may have. */
  predicate Plausible(column: string, v: real) {
    && (column == "precipitation_mm" ==> 0.0 <= v <= 500.0)
    && (column == "temperature_c" ==> -50.0 <= v <= 60.0)
    && (column == "wind_speed_ms" ==> 0.0 <= v <= 80.0)
    && (column == "soil_moisture_pct" ==> 0.0 <= v <= 100.0)
    && (column == "river_level_m" ==> 0.0 <= v <= 30.0)
    && (column == "magnitude" ==> 0.0 <= v <= 10.0)
    && (column == "depth_km" ==> 0.0 <= v <= 700.0)
    && (column == "severity" ==> 1.0 <= v <= 5.0)
    && (column == "affected_population" ==> 0.0 <= v <= 10000000.0)
  }

  predicate Implausible(column: string, cell: Cell) {
    cell.Value? && cell.number.Some? && !Plausible(column, cell.number.value)
  }

  /** The cell has a time, and the time has the property. */
  predicate ReadsAs(read: Reader, column: Column, i: nat, bad: real -> bool)
    requires i < |column|
  {
    && !read.refuses(column) && column[i] != Null
    && match read.time(column, i) case Some(t) => bad(t) case None => false
  }

  /** Both cells are missing, or both are there with the same value. */
  predicate EqualCells(a: Cell, b: Cell) {
    (a == Null && b == Null) || (a != Null && b != Null && a.raw == b.raw)
  }

  predicate EqualKeys(f: Frame, key: seq<string>, i: nat, j: nat)
    requires i < |f.labels| && j < |f.labels| && FrameOk(f) && forall c :: c in key ==> c in f.columns
  {
    forall c :: c in key ==> EqualCells(f.columns[c][i], f.columns[c][j])
  }

  /** What an error reported about the rows with this label means, with every bound in
      numbers: 1704067200 is the platform's start and 300 the seconds a time may lie ahead. */
  ghost predicate Means(f: Frame, rules: Rules, now: real, e: Error)
    requires FrameOk(f)
  {
    match e.problem
    case NoColumn(c) => e.row == Name("schema") && c in rules.required && c !in f.columns
    case IsNull(c) =>
      && c in rules.required && c in f.columns
      && exists i :: 0 <= i < |f.labels| && f.labels[i] == e.row && f.columns[c][i] == Null
    case OutOfRange(c) =>
      c in f.columns && exists i :: 0 <= i < |f.labels| && f.labels[i] == e.row && Implausible(c, f.columns[c][i])
    case TooEarly(c) =>
      && c in rules.timestamps && c in f.columns
      && exists i :: 0 <= i < |f.labels| && f.labels[i] == e.row && ReadsAs(rules.read, f.columns[c], i, t => t < 1704067200.0)
    case TooLate(c) =>
      && c in rules.timestamps && c in f.columns
      && exists i :: 0 <= i < |f.labels| && f.labels[i] == e.row
                     && ReadsAs(rules.read, f.columns[c], i, t => t >= 1704067200.0 && t > now + 300.0)
    case Duplicate =>
      && rules.primaryKey != [] && (forall c :: c in rules.primaryKey ==> c in f.columns)
      && exists i, j :: 0 <= j < i < |f.labels| && f.labels[i] == e.row && EqualKeys(f, rules.primaryKey, i, j)
  }

  lemma OutsideIsImplausible(column: string, cell: Cell)
    ensures (exists b :: b in ATTRIBUTE_BOUNDS && b.column == column && Outside(cell, b)) <==> Implausible(column, cell)
  {
    if Implausible(column, cell) {
      var k := ImplausibleWhere(column, cell.number.value);
      assert ATTRIBUTE_BOUNDS[k] in ATTRIBUTE_BOUNDS;
    }
  }

  lemma ImplausibleWhere(column: string, v: real) returns (k: nat)
    requires !Plausible(column, v)
    ensures k < |ATTRIBUTE_BOUNDS| && ATTRIBUTE_BOUNDS[k].column == column
    ensures v < ATTRIBUTE_BOUNDS[k].lo || v > ATTRIBUTE_BOUNDS[k].hi
  {
    k := if column == "precipitation_mm" && !(0.0 <= v <= 500.0) then 0
         else if column == "temperature_c" && !(-50.0 <= v <= 60.0) then 1
         else if column == "wind_speed_ms" && !(0.0 <= v <= 80.0) then 2
         else if column == "soil_moisture_pct" && !(0.0 <= v <= 100.0) then 3
         else if column == "river_level_m" && !(0.0 <= v <= 30.0) then 4
         else if column == "magnitude" && !(0.0 <= v <= 10.0) then 5
         else if column == "depth_km" && !(0.0 <= v <= 700.0) then 6
         else if column == "severity" && !(1.0 <= v <= 5.0) then 7
         else 8;
  }

  /** The errors a validation reports are those that are true of the frame in these terms. */
  lemma JustifiedMeans(f: Frame, rules: Rules, now: real, e: Error)
    requires FrameOk(f)
    ensures Justified(f, rules, now, e) <==> Means(f, rules, now, e)
  {
    hide Outside, Implausible, SameKey, EqualKeys;
    match e.problem
    case OutOfRange(c) =>
      if c in f.columns {
        forall i | 0 <= i < |f.labels|
          ensures HasProblem(f, rules, now, i, e.problem) <==> Implausible(c, f.columns[c][i])
        {
          OutsideIsImplausible(c, f.columns[c][i]);
        }
      }
    case Duplicate => DuplicateMeans(f, rules, now, e.row);
    case IsNull(c) => NullMeans(f, rules, now, e.row, c);
    case NoColumn(c) =>
    case TooEarly(c) => EarlyMeans(f, rules, now, e.row, c);
    case TooLate(c) => LateMeans(f, rules, now, e.row, c);
  }

  lemma NullMeans(f: Frame, rules: Rules, now: real, row: Label, c: string)
    requires FrameOk(f)
    ensures Justified(f, rules, now, Error(row, IsNull(c))) <==> Means(f, rules, now, Error(row, IsNull(c)))
  {
    if c in f.columns {
      forall i | 0 <= i < |f.labels|
        ensures HasProblem(f, rules, now, i, IsNull(c)) <==> c in rules.required && f.columns[c][i] == Null
      {
      }
    }
  }

  lemma EarlyMeans(f: Frame, rules: Rules, now: real, row: Label, c: string)
    requires FrameOk(f)
    ensures Justified(f, rules, now, Error(row, TooEarly(c))) <==> Means(f, rules, now, Error(row, TooEarly(c)))
  {
    if c in f.columns {
      forall i | 0 <= i < |f.labels|
        ensures HasProblem(f, rules, now, i, TooEarly(c)) <==>
          c in rules.timestamps && ReadsAs(rules.read, f.columns[c], i, t => t < 1704067200.0)
      {
      }
    }
  }

  lemma LateMeans(f: Frame, rules: Rules, now: real, row: Label, c: string)
    requires FrameOk(f)
    ensures Justified(f, rules, now, Error(row, TooLate(c))) <==> Means(f, rules, now, Error(row, TooLate(c)))
  {
    if c in f.columns {
      forall i | 0 <= i < |f.labels|
        ensures HasProblem(f, rules, now, i, TooLate(c)) <==>
          c in rules.timestamps && ReadsAs(rules.read, f.columns[c], i, t => t >= 1704067200.0 && t > now + 300.0)
      {
      }
    }
  }

  lemma EqualIsSame(f: Frame, key: seq<string>, i: nat, j: nat)
    requires i < |f.labels| && j < |f.labels| && FrameOk(f) && forall c :: c in key ==> c in f.columns
    ensures SameKey(f, key, i, j) <==> EqualKeys(f, key, i, j)
  {
    assert forall c :: c in key ==> (SameCell(f.columns[c][i], f.columns[c][j]) <==> EqualCells(f.columns[c][i], f.columns[c][j]));
  }

  lemma DuplicateMeans(f: Frame, rules: Rules, now: real, row: Label)
    requires FrameOk(f)
    ensures Justified(f, rules, now, Error(row, Duplicate)) <==> Means(f, rules, now, Error(row, Duplicate))
  {
    hide SameKey, EqualKeys;
    if KeyPresent(f, rules.primaryKey) {
      forall i, j | 0 <= i < |f.labels| && 0 <= j < |f.labels|
        ensures SameKey(f, rules.primaryKey, i, j) <==> EqualKeys(f, rules.primaryKey, i, j)
      {
        EqualIsSame(f, rules.primaryKey, i, j);
      }
      DuplicateRows(f, rules, now, row);
    }
  }

  lemma DuplicateRows(f: Frame, rules: Rules, now: real, row: Label)
    requires FrameOk(f) && KeyPresent(f, rules.primaryKey)
    ensures Justified(f, rules, now, Error(row, Duplicate)) <==>
      exists i, j :: 0 <= j < i < |f.labels| && f.labels[i] == row && SameKey(f, rules.primaryKey, i, j)
  {
    if Justified(f, rules, now, Error(row, Duplicate)) {
      var i :| 0 <= i < |f.labels| && f.labels[i] == row && HasProblem(f, rules, now, i, Duplicate);
      var j :| 0 <= j < i && SameKey(f, rules.primaryKey, i, j);
    }
    if i, j :| 0 <= j < i < |f.labels| && f.labels[i] == row && SameKey(f, rules.primaryKey, i, j) {
      assert Repeats(f, rules.primaryKey, i);
      assert HasProblem(f, rules, now, i, Duplicate);
    }
  }

  // -------------------------------------------------------------------- survivors

  /** The positions of the rows whose labels are not quarantined. */
  function Kept(labels: seq<Label>, bad: set<int>): (kept: seq<nat>)
    ensures forall k :: 0 <= k < |kept| ==> kept[k] < |labels|
    ensures forall k, l :: 0 <= k < l < |kept| ==> kept[k] < kept[l]
    ensures forall i :: 0 <= i < |labels| ==> (i in kept <==> !(labels[i].Number? && labels[i].n in bad))
  {
    if labels == [] then []
    else
      var n := |labels| - 1;
      Kept(labels[..n], bad) + if labels[n].Number? && labels[n].n in bad then [] else [n]
  }

  /** The frame without the quarantined rows. */
  function Survivors(f: Frame, bad: set<int>): (g: Frame)
    requires forall c :: c in f.columns ==> |f.columns[c]| == |f.labels|
    ensures forall c :: c in g.columns ==> |g.columns[c]| == |g.labels|
  {
    var kept := Kept(f.labels, bad);
    Frame(map c | c in f.columns :: seq(|kept|, k requires 0 <= k < |kept| => f.columns[c][kept[k]]),
          seq(|kept|, k requires 0 <= k < |kept| => f.labels[kept[k]]))
  }

  /** The quarantine holds the labels of flagged rows that are numbers, and nothing else. */
  ghost predicate Quarantines(f: Frame, rules: Rules, now: real, bad: set<int>)
    requires FrameOk(f)
  {
    forall n :: n in bad <==> exists i :: 0 <= i < |f.labels| && f.labels[i] == Number(n) && Flagged(f, rules, now, i)
  }

  ghost predicate Clean(f: Frame, rules: Rules, now: real)
    requires FrameOk(f)
  {
    forall k :: 0 <= k < |f.labels| ==> !Flagged(f, rules, now, k)
  }

  /** What is clean now is clean ever after: time only makes less of a row lie ahead. */
  lemma CleanStaysClean(f: Frame, rules: Rules, now: real, later: real)
    requires FrameOk(f) && now <= later && Clean(f, rules, now)
    ensures Clean(f, rules, later)
  {
    forall k | 0 <= k < |f.labels|
      ensures !Flagged(f, rules, later, k)
    {
      forall p
        ensures !HasProblem(f, rules, later, k, p)
      {
        assert HasProblem(f, rules, later, k, p) ==> HasProblem(f, rules, now, k, p);
        assert HasProblem(f, rules, now, k, p) ==> Flagged(f, rules, now, k);
      }
    }
  }

  /** A value of the row is missing or out of its bounds. */
  ghost predicate WrongInItself(f: Frame, rules: Rules, now: real, i: nat)
    requires i < |f.labels| && FrameOk(f)
  {
    exists p: Problem :: (p.IsNull? || p.OutOfRange?) && HasProblem(f, rules, now, i, p)
  }

  /** Every row that is wrong in itself has a number for a label. */
  ghost predicate WrongRowsNumbered(f: Frame, rules: Rules, now: real)
    requires FrameOk(f)
  {
    forall i :: 0 <= i < |f.labels| && WrongInItself(f, rules, now, i) ==> f.labels[i].Number?
  }

  /** No row with a string for a label has the key of an earlier row that survives. */
  ghost predicate RepeatedRowsNumbered(f: Frame, key: seq<string>, bad: set<int>)
    requires FrameOk(f)
  {
    KeyPresent(f, key) ==>
      forall i, j :: 0 <= j < i < |f.labels| && j in Kept(f.labels, bad) && SameKey(f, key, i, j) ==> f.labels[i].Number?
  }

  /** Every timestamp reads in range. */
  ghost predicate TimesInRange(f: Frame, rules: Rules, now: real)
    requires FrameOk(f)
  {
    forall c, i :: c in rules.timestamps && c in f.columns && 0 <= i < |f.labels| ==>
      InRange(Reading(rules.read, f.columns[c], i), now)
  }

  /** What the k-th survivor's timestamp reads as in the shortened column, and what it read
      as in the first place. */
  function NewReading(f: Frame, rules: Rules, bad: set<int>, c: string, k: nat): Option<real>
    requires (forall d :: d in f.columns ==> |f.columns[d]| == |f.labels|)
    requires c in f.columns && k < |Kept(f.labels, bad)|
  {
    Reading(rules.read, Survivors(f, bad).columns[c], k)
  }

  function OldReading(f: Frame, rules: Rules, bad: set<int>, c: string, k: nat): Option<real>
    requires (forall d :: d in f.columns ==> |f.columns[d]| == |f.labels|)
    requires c in f.columns && k < |Kept(f.labels, bad)|
  {
    Reading(rules.read, f.columns[c], Kept(f.labels, bad)[k])
  }

  /** Every timestamp of a survivor that reads differently in the shortened column, or whose
      row has a string for a label, reads in range there. */
  ghost predicate NewTimesInRange(f: Frame, rules: Rules, bad: set<int>, now: real)
    requires FrameOk(f)
  {
    forall c, k :: c in rules.timestamps && c in f.columns && 0 <= k < |Kept(f.labels, bad)| &&
                   (f.labels[Kept(f.labels, bad)[k]].Name? || NewReading(f, rules, bad, c, k) != OldReading(f, rules, bad, c, k)) ==>
      InRange(NewReading(f, rules, bad, c, k), now)
  }

  lemma WrongSurvivorIsNamed(f: Frame, rules: Rules, now: real, later: real, bad: set<int>, k: nat)
    requires FrameOk(f) && Quarantines(f, rules, now, bad) && k < |Survivors(f, bad).labels|
    requires WrongInItself(Survivors(f, bad), rules, later, k)
    ensures var i := Kept(f.labels, bad)[k];
      i < |f.labels| && WrongInItself(f, rules, now, i) && f.labels[i].Name?
  {
    var kept := Kept(f.labels, bad);
    var p: Problem :| (p.IsNull? || p.OutOfRange?) && HasProblem(Survivors(f, bad), rules, later, k, p);
    assert HasProblem(f, rules, now, kept[k], p);
    assert kept[k] in kept && Flagged(f, rules, now, kept[k]);
  }

  lemma WrongNamedSurvives(f: Frame, rules: Rules, now: real, later: real, bad: set<int>, i: nat) returns (k: nat)
    requires FrameOk(f) && i < |f.labels| && WrongInItself(f, rules, now, i) && f.labels[i].Name?
    ensures k < |Survivors(f, bad).labels| && WrongInItself(Survivors(f, bad), rules, later, k)
  {
    var kept := Kept(f.labels, bad);
    k :| 0 <= k < |kept| && kept[k] == i;
    var p: Problem :| (p.IsNull? || p.OutOfRange?) && HasProblem(f, rules, now, i, p);
    assert HasProblem(Survivors(f, bad), rules, later, k, p);
  }

  /** A row that is wrong in itself survives exactly if its label is not a number, so that
      the survivors are free of such rows if and only if all of them have numeric labels. */
  lemma CleanExactlyIfNumbered(f: Frame, rules: Rules, now: real, later: real, bad: set<int>)
    requires FrameOk(f) && Quarantines(f, rules, now, bad)
    ensures (forall k :: 0 <= k < |Survivors(f, bad).labels| ==> !WrongInItself(Survivors(f, bad), rules, later, k))
       <==> WrongRowsNumbered(f, rules, now)
  {
    var g := Survivors(f, bad);
    forall i | 0 <= i < |f.labels| && WrongInItself(f, rules, now, i) && f.labels[i].Name?
      ensures exists k :: 0 <= k < |g.labels| && WrongInItself(g, rules, later, k)
    {
      var k := WrongNamedSurvives(f, rules, now, later, bad, i);
    }
    forall k | 0 <= k < |g.labels| && WrongInItself(g, rules, later, k)
      ensures !WrongRowsNumbered(f, rules, now)
    {
      WrongSurvivorIsNamed(f, rules, now, later, bad, k);
    }
  }

  /** A timestamp that still reads the same, in a row that was not quarantined for want of a
      problem, reads in range. */
  lemma SameReadingInRange(f: Frame, rules: Rules, now: real, bad: set<int>, c: string, k: nat)
    requires FrameOk(f) && Quarantines(f, rules, now, bad) && c in rules.timestamps && c in f.columns
    requires k < |Kept(f.labels, bad)| && f.labels[Kept(f.labels, bad)[k]].Number?
    ensures InRange(OldReading(f, rules, bad, c, k), now)
  {
    var i := Kept(f.labels, bad)[k];
    assert i in Kept(f.labels, bad);
    assert !Flagged(f, rules, now, i);
    assert !HasProblem(f, rules, now, i, TooEarly(c)) && !HasProblem(f, rules, now, i, TooLate(c));
  }

  lemma TimesOfSurvivors(f: Frame, rules: Rules, now: real, later: real, bad: set<int>)
    requires FrameOk(f) && Quarantines(f, rules, now, bad) && now <= later
    ensures TimesInRange(Survivors(f, bad), rules, later) <==> NewTimesInRange(f, rules, bad, later)
  {
    var kept, g := Kept(f.labels, bad), Survivors(f, bad);
    forall c, k | c in rules.timestamps && c in f.columns && 0 <= k < |kept|
                  && f.labels[kept[k]].Number? && NewReading(f, rules, bad, c, k) == OldReading(f, rules, bad, c, k)
      ensures InRange(Reading(rules.read, g.columns[c], k), later)
    {
      SameReadingInRange(f, rules, now, bad, c, k);
    }
    if TimesInRange(g, rules, later) {
      forall c, k | c in rules.timestamps && c in f.columns && 0 <= k < |kept|
        ensures InRange(NewReading(f, rules, bad, c, k), later)
      {
        assert c in g.columns && k < |g.labels|;
      }
    }
    if NewTimesInRange(f, rules, bad, later) {
      forall c, k | c in rules.timestamps && c in g.columns && 0 <= k < |g.labels|
        ensures InRange(Reading(rules.read, g.columns[c], k), later)
      {
        assert Reading(rules.read, g.columns[c], k) == NewReading(f, rules, bad, c, k);
      }
    }
  }

  ghost predicate DistinctKeys(f: Frame, key: seq<string>)
    requires FrameOk(f) && KeyPresent(f, key)
  {
    forall k, l :: 0 <= l < k < |f.labels| ==> !SameKey(f, key, k, l)
  }

  /** Of two survivors with the same key the later one has a string for a label. */
  lemma SecondIsNamed(f: Frame, rules: Rules, now: real, bad: set<int>, k: nat, l: nat)
    requires FrameOk(f) && Quarantines(f, rules, now, bad) && KeyPresent(f, rules.primaryKey)
    requires l < k < |Survivors(f, bad).labels| && SameKey(Survivors(f, bad), rules.primaryKey, k, l)
    ensures var kept := Kept(f.labels, bad);
      kept[l] < kept[k] < |f.labels| && SameKey(f, rules.primaryKey, kept[k], kept[l]) && f.labels[kept[k]].Name?
  {
    var kept := Kept(f.labels, bad);
    assert SameKey(f, rules.primaryKey, kept[k], kept[l]);
    assert HasProblem(f, rules, now, kept[k], Duplicate);
    assert kept[k] in kept && Flagged(f, rules, now, kept[k]);
  }

  /** The survivors' keys are pairwise distinct exactly if no row with a string for a label
      has the key of an earlier row that survives. */
  lemma SurvivorsHaveDistinctKeys(f: Frame, rules: Rules, now: real, bad: set<int>)
    requires FrameOk(f) && Quarantines(f, rules, now, bad) && KeyPresent(f, rules.primaryKey)
    ensures DistinctKeys(Survivors(f, bad), rules.primaryKey) <==> RepeatedRowsNumbered(f, rules.primaryKey, bad)
  {
    hide Kept, SameKey, Quarantines;
    var kept, g, key := Kept(f.labels, bad), Survivors(f, bad), rules.primaryKey;
    forall k, l | 0 <= l < k < |g.labels| && SameKey(g, key, k, l)
      ensures !RepeatedRowsNumbered(f, key, bad)
    {
      KeptOf(f, bad, k);
      KeptOf(f, bad, l);
      SecondIsNamed(f, rules, now, bad, k, l);
    }
    forall i, j | 0 <= j < i < |f.labels| && j in kept && SameKey(f, key, i, j) && f.labels[i].Name?
      ensures !DistinctKeys(g, key)
    {
      var l, k := NamedSurvives(f, key, bad, i, j);
    }
  }

  /** The survivors have no number out of the ranges above if and only if all rows that have
      one are labelled with numbers. */
  lemma SurvivorsArePlausible(f: Frame, rules: Rules, now: real, bad: set<int>)
    requires FrameOk(f) && Quarantines(f, rules, now, bad)
    ensures (forall c, k :: c in f.columns && 0 <= k < |Survivors(f, bad).labels| ==> !Implausible(c, Survivors(f, bad).columns[c][k]))
       <==> (forall c, i :: c in f.columns && 0 <= i < |f.labels| && Implausible(c, f.columns[c][i]) ==> f.labels[i].Number?)
  {
    hide Implausible, Outside;
    var kept, g := Kept(f.labels, bad), Survivors(f, bad);
    forall c, i | c in f.columns && 0 <= i < |f.labels| && Implausible(c, f.columns[c][i])
      ensures i in kept <==> f.labels[i].Name?
    {
      ImplausibleIsFlagged(f, rules, now, c, i);
    }
    forall c, i | c in f.columns && 0 <= i < |f.labels| && Implausible(c, f.columns[c][i]) && f.labels[i].Name?
      ensures exists k :: 0 <= k < |g.labels| && Implausible(c, g.columns[c][k])
    {
      var k :| 0 <= k < |kept| && kept[k] == i;
      assert g.columns[c][k] == f.columns[c][i];
    }
    forall c, k | c in f.columns && 0 <= k < |g.labels| && Implausible(c, g.columns[c][k])
      ensures exists i :: 0 <= i < |f.labels| && Implausible(c, f.columns[c][i]) && f.labels[i].Name?
    {
      assert kept[k] in kept && g.columns[c][k] == f.columns[c][kept[k]];
    }
  }

  lemma ImplausibleIsFlagged(f: Frame, rules: Rules, now: real, c: string, i: nat)
    requires FrameOk(f) && c in f.columns && i < |f.labels| && Implausible(c, f.columns[c][i])
    ensures Flagged(f, rules, now, i)
  {
    OutsideIsImplausible(c, f.columns[c][i]);
    assert HasProblem(f, rules, now, i, OutOfRange(c));
  }

  /** What is left of a frame whose labels are all numbers: required values are there, numbers
      are plausible, the times that were read lie between the start of the platform and five
      minutes ahead, and no two rows have equal keys. */
  lemma NumberedSurvivorsAreSound(f: Frame, rules: Rules, now: real, bad: set<int>, g: Frame, kept: seq<nat>)
    requires FrameOk(f) && Quarantines(f, rules, now, bad) && forall i :: 0 <= i < |f.labels| ==> f.labels[i].Number?
    requires g == Survivors(f, bad) && kept == Kept(f.labels, bad)
    ensures forall c, k :: c in rules.required && c in g.columns && 0 <= k < |g.labels| ==> g.columns[c][k] != Null
    ensures forall c, k :: c in g.columns && 0 <= k < |g.labels| && g.columns[c][k] != Null && g.columns[c][k].number.Some? ==>
      Plausible(c, g.columns[c][k].number.value)
    ensures forall c, k :: c in rules.timestamps && c in g.columns && 0 <= k < |g.labels| && g.columns[c][k] != Null ==>
      !ReadsAs(rules.read, f.columns[c], kept[k], t => t < 1704067200.0 || t > now + 300.0)
    ensures rules.primaryKey != [] && (forall c :: c in rules.primaryKey ==> c in g.columns) ==>
      forall k, l :: 0 <= l < k < |g.labels| ==> !EqualKeys(g, rules.primaryKey, k, l)
  {
    hide Kept, Plausible, Outside, EqualKeys, SameKey;
    forall k | 0 <= k < |g.labels|
      ensures kept[k] < |f.labels| && !Flagged(f, rules, now, kept[k])
    {
      KeptIsUnflagged(f, rules, now, bad, k);
    }
    forall c, k | c in g.columns && 0 <= k < |g.labels|
      ensures c in rules.required ==> g.columns[c][k] != Null
      ensures !Implausible(c, g.columns[c][k])
      ensures c in rules.timestamps ==> !ReadsAs(rules.read, f.columns[c], kept[k], t => t < 1704067200.0 || t > now + 300.0)
    {
      UnflaggedIsSound(f, rules, now, kept[k], c);
    }
    if KeyPresent(f, rules.primaryKey) {
      assert RepeatedRowsNumbered(f, rules.primaryKey, bad);
      SurvivorsHaveDistinctKeys(f, rules, now, bad);
      forall k, l | 0 <= l < k < |g.labels|
        ensures !EqualKeys(g, rules.primaryKey, k, l)
      {
        EqualIsSame(g, rules.primaryKey, k, l);
      }
    }
  }

  lemma KeptIsUnflagged(f: Frame, rules: Rules, now: real, bad: set<int>, k: nat)
    requires FrameOk(f) && Quarantines(f, rules, now, bad) && forall i :: 0 <= i < |f.labels| ==> f.labels[i].Number?
    requires k < |Kept(f.labels, bad)|
    ensures Kept(f.labels, bad)[k] < |f.labels| && !Flagged(f, rules, now, Kept(f.labels, bad)[k])
  {
    assert Kept(f.labels, bad)[k] in Kept(f.labels, bad);
  }

  lemma UnflaggedIsSound(f: Frame, rules: Rules, now: real, i: nat, c: string)
    requires FrameOk(f) && i < |f.labels| && !Flagged(f, rules, now, i) && c in f.columns
    ensures c in rules.required ==> f.columns[c][i] != Null
    ensures !Implausible(c, f.columns[c][i])
    ensures c in rules.timestamps ==> !ReadsAs(rules.read, f.columns[c], i, t => t < 1704067200.0 || t > now + 300.0)
  {
    hide Outside, Implausible;
    assert !HasProblem(f, rules, now, i, IsNull(c)) && !HasProblem(f, rules, now, i, OutOfRange(c));
    assert !HasProblem(f, rules, now, i, TooEarly(c)) && !HasProblem(f, rules, now, i, TooLate(c));
    OutsideIsImplausible(c, f.columns[c][i]);
  }

  lemma KeptOf(f: Frame, bad: set<int>, k: nat)
    requires FrameOk(f) && k < |Survivors(f, bad).labels|
    ensures k < |Kept(f.labels, bad)| && Kept(f.labels, bad)[k] in Kept(f.labels, bad)
  {
  }

  /** A row with a string for a label survives, and behind any earlier survivor. */
  lemma NamedSurvives(f: Frame, key: seq<string>, bad: set<int>, i: nat, j: nat) returns (l: nat, k: nat)
    requires FrameOk(f) && KeyPresent(f, key) && j < i < |f.labels|
    requires j in Kept(f.labels, bad) && SameKey(f, key, i, j) && f.labels[i].Name?
    ensures l < k < |Survivors(f, bad).labels| && SameKey(Survivors(f, bad), key, k, l)
  {
    var kept, g := Kept(f.labels, bad), Survivors(f, bad);
    k :| 0 <= k < |kept| && kept[k] == i;
    l :| 0 <= l < |kept| && kept[l] == j;
    assert SameKey(g, key, k, l);
  }

  /** Validating the survivors again, at once or later, finds them clean exactly if every row
      that is wrong in itself has a number for a label, no row with a string for one has the
      key of an earlier survivor, and the timestamps that read differently without the
      dropped rows, or were not quarantined for them, read in range. */
  lemma SurvivorsAreClean(f: Frame, rules: Rules, now: real, later: real, bad: set<int>)
    requires FrameOk(f) && Quarantines(f, rules, now, bad) && now <= later
    ensures Clean(Survivors(f, bad), rules, later) <==>
      && WrongRowsNumbered(f, rules, now) && RepeatedRowsNumbered(f, rules.primaryKey, bad)
      && NewTimesInRange(f, rules, bad, later)
  {
    hide Quarantines, NewTimesInRange, WrongRowsNumbered, RepeatedRowsNumbered, HasProblem, Clean;
    var g, key := Survivors(f, bad), rules.primaryKey;
    CleanExactlyIfNumbered(f, rules, now, later, bad);
    TimesOfSurvivors(f, rules, now, later, bad);
    assert KeyPresent(g, key) <==> KeyPresent(f, key);
    if KeyPresent(f, key) {
      SurvivorsHaveDistinctKeys(f, rules, now, bad);
    } else {
      NoKeyNoRepeats(f, key, bad);
    }
    CleanInParts(g, rules, later);
  }

  lemma NoKeyNoRepeats(f: Frame, key: seq<string>, bad: set<int>)
    requires FrameOk(f) && !KeyPresent(f, key)
    ensures RepeatedRowsNumbered(f, key, bad)
  {
  }

  /** Clean means no row wrong in itself, no time out of range, and no key twice. */
  lemma CleanInParts(f: Frame, rules: Rules, now: real)
    requires FrameOk(f)
    ensures Clean(f, rules, now) <==>
      && (forall k :: 0 <= k < |f.labels| ==> !WrongInItself(f, rules, now, k))
      && TimesInRange(f, rules, now)
      && (KeyPresent(f, rules.primaryKey) ==> DistinctKeys(f, rules.primaryKey))
  {
    forall k | 0 <= k < |f.labels|
      ensures Flagged(f, rules, now, k) <==>
        WrongInItself(f, rules, now, k) || WrongTime(f, rules, now, k) || HasProblem(f, rules, now, k, Duplicate)
    {
      FlaggedFor(f, rules, now, k);
    }
    NoWrongTimes(f, rules, now);
    if KeyPresent(f, rules.primaryKey) {
      forall k, l | 0 <= l < k < |f.labels| && SameKey(f, rules.primaryKey, k, l)
        ensures HasProblem(f, rules, now, k, Duplicate)
      {
      }
      forall k | 0 <= k < |f.labels| && HasProblem(f, rules, now, k, Duplicate)
        ensures exists l :: 0 <= l < k && SameKey(f, rules.primaryKey, k, l)
      {
      }
    }
  }

  ghost predicate WrongTime(f: Frame, rules: Rules, now: real, i: nat)
    requires i < |f.labels| && FrameOk(f)
  {
    exists c :: c in rules.timestamps && c in f.columns && !InRange(Reading(rules.read, f.columns[c], i), now)
  }

  lemma NoWrongTimes(f: Frame, rules: Rules, now: real)
    requires FrameOk(f)
    ensures TimesInRange(f, rules, now) <==> forall k :: 0 <= k < |f.labels| ==> !WrongTime(f, rules, now, k)
  {
    if !TimesInRange(f, rules, now) {
      var c, i :| c in rules.timestamps && c in f.columns && 0 <= i < |f.labels|
                  && !InRange(Reading(rules.read, f.columns[c], i), now);
      assert WrongTime(f, rules, now, i);
    }
    forall k | 0 <= k < |f.labels| && WrongTime(f, rules, now, k)
      ensures !TimesInRange(f, rules, now)
    {
      var c :| c in rules.timestamps && c in f.columns && !InRange(Reading(rules.read, f.columns[c], k), now);
    }
  }

  lemma FlaggedFor(f: Frame, rules: Rules, now: real, k: nat)
    requires k < |f.labels| && FrameOk(f)
    ensures Flagged(f, rules, now, k) <==>
      WrongInItself(f, rules, now, k) || WrongTime(f, rules, now, k) || HasProblem(f, rules, now, k, Duplicate)
  {
    if WrongTime(f, rules, now, k) {
      var c :| c in rules.timestamps && c in f.columns && !InRange(Reading(rules.read, f.columns[c], k), now);
      assert HasProblem(f, rules, now, k, TooEarly(c)) || HasProblem(f, rules, now, k, TooLate(c));
    }
  }

  /** With numeric labels throughout only the timestamps that read differently matter. */
  lemma NumberedSurvivorsAreClean(f: Frame, rules: Rules, now: real, later: real, bad: set<int>)
    requires FrameOk(f) && now <= later && Quarantines(f, rules, now, bad)
    requires forall i :: 0 <= i < |f.labels| ==> f.labels[i].Number?
    ensures KeyPresent(f, rules.primaryKey) ==> DistinctKeys(Survivors(f, bad), rules.primaryKey)
    ensures Clean(Survivors(f, bad), rules, later) <==>
      forall c, k :: c in rules.timestamps && c in f.columns && 0 <= k < |Kept(f.labels, bad)| &&
                     NewReading(f, rules, bad, c, k) != OldReading(f, rules, bad, c, k) ==>
        InRange(NewReading(f, rules, bad, c, k), later)
  {
    SurvivorsAreClean(f, rules, now, later, bad);
    if KeyPresent(f, rules.primaryKey) {
      SurvivorsHaveDistinctKeys(f, rules, now, bad);
    }
  }

  // ------------------------------------------------------- ways of reading a column

  /** The time of a cell does not depend on the rest of its column. */
  ghost predicate CellByCell(read: Reader) {
    forall a: Column, b: Column, i: nat, j: nat :: i < |a| && j < |b| && a[i] == b[j] ==> Reading(read, a, i) == Reading(read, b, j)
  }

  /** Where columns are read cell by cell, numeric labels are enough: the survivors are clean,
      at once and at any later time. */
  lemma NumberedSurvivorsStayClean(f: Frame, rules: Rules, now: real, later: real, bad: set<int>)
    requires FrameOk(f) && now <= later && Quarantines(f, rules, now, bad) && CellByCell(rules.read)
    requires forall i :: 0 <= i < |f.labels| ==> f.labels[i].Number?
    ensures Clean(Survivors(f, bad), rules, later)
    ensures KeyPresent(f, rules.primaryKey) ==> DistinctKeys(Survivors(f, bad), rules.primaryKey)
  {
    NumberedSurvivorsAreClean(f, rules, now, later, bad);
  }

  /** Every row with a timestamp out of range has a number for a label. */
  ghost predicate WrongTimesNumbered(f: Frame, rules: Rules, now: real)
    requires FrameOk(f)
  {
    forall i :: 0 <= i < |f.labels| && WrongTime(f, rules, now, i) ==> f.labels[i].Number?
  }

  /** There, with any labels, a condition on the first frame alone is exact. */
  lemma CellwiseSurvivorsAreClean(f: Frame, rules: Rules, now: real, bad: set<int>)
    requires FrameOk(f) && Quarantines(f, rules, now, bad) && CellByCell(rules.read)
    ensures Clean(Survivors(f, bad), rules, now) <==>
      && WrongRowsNumbered(f, rules, now) && RepeatedRowsNumbered(f, rules.primaryKey, bad)
      && WrongTimesNumbered(f, rules, now)
  {
    SurvivorsAreClean(f, rules, now, now, bad);
    CellwiseTimes(f, rules, now, bad);
  }

  lemma CellwiseTimes(f: Frame, rules: Rules, now: real, bad: set<int>)
    requires FrameOk(f) && CellByCell(rules.read)
    ensures NewTimesInRange(f, rules, bad, now) <==> WrongTimesNumbered(f, rules, now)
  {
    var kept := Kept(f.labels, bad);
    forall c, k | c in f.columns && 0 <= k < |kept|
      ensures NewReading(f, rules, bad, c, k) == OldReading(f, rules, bad, c, k)
    {
    }
    forall c, i | c in rules.timestamps && c in f.columns && 0 <= i < |f.labels|
                  && f.labels[i].Name? && !InRange(Reading(rules.read, f.columns[c], i), now)
      ensures !NewTimesInRange(f, rules, bad, now)
    {
      var k :| 0 <= k < |kept| && kept[k] == i;
      assert !InRange(NewReading(f, rules, bad, c, k), now);
    }
    forall c, k | c in rules.timestamps && c in f.columns && 0 <= k < |kept|
                  && f.labels[kept[k]].Name? && !InRange(NewReading(f, rules, bad, c, k), now)
      ensures !WrongTimesNumbered(f, rules, now)
    {
      assert WrongTime(f, rules, now, kept[k]);
    }
  }

  /** The first value of a column. */
  function FirstValue(column: Column): Option<int> {
    if column == [] then None
    else if column[0].Value? then Some(column[0].raw)
    else FirstValue(column[1..])
  }

  type Notation = int

  /** A reader that takes the notation of the first value for the whole column: where a cell
      is not written in it, it has no time, or another one. */
  function ByFirst(notation: int -> Notation, parse: (Notation, int) -> Option<real>): Reader {
    Reader((column: Column) => false,
           (column: Column, i: nat) =>
             if i < |column| && column[i].Value? && FirstValue(column).Some?
             then parse(notation(FirstValue(column).value), column[i].raw) else None)
  }

  lemma {:induction false} FirstValueExists(column: Column, i: nat)
    requires i < |column| && column[i].Value?
    ensures FirstValue(column).Some?
  {
    if i > 0 {
      FirstValueExists(column[1..], i - 1);
    }
  }

  lemma ReadingByFirst(read: Reader, column: Column, i: nat, notation: int -> Notation, parse: (Notation, int) -> Option<real>)
    requires read == ByFirst(notation, parse) && i < |column| && column[i].Value?
    ensures FirstValue(column).Some? && Reading(read, column, i) == parse(notation(FirstValue(column).value), column[i].raw)
  {
    FirstValueExists(column, i);
  }

  /** The notation such a reader takes for a column with a value. */
  function NotationOf(notation: int -> Notation, column: Column): Notation {
    match FirstValue(column)
    case Some(first) => notation(first)
    case None => 0
  }

  /** With such a reader and numeric labels, the survivors are clean exactly if every value
      that means another time in the notation of the first survivor than in that of the first
      row is in range. */
  lemma SurvivorsByFirst(f: Frame, rules: Rules, now: real, later: real, bad: set<int>,
                         notation: int -> Notation, parse: (Notation, int) -> Option<real>)
    requires FrameOk(f) && now <= later && Quarantines(f, rules, now, bad) && rules.read == ByFirst(notation, parse)
    requires forall i :: 0 <= i < |f.labels| ==> f.labels[i].Number?
    ensures Clean(Survivors(f, bad), rules, later) <==>
      forall c, k :: c in rules.timestamps && c in f.columns && 0 <= k < |Kept(f.labels, bad)| &&
                     Survivors(f, bad).columns[c][k].Value? ==>
        var before, after := NotationOf(notation, f.columns[c]), NotationOf(notation, Survivors(f, bad).columns[c]);
        var raw := Survivors(f, bad).columns[c][k].raw;
        parse(after, raw) == parse(before, raw) || InRange(parse(after, raw), later)
  {
    var kept, g := Kept(f.labels, bad), Survivors(f, bad);
    forall c, k | c in rules.timestamps && c in f.columns && 0 <= k < |kept| && g.columns[c][k].Value?
      ensures NewReading(f, rules, bad, c, k) == parse(NotationOf(notation, g.columns[c]), g.columns[c][k].raw)
      ensures OldReading(f, rules, bad, c, k) == parse(NotationOf(notation, f.columns[c]), g.columns[c][k].raw)
    {
      assert g.columns[c][k] == f.columns[c][kept[k]];
      ReadingByFirst(rules.read, g.columns[c], k, notation, parse);
      ReadingByFirst(rules.read, f.columns[c], kept[k], notation, parse);
    }
    forall c, k | c in rules.timestamps && c in f.columns && 0 <= k < |kept| && g.columns[c][k].Null?
      ensures NewReading(f, rules, bad, c, k) == OldReading(f, rules, bad, c, k)
    {
      assert g.columns[c][k] == f.columns[c][kept[k]];
    }
    NumberedSurvivorsAreClean(f, rules, now, later, bad);
  }

  // Two rows that show it: "2023-05-01", and "01/02/2023" in another notation.

  /** Each of the two values is a day of 2023 in its own notation and nothing in the other. */
  function ParseTwo(notation: Notation, raw: int): Option<real> {
    if notation == raw then Some(1672617600.0) else None
  }

  function OwnNotation(raw: int): Notation {
    raw
  }

  function TwoDates(): Frame {
    Frame(map["date" := [Value(0, None), Value(1, None)]], [Number(0), Number(1)])
  }

  function TwoDatesRules(): Rules {
    Rules([], ["date"], [], ByFirst(OwnNotation, ParseTwo))
  }

  lemma FirstDateIsQuarantined(now: real)
    ensures FrameOk(TwoDates()) && Quarantines(TwoDates(), TwoDatesRules(), now, {0})
  {
    var f, rules := TwoDates(), TwoDatesRules();
    var column := f.columns["date"];
    assert FirstValue(column) == Some(0);
    ReadingByFirst(rules.read, column, 0, OwnNotation, ParseTwo);
    ReadingByFirst(rules.read, column, 1, OwnNotation, ParseTwo);
    assert HasProblem(f, rules, now, 0, TooEarly("date"));
    assert Flagged(f, rules, now, 0) && !Flagged(f, rules, now, 1);
    assert f.labels[0] == Number(0) && f.labels[1] == Number(1);
    forall n
      ensures n == 0 <==> exists i :: 0 <= i < |f.labels| && f.labels[i] == Number(n) && Flagged(f, rules, now, i)
    {
    }
  }

  lemma SecondDateSurvives()
    ensures Survivors(TwoDates(), {0}).columns == map["date" := [Value(1, None)]]
    ensures |Survivors(TwoDates(), {0}).labels| == 1
  {
    var f := TwoDates();
    var kept := Kept(f.labels, {0});
    assert f.labels[..1] == [Number(0)] && [Number(0)][..0] == [];
    assert Kept([Number(0)], {0}) == [];
    assert kept == [1];
    assert Survivors(f, {0}).columns["date"] == [Value(1, None)];
  }

  /** Numeric labels are not enough. The first row is quarantined for its date; the second,
      without a time as long as the first row is there, is read without it, and is too early. */
  lemma DroppedRowChangesReading(now: real)
    ensures FrameOk(TwoDates()) && Quarantines(TwoDates(), TwoDatesRules(), now, {0})
    ensures !Clean(Survivors(TwoDates(), {0}), TwoDatesRules(), now)
  {
    hide Survivors, Quarantines;
    var g, rules := Survivors(TwoDates(), {0}), TwoDatesRules();
    FirstDateIsQuarantined(now);
    SecondDateSurvives();
    assert FirstValue(g.columns["date"]) == Some(1);
    ReadingByFirst(rules.read, g.columns["date"], 0, OwnNotation, ParseTwo);
    assert HasProblem(g, rules, now, 0, TooEarly("date"));
    assert Flagged(g, rules, now, 0);
  }

  // -------------------------------------------------------------------- the code

  class AttributeValidationResult {
    var valid: bool
    var errors: seq<Error>
    var warnings: nat
    var quarantinedIndices: seq<int>

    /** The list is clean exactly if valid, and the quarantine is read off the errors. */
    ghost predicate Consistent()
      reads this
    {
      && (valid <==> errors == [])
      && (forall n :: n in quarantinedIndices <==> exists e :: e in errors && e.row == Number(n))
    }

    constructor ()
      ensures Consistent() && errors == [] && valid
    {
      valid, errors, warnings, quarantinedIndices := true, [], 0, [];
    }

    method AddError(row: Label, problem: Problem)
      requires Consistent()
      modifies this
      ensures Consistent() && errors == old(errors) + [Error(row, problem)] && warnings == old(warnings)
    {
      errors := errors + [Error(row, problem)];
      if row.Number? {
        quarantinedIndices := quarantinedIndices + [row.n];
      }
      valid := false;
      assert Error(row, problem) in errors;
      assert forall e :: e in errors <==> e in old(errors) || e == Error(row, problem);
    }

    method AddWarning()
      requires Consistent()
      modifies this
      ensures Consistent() && errors == old(errors) && warnings == old(warnings) + 1
    {
      warnings := warnings + 1;
    }
  }

  /** Some row with this label is marked. */
  ghost predicate Marked(f: Frame, mask: seq<bool>, row: Label)
    requires |mask| == |f.labels|
  {
    exists i :: 0 <= i < |mask| && mask[i] && f.labels[i] == row
  }

  /** Reports one problem for every marked row. */
  method FlagRows(f: Frame, mask: seq<bool>, problem: Problem, result: AttributeValidationResult)
    requires |mask| == |f.labels| && result.Consistent()
    modifies result
    ensures result.Consistent() && result.warnings == old(result.warnings)
    ensures forall e :: e in result.errors <==> e in old(result.errors) || (e.problem == problem && Marked(f, mask, e.row))
  {
    for k := 0 to |mask|
      invariant result.Consistent() && result.warnings == old(result.warnings)
      invariant forall e :: e in result.errors <==>
        e in old(result.errors) || (e.problem == problem && exists i :: 0 <= i < k && mask[i] && f.labels[i] == e.row)
    {
      if mask[k] {
        result.AddError(f.labels[k], problem);
      }
    }
  }

  /** What the check of one required field finds. */
  ghost predicate FieldFault(f: Frame, c: string, e: Error)
    requires FrameOk(f)
  {
    if c !in f.columns then e == Error(Name("schema"), NoColumn(c))
    else e.problem == IsNull(c) && exists i :: 0 <= i < |f.labels| && f.labels[i] == e.row && f.columns[c][i].Null?
  }

  method CheckRequiredFields(f: Frame, rules: Rules, ghost now: real, result: AttributeValidationResult)
    requires FrameOk(f) && result.Consistent()
    modifies result
    ensures result.Consistent()
    ensures forall e :: e in result.errors <==>
      e in old(result.errors) || ((e.problem.NoColumn? || e.problem.IsNull?) && Justified(f, rules, now, e))
  {
    for k := 0 to |rules.required|
      invariant result.Consistent()
      invariant forall e :: e in result.errors <==>
        e in old(result.errors) || exists m :: 0 <= m < k && FieldFault(f, rules.required[m], e)
    {
      var c := rules.required[k];
      if c !in f.columns {
        result.AddError(Name("schema"), NoColumn(c));
      } else {
        var column := f.columns[c];
        var mask := seq(|column|, i requires 0 <= i < |column| => column[i].Null?);
        FlagRows(f, mask, IsNull(c), result);
        assert forall e: Error :: e.problem == IsNull(c) ==> (Marked(f, mask, e.row) <==> FieldFault(f, c, e));
      }
    }
    forall e
      ensures (exists m :: 0 <= m < |rules.required| && FieldFault(f, rules.required[m], e))
         <==> (e.problem.NoColumn? || e.problem.IsNull?) && Justified(f, rules, now, e)
    {
      FieldFaults(f, rules, now, e);
    }
  }

  lemma FieldFaults(f: Frame, rules: Rules, now: real, e: Error)
    requires FrameOk(f)
    ensures (exists m :: 0 <= m < |rules.required| && FieldFault(f, rules.required[m], e))
       <==> (e.problem.NoColumn? || e.problem.IsNull?) && Justified(f, rules, now, e)
  {
    if (e.problem.NoColumn? || e.problem.IsNull?) && Justified(f, rules, now, e) {
      var m :| 0 <= m < |rules.required| && rules.required[m] == e.problem.column;
      if e.problem.IsNull? {
        var i :| 0 <= i < |f.labels| && f.labels[i] == e.row && HasProblem(f, rules, now, i, e.problem);
        assert f.columns[e.problem.column][i].Null?;
      }
      assert FieldFault(f, rules.required[m], e);
    }
    if m :| 0 <= m < |rules.required| && FieldFault(f, rules.required[m], e) {
      if e.problem.IsNull? {
        var i :| 0 <= i < |f.labels| && f.labels[i] == e.row && f.columns[rules.required[m]][i].Null?;
        assert HasProblem(f, rules, now, i, e.problem);
      }
    }
  }

  /** What the check of one bound finds. */
  ghost predicate BoundFault(f: Frame, b: Bound, e: Error)
    requires FrameOk(f)
  {
    && b.column in f.columns && e.problem == OutOfRange(b.column)
    && exists i :: 0 <= i < |f.labels| && f.labels[i] == e.row && Outside(f.columns[b.column][i], b)
  }

  method CheckAttributeBounds(f: Frame, ghost rules: Rules, ghost now: real, result: AttributeValidationResult)
    requires FrameOk(f) && result.Consistent()
    modifies result
    ensures result.Consistent()
    ensures forall e :: e in result.errors <==>
      e in old(result.errors) || (e.problem.OutOfRange? && Justified(f, rules, now, e))
  {
    for k := 0 to |ATTRIBUTE_BOUNDS|
      invariant result.Consistent()
      invariant forall e :: e in result.errors <==>
        e in old(result.errors) || exists m :: 0 <= m < k && BoundFault(f, ATTRIBUTE_BOUNDS[m], e)
    {
      var b := ATTRIBUTE_BOUNDS[k];
      if b.column in f.columns {
        var column := f.columns[b.column];
        var mask := seq(|column|, i requires 0 <= i < |column| => Outside(column[i], b));
        FlagRows(f, mask, OutOfRange(b.column), result);
        assert forall e: Error :: e.problem == OutOfRange(b.column) ==> (Marked(f, mask, e.row) <==> BoundFault(f, b, e));
      }
    }
    forall e
      ensures (exists m :: 0 <= m < |ATTRIBUTE_BOUNDS| && BoundFault(f, ATTRIBUTE_BOUNDS[m], e))
         <==> e.problem.OutOfRange? && Justified(f, rules, now, e)
    {
      BoundFaults(f, rules, now, e);
    }
  }

  lemma BoundFaults(f: Frame, rules: Rules, now: real, e: Error)
    requires FrameOk(f)
    ensures (exists m :: 0 <= m < |ATTRIBUTE_BOUNDS| && BoundFault(f, ATTRIBUTE_BOUNDS[m], e))
       <==> e.problem.OutOfRange? && Justified(f, rules, now, e)
  {
    if e.problem.OutOfRange? && Justified(f, rules, now, e) {
      var i :| 0 <= i < |f.labels| && f.labels[i] == e.row && HasProblem(f, rules, now, i, e.problem);
      var b :| b in ATTRIBUTE_BOUNDS && b.column == e.problem.column && Outside(f.columns[e.problem.column][i], b);
      var m :| 0 <= m < |ATTRIBUTE_BOUNDS| && ATTRIBUTE_BOUNDS[m] == b;
      assert BoundFault(f, ATTRIBUTE_BOUNDS[m], e);
    }
    if m :| 0 <= m < |ATTRIBUTE_BOUNDS| && BoundFault(f, ATTRIBUTE_BOUNDS[m], e) {
      var b := ATTRIBUTE_BOUNDS[m];
      var i :| 0 <= i < |f.labels| && f.labels[i] == e.row && Outside(f.columns[b.column][i], b);
      assert b in ATTRIBUTE_BOUNDS && HasProblem(f, rules, now, i, e.problem);
    }
  }

  /** What the check of one timestamp column finds. */
  ghost predicate TimeFault(f: Frame, read: Reader, c: string, now: real, e: Error)
    requires FrameOk(f)
  {
    && c in f.columns
    && exists i :: 0 <= i < |f.labels| && f.labels[i] == e.row && TimeProblem(Reading(read, f.columns[c], i), c, now, e.problem)
  }

  predicate TimeProblem(time: Option<real>, c: string, now: real, p: Problem) {
    if BeforeStart(time) then p == TooEarly(c) else Ahead(time, now) && p == TooLate(c)
  }

  method CheckTimeColumn(f: Frame, read: Reader, c: string, now: real, result: AttributeValidationResult)
    requires FrameOk(f) && c in f.columns && !read.refuses(f.columns[c]) && result.Consistent()
    modifies result
    ensures result.Consistent() && result.warnings == old(result.warnings)
    ensures forall e :: e in result.errors <==> e in old(result.errors) || TimeFault(f, read, c, now, e)
  {
    var column := f.columns[c];
    for k := 0 to |f.labels|
      invariant result.Consistent() && result.warnings == old(result.warnings)
      invariant forall e :: e in result.errors <==>
        e in old(result.errors) || exists i :: 0 <= i < k && f.labels[i] == e.row && TimeProblem(Reading(read, column, i), c, now, e.problem)
    {
      var time := if column[k].Null? then None else read.time(column, k);
      assert time == Reading(read, column, k);
      if BeforeStart(time) {
        result.AddError(f.labels[k], TooEarly(c));
      } else if Ahead(time, now) {
        result.AddError(f.labels[k], TooLate(c));
      }
    }
  }

  /** The columns that draw a warning, each as often as it is listed. */
  function Refused(f: Frame, read: Reader, columns: seq<string>): nat {
    if columns == [] then 0
    else
      var last := columns[|columns| - 1];
      Refused(f, read, columns[..|columns| - 1]) + if last in f.columns && read.refuses(f.columns[last]) then 1 else 0
  }

  method CheckTimestamps(f: Frame, rules: Rules, now: real, result: AttributeValidationResult)
    requires FrameOk(f) && result.Consistent()
    modifies result
    ensures result.Consistent()
    ensures result.warnings == old(result.warnings) + Refused(f, rules.read, rules.timestamps)
    ensures forall e :: e in result.errors <==>
      e in old(result.errors) || ((e.problem.TooEarly? || e.problem.TooLate?) && Justified(f, rules, now, e))
  {
    assert rules.timestamps[..0] == [];
    for k := 0 to |rules.timestamps|
      invariant result.Consistent()
      invariant result.warnings == old(result.warnings) + Refused(f, rules.read, rules.timestamps[..k])
      invariant forall e :: e in result.errors <==>
        e in old(result.errors) || exists m :: 0 <= m < k && TimeFault(f, rules.read, rules.timestamps[m], now, e)
    {
      var c := rules.timestamps[k];
      assert rules.timestamps[..k + 1][..k] == rules.timestamps[..k];
      if c in f.columns {
        if rules.read.refuses(f.columns[c]) {
          result.AddWarning();
          assert forall e :: !TimeFault(f, rules.read, c, now, e);
        } else {
          CheckTimeColumn(f, rules.read, c, now, result);
        }
      }
    }
    assert rules.timestamps[..|rules.timestamps|] == rules.timestamps;
    forall e
      ensures (exists m :: 0 <= m < |rules.timestamps| && TimeFault(f, rules.read, rules.timestamps[m], now, e))
         <==> (e.problem.TooEarly? || e.problem.TooLate?) && Justified(f, rules, now, e)
    {
      TimeFaults(f, rules, now, e);
    }
  }

  lemma TimeFaults(f: Frame, rules: Rules, now: real, e: Error)
    requires FrameOk(f)
    ensures (exists m :: 0 <= m < |rules.timestamps| && TimeFault(f, rules.read, rules.timestamps[m], now, e))
       <==> (e.problem.TooEarly? || e.problem.TooLate?) && Justified(f, rules, now, e)
  {
    if (e.problem.TooEarly? || e.problem.TooLate?) && Justified(f, rules, now, e) {
      var i :| 0 <= i < |f.labels| && f.labels[i] == e.row && HasProblem(f, rules, now, i, e.problem);
      var m :| 0 <= m < |rules.timestamps| && rules.timestamps[m] == e.problem.column;
      assert TimeProblem(Reading(rules.read, f.columns[rules.timestamps[m]], i), rules.timestamps[m], now, e.problem);
      assert TimeFault(f, rules.read, rules.timestamps[m], now, e);
    }
    if m :| 0 <= m < |rules.timestamps| && TimeFault(f, rules.read, rules.timestamps[m], now, e) {
      var c := rules.timestamps[m];
      var i :| 0 <= i < |f.labels| && f.labels[i] == e.row && TimeProblem(Reading(rules.read, f.columns[c], i), c, now, e.problem);
      assert HasProblem(f, rules, now, i, e.problem);
    }
  }

  method CheckDuplicateRecords(f: Frame, rules: Rules, ghost now: real, result: AttributeValidationResult)
    requires FrameOk(f) && result.Consistent() && rules.primaryKey != []
    modifies result
    ensures result.Consistent()
    ensures forall e :: e in result.errors <==> e in old(result.errors) || (e.problem.Duplicate? && Justified(f, rules, now, e))
    ensures result.warnings == old(result.warnings) + if KeyPresent(f, rules.primaryKey) then 0 else 1
  {
    if exists c :: c in rules.primaryKey && c !in f.columns {
      result.AddWarning();
      return;
    }
    var mask := seq(|f.labels|, i requires 0 <= i < |f.labels| => Repeats(f, rules.primaryKey, i));
    FlagRows(f, mask, Duplicate, result);
    forall e: Error | e.problem.Duplicate?
      ensures Marked(f, mask, e.row) <==> Justified(f, rules, now, e)
    {
      if Marked(f, mask, e.row) {
        var i :| 0 <= i < |mask| && mask[i] && f.labels[i] == e.row;
        assert HasProblem(f, rules, now, i, e.problem);
      }
      if Justified(f, rules, now, e) {
        var i :| 0 <= i < |f.labels| && f.labels[i] == e.row && HasProblem(f, rules, now, i, e.problem);
        assert mask[i];
      }
    }
  }

  /** Reports every problem of every row and every missing required column, and nothing
      else; what it quarantines are the numeric labels of the flagged rows. */
  method Validate(f: Frame, rules: Rules, now: real) returns (result: AttributeValidationResult)
    requires FrameOk(f)
    ensures fresh(result) && result.Consistent()
    ensures forall e :: e in result.errors <==> Means(f, rules, now, e)
    ensures forall e :: e in result.errors <==> Justified(f, rules, now, e)
    ensures Quarantines(f, rules, now, set n | n in result.quarantinedIndices)
  {
    result := new AttributeValidationResult();
    CheckRequiredFields(f, rules, now, result);
    CheckAttributeBounds(f, rules, now, result);
    if rules.timestamps != [] {
      CheckTimestamps(f, rules, now, result);
    }
    if rules.primaryKey != [] {
      CheckDuplicateRecords(f, rules, now, result);
    }
    forall e
      ensures e in result.errors <==> Justified(f, rules, now, e)
    {
      NoKeyNoDuplicates(f, rules, now, e);
    }
    forall e
      ensures e in result.errors <==> Means(f, rules, now, e)
    {
      JustifiedMeans(f, rules, now, e);
    }
    QuarantineOf(f, rules, now, result.errors, result.quarantinedIndices);
  }

  /** Without a key there are no duplicates, and without timestamp columns no bad times. */
  lemma NoKeyNoDuplicates(f: Frame, rules: Rules, now: real, e: Error)
    requires FrameOk(f)
    ensures rules.primaryKey == [] && e.problem.Duplicate? ==> !Justified(f, rules, now, e)
    ensures rules.timestamps == [] && (e.problem.TooEarly? || e.problem.TooLate?) ==> !Justified(f, rules, now, e)
  {
  }

  lemma QuarantineOf(f: Frame, rules: Rules, now: real, errors: seq<Error>, quarantined: seq<int>)
    requires FrameOk(f) && forall e :: e in errors <==> Justified(f, rules, now, e)
    requires forall n :: n in quarantined <==> exists e :: e in errors && e.row == Number(n)
    ensures Quarantines(f, rules, now, set n | n in quarantined)
  {
    forall n
      ensures n in quarantined <==> exists i :: 0 <= i < |f.labels| && f.labels[i] == Number(n) && Flagged(f, rules, now, i)
    {
      if n in quarantined {
        var e :| e in errors && e.row == Number(n);
        assert Justified(f, rules, now, e);
        var i :| 0 <= i < |f.labels| && f.labels[i] == e.row && HasProblem(f, rules, now, i, e.problem);
        assert Flagged(f, rules, now, i);
      }
      if i :| 0 <= i < |f.labels| && f.labels[i] == Number(n) && Flagged(f, rules, now, i) {
        var p :| HasProblem(f, rules, now, i, p);
        assert Justified(f, rules, now, Error(Number(n), p));
        assert Error(Number(n), p) in errors;
      }
    }
  }
}
