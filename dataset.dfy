/**
 * The demographic table the dashboard explores: one record per tehsil, keyed by
 * the administrative hierarchy Province > Division > District > Tehsil, with
 * eleven numeric columns that can be summed.
 */
module Dataset {
  /** The four hierarchy levels, outermost first; also the comparison-level choices. */
  datatype Level = Province | Division | District | Tehsil {
    /** Depth in the hierarchy: the number of levels above this one. */
    function Rank(): nat {
      match this
      case Province => 0
      case Division => 1
      case District => 2
      case Tehsil => 3
    }

    /** The level directly above this one. */
    function Parent(): Level
      requires this != Province
    {
      match this
      case Division => Province
      case District => Division
      case Tehsil => District
    }

    /** Column header of the level, as offered in the comparison-level select box. */
    function Name(): string {
      match this
      case Province => "PROVINCE"
      case Division => "DIVISION"
      case District => "DISTRICT"
      case Tehsil => "TEHSIL"
    }

    /** The word used for the level in the per-column chart titles. */
    function Title(): string {
      match this
      case Province => "Province"
      case Division => "Division"
      case District => "District"
      case Tehsil => "Tehsil"
    }
  }

  /** The summable columns, in the order the column pickers offer them. */
  datatype Column =
    | NowPopulation | Population1998 | FemalePopulation | MalePopulation
    | Area | AvgHouseholdSize | TransgenderPopulation | SexRatio
    | AnnualGrowthRate | PopulationDensity | PopulationIncrease
  {
    /** The column's header in the data file. */
    function Name(): string {
      match this
      case NowPopulation => "NOW_POPULATION"
      case Population1998 => "POPULATION 1998"
      case FemalePopulation => "FEMALE_POPULATION"
      case MalePopulation => "MALE_POPULATION"
      case Area => "AREA (sq.km)"
      case AvgHouseholdSize => "AVG_HOUSEHOLD_SIZE"
      case TransgenderPopulation => "TRANSGENDER_POPULATION"
      case SexRatio => "SEX_RATIO"
      case AnnualGrowthRate => "ANNUAL_GROWTH_RATE"
      case PopulationDensity => "Population Density"
      case PopulationIncrease => "POPULATION_INCREASE"
    }
  }

  /** One row of the table. */
  datatype Record = Record(
    province: string, division: string, district: string, tehsil: string,
    nowPopulation: real, population1998: real, femalePopulation: real,
    malePopulation: real, area: real, avgHouseholdSize: real,
    transgenderPopulation: real, sexRatio: real, annualGrowthRate: real,
    populationDensity: real, populationIncrease: real)

  type Table = seq<Record>

  /** The record's hierarchy field at `level`. */
  function Field(r: Record, level: Level): string {
    match level
    case Province => r.province
    case Division => r.division
    case District => r.district
    case Tehsil => r.tehsil
  }

  /** The record's value in column `c`. */
  function Value(r: Record, c: Column): real {
    match c
    case NowPopulation => r.nowPopulation
    case Population1998 => r.population1998
    case FemalePopulation => r.femalePopulation
    case MalePopulation => r.malePopulation
    case Area => r.area
    case AvgHouseholdSize => r.avgHouseholdSize
    case TransgenderPopulation => r.transgenderPopulation
    case SexRatio => r.sexRatio
    case AnnualGrowthRate => r.annualGrowthRate
    case PopulationDensity => r.populationDensity
    case PopulationIncrease => r.populationIncrease
  }

  /** The four multiselect lists, one per level; an empty list means "not chosen". */
  datatype Selection = Selection(
    province: seq<string>, division: seq<string>,
    district: seq<string>, tehsil: seq<string>)
  {
    /** The list chosen at `level`. */
    function At(level: Level): seq<string> {
      match level
      case Province => province
      case Division => division
      case District => district
      case Tehsil => tehsil
    }
  }

  /** `rows[rows[level] == key]`: the rows whose field at `level` is `key`, in order. */
  function Where(rows: Table, level: Level, key: string): (w: Table)
    ensures forall r :: r in w <==> r in rows && Field(r, level) == key
    ensures |w| <= |rows|
  {
    if rows == [] then []
    else
      assert rows == [rows[0]] + rows[1..];
      (if Field(rows[0], level) == key then [rows[0]] else []) + Where(rows[1..], level, key)
  }

  /** The rows whose field at `level` is not `key`: the rows `Where` leaves behind. */
  function Without(rows: Table, level: Level, key: string): (w: Table)
    ensures forall r :: r in w <==> r in rows && Field(r, level) != key
  {
    if rows == [] then []
    else
      assert rows == [rows[0]] + rows[1..];
      (if Field(rows[0], level) != key then [rows[0]] else []) + Without(rows[1..], level, key)
  }

  /** `Where` keeps every copy of a row carrying `key` and no copy of any other row. */
  lemma {:induction false} WhereCounts(rows: Table, level: Level, key: string, r: Record)
    ensures multiset(Where(rows, level, key))[r] == if Field(r, level) == key then multiset(rows)[r] else 0
  {
    if rows != [] {
      var x, rest := rows[0], rows[1..];
      WhereCounts(rest, level, key, r);
      assert multiset(rows) == multiset{x} + multiset(rest) by {
        assert rows == [x] + rest;
      }
      if Field(x, level) == key {
        assert Where(rows, level, key) == [x] + Where(rest, level, key);
      } else {
        assert Where(rows, level, key) == Where(rest, level, key);
      }
    }
  }

  /** `Where` and `Without` split the rows between them, every copy going to exactly one side. */
  lemma {:induction false} WhereWithoutPartition(rows: Table, level: Level, key: string)
    ensures multiset(Where(rows, level, key)) + multiset(Without(rows, level, key)) == multiset(rows)
  {
    if rows != [] {
      var x, rest := rows[0], rows[1..];
      WhereWithoutPartition(rest, level, key);
      assert multiset(rows) == multiset{x} + multiset(rest) by {
        assert rows == [x] + rest;
      }
      if Field(x, level) == key {
        assert Where(rows, level, key) == [x] + Where(rest, level, key);
        assert Without(rows, level, key) == Without(rest, level, key);
      } else {
        assert Where(rows, level, key) == Where(rest, level, key);
        assert Without(rows, level, key) == [x] + Without(rest, level, key);
      }
    }
  }

  /** pandas `rows[c].sum()`, exactly: an empty set of rows sums to 0. */
  function ColumnSum(rows: Table, c: Column): real {
    if rows == [] then 0.0 else Value(rows[0], c) + ColumnSum(rows[1..], c)
  }

  /** A column without negative values has a non-negative total. */
  lemma {:induction false} ColumnSumNonNegative(rows: Table, c: Column)
    requires forall r :: r in rows ==> Value(r, c) >= 0.0
    ensures ColumnSum(rows, c) >= 0.0
  {
    if rows != [] {
      assert rows[0] in rows;
      ColumnSumNonNegative(rows[1..], c);
    }
  }

  /** Summing a column is additive over a split of the rows. */
  lemma {:induction false} ColumnSumAppend(a: Table, b: Table, c: Column)
    ensures ColumnSum(a + b, c) == ColumnSum(a, c) + ColumnSum(b, c)
  {
    if a != [] {
      assert (a + b)[1..] == a[1..] + b;
      ColumnSumAppend(a[1..], b, c);
    } else {
      assert a + b == b;
    }
  }

  /** A key that no row carries contributes 0 to every column. */
  lemma {:induction false} AbsentKeySumsToZero(rows: Table, level: Level, key: string, c: Column)
    requires forall r :: r in rows ==> Field(r, level) != key
    ensures Where(rows, level, key) == []
    ensures ColumnSum(Where(rows, level, key), c) == 0.0
  {
    if rows != [] {
      assert rows[0] in rows;
      AbsentKeySumsToZero(rows[1..], level, key, c);
      assert Where(rows, level, key) == Where(rows[1..], level, key);
    }
  }

  /** A column's total splits into the rows carrying `key` and all the others. */
  lemma {:induction false} ColumnSumSplits(rows: Table, level: Level, key: string, c: Column)
    ensures ColumnSum(rows, c) ==
            ColumnSum(Where(rows, level, key), c) + ColumnSum(Without(rows, level, key), c)
  {
    if rows != [] {
      ColumnSumSplits(rows[1..], level, key, c);
      var x := rows[0];
      if Field(x, level) == key {
        assert Where(rows, level, key) == [x] + Where(rows[1..], level, key);
        assert Without(rows, level, key) == Without(rows[1..], level, key);
        ColumnSumAppend([x], Where(rows[1..], level, key), c);
      } else {
        assert Where(rows, level, key) == Where(rows[1..], level, key);
        assert Without(rows, level, key) == [x] + Without(rows[1..], level, key);
        ColumnSumAppend([x], Without(rows[1..], level, key), c);
      }
    }
  }

  /** Removing the rows of one key does not change which rows carry another. */
  lemma {:induction false} WhereAfterWithout(rows: Table, level: Level, removed: string, key: string)
    requires removed != key
    ensures Where(Without(rows, level, removed), level, key) == Where(rows, level, key)
  {
    if rows != [] {
      WhereAfterWithout(rows[1..], level, removed, key);
      var x := rows[0];
      var tail := Without(rows[1..], level, removed);
      if Field(x, level) != removed {
        assert Without(rows, level, removed) == [x] + tail;
        assert ([x] + tail)[0] == x && ([x] + tail)[1..] == tail;
      } else {
        assert Without(rows, level, removed) == tail;
        assert Where(rows, level, key) == Where(rows[1..], level, key);
      }
    }
  }

  /** For each key in order, the column's total over the rows carrying that key. */
  function LabelSums(rows: Table, level: Level, keys: seq<string>, c: Column): seq<real> {
    seq(|keys|, i requires 0 <= i < |keys| => ColumnSum(Where(rows, level, keys[i]), c))
  }

  /** The values of a list, added up. */
  function Total(xs: seq<real>): real {
    if xs == [] then 0.0 else xs[0] + Total(xs[1..])
  }

  /** Adding up the per-key totals takes the first key's total, then the rest. */
  lemma TotalOfLabelSumsUnfolds(rows: Table, level: Level, keys: seq<string>, c: Column)
    requires keys != []
    ensures Total(LabelSums(rows, level, keys, c)) ==
            ColumnSum(Where(rows, level, keys[0]), c) + Total(LabelSums(rows, level, keys[1..], c))
  {
    assert LabelSums(rows, level, keys, c)[1..] == LabelSums(rows, level, keys[1..], c);
  }

  /** Per-key totals do not see rows of a key outside the list. */
  lemma {:induction false} LabelSumsWithout(rows: Table, level: Level, removed: string, keys: seq<string>, c: Column)
    requires removed !in keys
    ensures Total(LabelSums(Without(rows, level, removed), level, keys, c)) == Total(LabelSums(rows, level, keys, c))
  {
    if keys != [] {
      var others := Without(rows, level, removed);
      TotalOfLabelSumsUnfolds(rows, level, keys, c);
      TotalOfLabelSumsUnfolds(Without(rows, level, removed), level, keys, c);
      WhereAfterWithout(rows, level, removed, keys[0]);
      LabelSumsWithout(rows, level, removed, keys[1..], c);
    }
  }

  /**
   * When every row's field at `level` is one of `keys`, and no key is listed twice,
   * the per-key totals add up to the column's total over all the rows.
   */
  lemma {:induction false} LabelsPartitionTotal(rows: Table, level: Level, keys: seq<string>, c: Column)
    requires forall i, j :: 0 <= i < j < |keys| ==> keys[i] != keys[j]
    requires forall r :: r in rows ==> Field(r, level) in keys
    ensures Total(LabelSums(rows, level, keys, c)) == ColumnSum(rows, c)
    decreases keys
  {
    if keys == [] {
      assert rows == [];
    } else {
      var first := keys[0];
      var others := Without(rows, level, first);
      assert first !in keys[1..];
      forall r | r in others ensures Field(r, level) in keys[1..] {
        assert Field(r, level) in keys && Field(r, level) != first;
      }
      LabelsPartitionTotal(others, level, keys[1..], c);
      LabelSumsWithout(rows, level, first, keys[1..], c);
      TotalOfLabelSumsUnfolds(rows, level, keys, c);
      ColumnSumSplits(rows, level, first, c);
    }
  }
}
