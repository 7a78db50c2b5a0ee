/**
 * dataframe.go: the error-returning, copy-on-write table. A frame is a
 * descriptor map from column name to `Column` and one map per element type
 * from name to series. Every operation that "changes" a frame builds a fresh
 * one; the model's frames are values, so the receiver is never touched.
 *
 * The zero frame `DataFrame{}` has nil maps. Nothing in dataframe.go writes
 * into the maps of a frame it did not just make (every change goes through
 * `Clone`, which allocates), and reading a nil map finds nothing, so the zero
 * frame behaves exactly as the frame with four empty maps, `Zero` below.
 */
module DataFrames {
  import opened Wrappers
  import opened Dtypes
  import opened Errors
  import opened GoNumbers
  import opened SeriesCore

  /** A column descriptor: a name and a type tag, no data. */
  datatype Column = Column(name: string, dType: Dtype)

  /** `NewStringColumn`. */
  function NewStringColumn(name: string): (c: Column)
    ensures c.name == name && c.dType == StringType && Known(c.dType)
  {
    Column(name, StringType)
  }

  /** `NewIntColumn`. */
  function NewIntColumn(name: string): (c: Column)
    ensures c.name == name && c.dType == IntType && Known(c.dType)
  {
    Column(name, IntType)
  }

  /** `NewFloatColumn`. */
  function NewFloatColumn(name: string): (c: Column)
    ensures c.name == name && c.dType == FloatType && Known(c.dType)
  {
    Column(name, FloatType)
  }

  datatype DataFrame = DataFrame(
    columns: map<string, Column>,
    strings: map<string, Series<string>>,
    ints: map<string, Series<Int64>>,
    floats: map<string, Series<Float64>>)

  const Zero: DataFrame := DataFrame(map[], map[], map[], map[])

  /** Every descriptor is filed under its own name and has a known type. */
  ghost predicate WellNamed(columns: map<string, Column>) {
    forall n :: n in columns ==> columns[n].name == n && Known(columns[n].dType)
  }

  /** `typed` holds a series for exactly the columns of type `t`. */
  ghost predicate Files<V>(typed: map<string, V>, columns: map<string, Column>, t: Dtype) {
    forall n :: n in typed <==> n in columns && columns[n].dType == t
  }

  /**
   * The frame invariant: every descriptor is filed under its own name with a
   * known type, and a name has a series in a typed map exactly when its
   * descriptor carries that map's type.
   */
  ghost predicate Valid(df: DataFrame) {
    && WellNamed(df.columns)
    && Files(df.strings, df.columns, StringType)
    && Files(df.ints, df.columns, IntType)
    && Files(df.floats, df.columns, FloatType)
  }

  /** Under the invariant a name is a column iff it sits in exactly one typed map. */
  lemma ExactlyOneTypedMap(df: DataFrame, n: string)
    requires Valid(df)
    ensures n in df.columns <==> n in df.strings || n in df.ints || n in df.floats
    ensures !(n in df.strings && n in df.ints)
    ensures !(n in df.strings && n in df.floats)
    ensures !(n in df.ints && n in df.floats)
  {
  }

  function NamesOf(cs: seq<Column>): set<string> {
    set c | c in cs :: c.name
  }

  ghost predicate DistinctNames(cs: seq<Column>) {
    forall i, j :: 0 <= i < j < |cs| ==> cs[i].name != cs[j].name
  }

  /** `NewDataFrame` stops at column `i` when its name was seen before or its type is unknown. */
  ghost predicate Offends(columns: seq<Column>, i: int)
    requires 0 <= i < |columns|
  {
    columns[i].name in NamesOf(columns[..i]) || !Known(columns[i].dType)
  }

  /** `i` is the first column at which `NewDataFrame` stops. */
  ghost predicate FirstOffender(columns: seq<Column>, i: int) {
    && 0 <= i < |columns|
    && Offends(columns, i)
    && forall j :: 0 <= j < i ==> !Offends(columns, j)
  }

  /** The error for the column at which `NewDataFrame` stops: the name check comes first. */
  function Rejection(columns: seq<Column>, i: int): Error
    requires 0 <= i < |columns|
  {
    if columns[i].name in NamesOf(columns[..i]) then Duplicate("column", columns[i].name)
    else Unknown("column type", Name(columns[i].dType))
  }

  /** No column stops `NewDataFrame` exactly when the names are distinct and the types known. */
  lemma NoOffenderMeansDistinctKnown(cs: seq<Column>)
    ensures (forall i :: 0 <= i < |cs| ==> !Offends(cs, i)) <==>
      DistinctNames(cs) && forall i :: 0 <= i < |cs| ==> Known(cs[i].dType)
  {
    if forall i :: 0 <= i < |cs| ==> !Offends(cs, i) {
      forall i, j | 0 <= i < j < |cs| ensures cs[i].name != cs[j].name {
        assert !Offends(cs, j);
        assert cs[..j][i] == cs[i];
        assert cs[i].name in NamesOf(cs[..j]);
      }
      forall i | 0 <= i < |cs| ensures Known(cs[i].dType) {
        assert !Offends(cs, i);
      }
    }
    if DistinctNames(cs) && forall i :: 0 <= i < |cs| ==> Known(cs[i].dType) {
      forall j | 0 <= j < |cs| ensures !Offends(cs, j) {
        forall c | c in cs[..j] ensures c.name != cs[j].name {
          var i :| 0 <= i < j && cs[..j][i] == c;
        }
      }
    }
  }

  lemma NamesOfSnoc(cs: seq<Column>, c: Column)
    ensures NamesOf(cs + [c]) == NamesOf(cs) + {c.name}
  {
    forall n | n in NamesOf(cs + [c]) ensures n in NamesOf(cs) + {c.name} {
      var d :| d in cs + [c] && d.name == n;
      if d != c {
        assert d in cs;
      }
    }
    forall n | n in NamesOf(cs) + {c.name} ensures n in NamesOf(cs + [c]) {
      if n != c.name {
        var d :| d in cs && d.name == n;
        assert d in cs + [c];
      } else {
        assert c in cs + [c];
      }
    }
  }

  /** Adding a descriptor under a fresh name adds it once to the multiset of descriptors. */
  lemma DescriptorsGrow(m: map<string, Column>, c: Column)
    requires c.name !in m
    requires forall n :: n in m ==> m[n].name == n
    ensures multiset(m[c.name := c].Values) == multiset(m.Values) + multiset{c}
  {
    var m' := m[c.name := c];
    assert m'.Values == m.Values + {c} by {
      forall x | x in m'.Values ensures x in m.Values + {c} {
        var n :| n in m' && m'[n] == x;
        if n != c.name {
          assert m[n] == x;
        }
      }
      forall x | x in m.Values + {c} ensures x in m'.Values {
        if x != c {
          var n :| n in m && m[n] == x;
          assert m'[n] == x;
        } else {
          assert m'[c.name] == c;
        }
      }
    }
    assert c !in m.Values;
  }

  ghost predicate AllEmpty<T>(typed: map<string, Series<T>>) {
    forall n :: n in typed ==> typed[n] == Series([])
  }

  /** Every typed series of the frame is empty, as `NewDataFrame` makes them. */
  ghost predicate Fresh(df: DataFrame) {
    AllEmpty(df.strings) && AllEmpty(df.ints) && AllEmpty(df.floats)
  }

  /** One step of `NewDataFrame`'s loop: `col` declared, with an empty series of its type. */
  ghost function Declared(df: DataFrame, col: Column): DataFrame {
    var d := df.(columns := df.columns[col.name := col]);
    if col.dType == StringType then d.(strings := d.strings[col.name := Series([])])
    else if col.dType == IntType then d.(ints := d.ints[col.name := Series([])])
    else if col.dType == FloatType then d.(floats := d.floats[col.name := Series([])])
    else d
  }

  lemma FilesDeclare<V>(typed: map<string, V>, columns: map<string, Column>, t: Dtype, col: Column, v: V)
    requires Files(typed, columns, t) && col.name !in columns
    ensures col.dType == t ==> Files(typed[col.name := v], columns[col.name := col], t)
    ensures col.dType != t ==> Files(typed, columns[col.name := col], t)
  {
  }

  lemma DeclaredKeepsInvariant(df: DataFrame, col: Column)
    requires Valid(df) && Fresh(df)
    requires col.name !in df.columns && Known(col.dType)
    ensures Valid(Declared(df, col)) && Fresh(Declared(df, col))
    ensures Declared(df, col).columns == df.columns[col.name := col]
  {
    var e: Series<string> := Series([]);
    var i: Series<Int64> := Series([]);
    var f: Series<Float64> := Series([]);
    FilesDeclare(df.strings, df.columns, StringType, col, e);
    FilesDeclare(df.ints, df.columns, IntType, col, i);
    FilesDeclare(df.floats, df.columns, FloatType, col, f);
  }

  /** `NewDataFrame`'s frame after the first `i` columns: exactly those declared, all series empty. */
  ghost predicate Built(df: DataFrame, columns: seq<Column>, i: int) {
    && 0 <= i <= |columns|
    && Valid(df) && Fresh(df)
    && (forall j :: 0 <= j < i ==> !Offends(columns, j))
    && df.columns.Keys == NamesOf(columns[..i])
    && (forall j :: 0 <= j < i ==> columns[j].name in df.columns && df.columns[columns[j].name] == columns[j])
    && multiset(df.columns.Values) == multiset(columns[..i])
  }

  lemma BuiltStart(columns: seq<Column>)
    ensures Built(Zero, columns, 0)
  {
    assert columns[..0] == [];
  }

  lemma BuiltStep(df: DataFrame, columns: seq<Column>, i: int)
    requires Built(df, columns, i) && i < |columns|
    requires columns[i].name !in df.columns && Known(columns[i].dType)
    ensures Built(Declared(df, columns[i]), columns, i + 1)
  {
    var col := columns[i];
    assert columns[..i + 1] == columns[..i] + [col];
    NamesOfSnoc(columns[..i], col);
    DeclaredKeepsInvariant(df, col);
    DescriptorsGrow(df.columns, col);
    assert !Offends(columns, i);
  }

  lemma BuiltStops(df: DataFrame, columns: seq<Column>, i: int)
    requires Built(df, columns, i) && i < |columns|
    requires columns[i].name in df.columns || !Known(columns[i].dType)
    ensures FirstOffender(columns, i)
    ensures columns[i].name in df.columns ==> Rejection(columns, i) == Duplicate("column", columns[i].name)
    ensures columns[i].name !in df.columns ==> Rejection(columns, i) == Unknown("column type", Name(columns[i].dType))
  {
  }

  lemma BuiltAll(df: DataFrame, columns: seq<Column>)
    requires Built(df, columns, |columns|)
    ensures Valid(df) && Fresh(df)
    ensures forall i :: 0 <= i < |columns| ==> !Offends(columns, i)
    ensures df.columns.Keys == NamesOf(columns)
    ensures forall c :: c in columns ==> c.name in df.columns && df.columns[c.name] == c
    ensures multiset(df.columns.Values) == multiset(columns)
  {
    assert columns[..|columns|] == columns;
    forall c | c in columns ensures c.name in df.columns && df.columns[c.name] == c {
      var j :| 0 <= j < |columns| && columns[j] == c;
    }
  }

  /**
   * `NewDataFrame`: on distinct names and known types, a frame that declares
   * exactly the given columns, each with an empty series in the map of its
   * type. Otherwise the error of the first offending column, in input order,
   * and the zero frame, never a partial one.
   */
  method NewDataFrame(columns: seq<Column>) returns (df: DataFrame, err: Option<Error>)
    ensures err == None <==> forall i :: 0 <= i < |columns| ==> !Offends(columns, i)
    ensures err == None ==>
      && Valid(df)
      && Fresh(df)
      && df.columns.Keys == NamesOf(columns)
      && (forall c :: c in columns ==> c.name in df.columns && df.columns[c.name] == c)
      && multiset(df.columns.Values) == multiset(columns)
    ensures err != None ==>
      df == Zero && exists i :: FirstOffender(columns, i) && err == Some(Rejection(columns, i))
  {
    df := Zero;
    BuiltStart(columns);
    for i := 0 to |columns|
      invariant Built(df, columns, i)
    {
      var col := columns[i];
      if col.name in df.columns {
        BuiltStops(df, columns, i);
        err := Some(Duplicate("column", col.name));
        df := Zero;
        return;
      }
      ghost var before := df;
      df := df.(columns := df.columns[col.name := col]);
      if col.dType == StringType {
        df := df.(strings := df.strings[col.name := Series([])]);
      } else if col.dType == IntType {
        df := df.(ints := df.ints[col.name := Series([])]);
      } else if col.dType == FloatType {
        df := df.(floats := df.floats[col.name := Series([])]);
      } else {
        BuiltStops(before, columns, i);
        err := Some(Unknown("column type", Name(col.dType)));
        df := Zero;
        return;
      }
      BuiltStep(before, columns, i);
    }
    BuiltAll(df, columns);
    err := None;
  }

  /** The descriptors filed under the keys `ks`. */
  function Restrict(m: map<string, Column>, ks: set<string>): set<Column> {
    set k | k in ks && k in m :: m[k]
  }

  lemma RestrictGrows(m: map<string, Column>, done: set<string>, name: string)
    requires name in m && name !in done
    requires forall n :: n in m ==> m[n].name == n
    ensures multiset(Restrict(m, done + {name})) == multiset(Restrict(m, done)) + multiset{m[name]}
  {
    var col := m[name];
    assert Restrict(m, done + {name}) == Restrict(m, done) + {col} by {
      forall x | x in Restrict(m, done + {name}) ensures x in Restrict(m, done) + {col} {
        var k :| k in done + {name} && k in m && m[k] == x;
        if k != name {
          assert x in Restrict(m, done);
        }
      }
    }
    assert col !in Restrict(m, done);
  }

  lemma RestrictAll(m: map<string, Column>)
    ensures Restrict(m, m.Keys) == m.Values
  {
    forall x | x in m.Values ensures x in Restrict(m, m.Keys) {
      var k :| k in m && m[k] == x;
    }
  }

  lemma DistinctSnoc(cols: seq<Column>, col: Column, done: set<string>)
    requires DistinctNames(cols) && col.name !in done
    requires forall k :: 0 <= k < |cols| ==> cols[k].name in done
    ensures DistinctNames(cols + [col])
    ensures forall k :: 0 <= k < |cols| + 1 ==> (cols + [col])[k].name in done + {col.name}
  {
  }

  /** `Columns`: every descriptor once, in the map's (unspecified) iteration order. */
  method Columns(df: DataFrame) returns (cols: seq<Column>)
    requires Valid(df)
    ensures multiset(cols) == multiset(df.columns.Values)
    ensures DistinctNames(cols)
  {
    cols := [];
    ghost var done: set<string> := {};
    var remaining := df.columns.Keys;
    while remaining != {}
      invariant remaining <= df.columns.Keys && done == df.columns.Keys - remaining
      invariant multiset(cols) == multiset(Restrict(df.columns, done))
      invariant forall k :: 0 <= k < |cols| ==> cols[k].name in done
      invariant DistinctNames(cols)
      decreases remaining
    {
      var name :| name in remaining;
      var col := df.columns[name];
      RestrictGrows(df.columns, done, name);
      DistinctSnoc(cols, col, done);
      cols := cols + [col];
      done := done + {name};
      remaining := remaining - {name};
    }
    RestrictAll(df.columns);
  }
  /** `StringColumn`: a copy of the stored series, or `Unknown` and an empty series. */
  function StringColumn(df: DataFrame, name: string): (r: (Series<string>, Option<Error>))
    ensures r.1 == None <==> name in df.strings
    ensures name in df.strings ==> r.0 == df.strings[name]
    ensures name !in df.strings ==> r == (Series([]), Some(Unknown("column", name)))
  {
    if name in df.strings then (SeriesCore.Clone(df.strings[name]), None)
    else (Series([]), Some(Unknown("column", name)))
  }

  /** `IntColumn`: a copy of the stored series, or `Unknown` and an empty series. */
  function IntColumn(df: DataFrame, name: string): (r: (Series<Int64>, Option<Error>))
    ensures r.1 == None <==> name in df.ints
    ensures name in df.ints ==> r.0 == df.ints[name]
    ensures name !in df.ints ==> r == (Series([]), Some(Unknown("column", name)))
  {
    if name in df.ints then (SeriesCore.Clone(df.ints[name]), None)
    else (Series([]), Some(Unknown("column", name)))
  }

  /** `FloatColumn`: a copy of the stored series, or `Unknown` and an empty series. */
  function FloatColumn(df: DataFrame, name: string): (r: (Series<Float64>, Option<Error>))
    ensures r.1 == None <==> name in df.floats
    ensures name in df.floats ==> r.0 == df.floats[name]
    ensures name !in df.floats ==> r == (Series([]), Some(Unknown("column", name)))
  {
    if name in df.floats then (SeriesCore.Clone(df.floats[name]), None)
    else (Series([]), Some(Unknown("column", name)))
  }

  /**
   * A typed getter succeeds exactly when the descriptor map holds the name
   * with that getter's type; a column of another type reads as `Unknown`.
   */
  lemma GettersFollowDescriptors(df: DataFrame, name: string)
    requires Valid(df)
    ensures StringColumn(df, name).1 == None <==> name in df.columns && df.columns[name].dType == StringType
    ensures IntColumn(df, name).1 == None <==> name in df.columns && df.columns[name].dType == IntType
    ensures FloatColumn(df, name).1 == None <==> name in df.columns && df.columns[name].dType == FloatType
    ensures name in df.columns ==>
      (StringColumn(df, name).1 == None) != (IntColumn(df, name).1 == None || FloatColumn(df, name).1 == None)
  {
  }

  /** The descriptors `NewDataFrame` declares from an enumeration of `df`'s columns are `df`'s. */
  lemma RebuiltDescriptors(df: DataFrame, cols: seq<Column>, rebuilt: DataFrame)
    requires Valid(df)
    requires multiset(cols) == multiset(df.columns.Values)
    requires rebuilt.columns.Keys == NamesOf(cols)
    requires forall c :: c in cols ==> rebuilt.columns[c.name] == c
    ensures rebuilt.columns == df.columns
  {
    forall n | n in df.columns ensures n in rebuilt.columns && rebuilt.columns[n] == df.columns[n] {
      assert df.columns[n] in multiset(cols);
    }
    forall n | n in rebuilt.columns ensures n in df.columns {
      var c :| c in cols && c.name == n;
      assert c in multiset(df.columns.Values);
    }
  }

  /** Two valid frames with the same descriptors and the same series are equal. */
  lemma SameFrame(a: DataFrame, b: DataFrame)
    requires Valid(a) && Valid(b) && a.columns == b.columns
    requires forall n :: n in a.strings ==> a.strings[n] == b.strings[n]
    requires forall n :: n in a.ints ==> a.ints[n] == b.ints[n]
    requires forall n :: n in a.floats ==> a.floats[n] == b.floats[n]
    ensures a == b
  {
    assert a.strings == b.strings;
    assert a.ints == b.ints;
    assert a.floats == b.floats;
  }

  /** Outside `pending`, every series of `typed` is the one `source` holds. */
  ghost predicate Agrees<T>(typed: map<string, Series<T>>, source: map<string, Series<T>>, pending: set<string>) {
    forall n :: n in typed && n !in pending ==> n in source && typed[n] == source[n]
  }

  /** One step of `Clone`'s copy loop, for the typed map that holds `name` and for the two that do not. */
  lemma CopyStep<T>(typed: map<string, Series<T>>, source: map<string, Series<T>>,
                    columns: map<string, Column>, t: Dtype, pending: set<string>, name: string)
    requires Files(typed, columns, t) && Agrees(typed, source, pending)
    requires name in typed <==> name in source
    ensures name in typed ==>
      Files(typed[name := source[name]], columns, t) && Agrees(typed[name := source[name]], source, pending - {name})
    ensures name !in typed ==> Agrees(typed, source, pending - {name})
  {
  }

  /** An enumeration of a valid frame's descriptors passes `NewDataFrame`'s checks. */
  lemma EnumerationAccepted(df: DataFrame, cols: seq<Column>)
    requires Valid(df)
    requires multiset(cols) == multiset(df.columns.Values) && DistinctNames(cols)
    ensures forall i :: 0 <= i < |cols| ==> !Offends(cols, i)
  {
    forall i | 0 <= i < |cols| ensures Known(cols[i].dType) {
      assert cols[i] in multiset(df.columns.Values);
    }
    NoOffenderMeansDistinctKnown(cols);
  }

  /** `Clone`: an equal frame, rebuilt from the descriptors; its inner `NewDataFrame` cannot fail. */
  method Clone(df: DataFrame) returns (cloned: DataFrame)
    requires Valid(df)
    ensures cloned == df
  {
    var cols := Columns(df);
    EnumerationAccepted(df, cols);
    var err;
    cloned, err := NewDataFrame(cols);
    RebuiltDescriptors(df, cols, cloned);
    var remaining := df.columns.Keys;
    while remaining != {}
      invariant remaining <= df.columns.Keys
      invariant Valid(cloned) && cloned.columns == df.columns
      invariant Agrees(cloned.strings, df.strings, remaining)
      invariant Agrees(cloned.ints, df.ints, remaining)
      invariant Agrees(cloned.floats, df.floats, remaining)
      decreases remaining
    {
      var name :| name in remaining;
      var col := df.columns[name];
      CopyStep(cloned.strings, df.strings, df.columns, StringType, remaining, name);
      CopyStep(cloned.ints, df.ints, df.columns, IntType, remaining, name);
      CopyStep(cloned.floats, df.floats, df.columns, FloatType, remaining, name);
      if col.dType == StringType {
        cloned := cloned.(strings := cloned.strings[col.name := df.strings[col.name]]);
      } else if col.dType == IntType {
        cloned := cloned.(ints := cloned.ints[col.name := df.ints[col.name]]);
      } else if col.dType == FloatType {
        cloned := cloned.(floats := cloned.floats[col.name := df.floats[col.name]]);
      }
      remaining := remaining - {name};
    }
    SameFrame(cloned, df);
  }

  /**
   * `DropColumn`: the name removed from all four maps and nothing else
   * changed; afterwards every getter reports the name `Unknown`.
   */
  method DropColumn(df: DataFrame, name: string) returns (changed: DataFrame)
    requires Valid(df)
    ensures Valid(changed)
    ensures changed == DataFrame(df.columns - {name}, df.strings - {name}, df.ints - {name}, df.floats - {name})
    ensures name !in df.columns ==> changed == df
    ensures StringColumn(changed, name).1 == Some(Unknown("column", name))
    ensures IntColumn(changed, name).1 == Some(Unknown("column", name))
    ensures FloatColumn(changed, name).1 == Some(Unknown("column", name))
    ensures forall n :: n != name ==>
      && StringColumn(changed, n) == StringColumn(df, n)
      && IntColumn(changed, n) == IntColumn(df, n)
      && FloatColumn(changed, n) == FloatColumn(df, n)
  {
    changed := Clone(df);
    changed := changed.(columns := changed.columns - {name});
    // a name lives in one typed map only, so just one of these deletes removes something
    changed := changed.(strings := changed.strings - {name});
    changed := changed.(ints := changed.ints - {name});
    changed := changed.(floats := changed.floats - {name});
  }

  /**
   * `SetStringColumn`: an absent name becomes a new string column holding
   * `value`; a string column has its series replaced; a column of another
   * type leaves the copy equal to the receiver, with no error.
   */
  method SetStringColumn(df: DataFrame, colName: string, value: Series<string>) returns (changed: DataFrame)
    requires Valid(df)
    ensures Valid(changed)
    ensures colName !in df.columns ==>
      changed == df.(columns := df.columns[colName := NewStringColumn(colName)], strings := df.strings[colName := value])
    ensures colName in df.strings ==> changed == df.(strings := df.strings[colName := value])
    ensures colName in df.columns && colName !in df.strings ==> changed == df
    ensures colName !in df.columns || colName in df.strings ==> StringColumn(changed, colName) == (value, None)
    ensures forall n :: n != colName ==>
      && StringColumn(changed, n) == StringColumn(df, n)
      && IntColumn(changed, n) == IntColumn(df, n)
      && FloatColumn(changed, n) == FloatColumn(df, n)
  {
    changed := Clone(df);
    if colName !in changed.columns {
      changed := changed.(columns := changed.columns[colName := NewStringColumn(colName)]);
    } else if colName !in changed.strings {
      // the source logs a warning and returns the unchanged copy
      return;
    }
    changed := changed.(strings := changed.strings[colName := SeriesCore.Clone(value)]);
  }

  /** `SetIntColumn`: as `SetStringColumn`, for the int map. */
  method SetIntColumn(df: DataFrame, colName: string, value: Series<Int64>) returns (changed: DataFrame)
    requires Valid(df)
    ensures Valid(changed)
    ensures colName !in df.columns ==>
      changed == df.(columns := df.columns[colName := NewIntColumn(colName)], ints := df.ints[colName := value])
    ensures colName in df.ints ==> changed == df.(ints := df.ints[colName := value])
    ensures colName in df.columns && colName !in df.ints ==> changed == df
    ensures colName !in df.columns || colName in df.ints ==> IntColumn(changed, colName) == (value, None)
    ensures forall n :: n != colName ==>
      && StringColumn(changed, n) == StringColumn(df, n)
      && IntColumn(changed, n) == IntColumn(df, n)
      && FloatColumn(changed, n) == FloatColumn(df, n)
  {
    changed := Clone(df);
    if colName !in changed.columns {
      changed := changed.(columns := changed.columns[colName := NewIntColumn(colName)]);
    } else if colName !in changed.ints {
      // the source logs a warning and returns the unchanged copy
      return;
    }
    changed := changed.(ints := changed.ints[colName := SeriesCore.Clone(value)]);
  }

  /** `SetFloatColumn`: as `SetStringColumn`, for the float map. */
  method SetFloatColumn(df: DataFrame, colName: string, value: Series<Float64>) returns (changed: DataFrame)
    requires Valid(df)
    ensures Valid(changed)
    ensures colName !in df.columns ==>
      changed == df.(columns := df.columns[colName := NewFloatColumn(colName)], floats := df.floats[colName := value])
    ensures colName in df.floats ==> changed == df.(floats := df.floats[colName := value])
    ensures colName in df.columns && colName !in df.floats ==> changed == df
    ensures colName !in df.columns || colName in df.floats ==> FloatColumn(changed, colName) == (value, None)
    ensures forall n :: n != colName ==>
      && StringColumn(changed, n) == StringColumn(df, n)
      && IntColumn(changed, n) == IntColumn(df, n)
      && FloatColumn(changed, n) == FloatColumn(df, n)
  {
    changed := Clone(df);
    if colName !in changed.columns {
      changed := changed.(columns := changed.columns[colName := NewFloatColumn(colName)]);
    } else if colName !in changed.floats {
      // the source logs a warning and returns the unchanged copy
      return;
    }
    changed := changed.(floats := changed.floats[colName := SeriesCore.Clone(value)]);
  }
}
