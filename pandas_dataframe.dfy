/**
 * pandas/DataFrame.go: the panicking variant of the table. Its maps start
 * out nil (the zero `DataFrame{}`), and writing into a nil map is a Go
 * runtime panic, so the nil/allocated distinction is kept here: a `NilMap`
 * is `Nil` or an allocated map. A call either finishes with a value or
 * panics with a message (`Outcome`).
 *
 * The package's `Column` type and its three constructors are the same as
 * dataframe.go's and are taken from `DataFrames`.
 */
module PandasFrames {
  import opened Dtypes
  import opened GoNumbers
  import opened SeriesCore
  import DataFrames

  type Column = DataFrames.Column

  datatype NilMap<V> = Nil | Made(m: map<string, V>)

  /** What reading the map finds: nothing, for a nil map. */
  function Entries<V>(nm: NilMap<V>): map<string, V> {
    if nm.Nil? then map[] else nm.m
  }

  datatype Outcome<T> = Done(value: T) | Panic(message: string)

  const NilMapWrite: string := "assignment to entry in nil map"

  /** `m[k] = v`: a runtime panic on a nil map. */
  function Store<V>(nm: NilMap<V>, k: string, v: V): (r: Outcome<NilMap<V>>)
    ensures r.Panic? <==> nm.Nil?
    ensures r.Panic? ==> r.message == NilMapWrite
    ensures r.Done? ==> r.value.Made? && Entries(r.value) == Entries(nm)[k := v]
  {
    if nm.Nil? then Panic(NilMapWrite) else Done(Made(nm.m[k := v]))
  }

  /** `delete(m, k)`: a no-op on a nil map, which stays nil. */
  function Delete<V>(nm: NilMap<V>, k: string): (r: NilMap<V>)
    ensures r.Nil? <==> nm.Nil?
    ensures Entries(r) == Entries(nm) - {k}
  {
    if nm.Nil? then Nil else Made(nm.m - {k})
  }

  datatype PFrame = PFrame(
    columns: NilMap<Column>,
    strings: NilMap<Series<string>>,
    ints: NilMap<Series<Int64>>,
    floats: NilMap<Series<Float64>>)

  /** `DataFrame{}`: every map nil. */
  const Zero: PFrame := PFrame(Nil, Nil, Nil, Nil)

  /** A frame whose four maps are allocated and empty, as the intended constructor would start. */
  const Allocated: PFrame := PFrame(Made(map[]), Made(map[]), Made(map[]), Made(map[]))

  predicate AllMade(df: PFrame) {
    df.columns.Made? && df.strings.Made? && df.ints.Made? && df.floats.Made?
  }

  function DuplicateMessage(name: string): string {
    "duplicate column name: " + name
  }

  function UnknownTypeMessage(col: Column): string {
    "unknown column type: " + Name(col.dType) + " for column: " + col.name
  }

  /** One pass of `NewDataFrame`'s loop over `col`. */
  function Admit(df: PFrame, col: Column): Outcome<PFrame> {
    if col.name in Entries(df.columns) then Panic(DuplicateMessage(col.name))
    else match Store(df.columns, col.name, col)
      case Panic(m) => Panic(m)
      case Done(cs) =>
        var d := df.(columns := cs);
        if col.dType == StringType then
          match Store(d.strings, col.name, Series([])) case Panic(m) => Panic(m) case Done(s) => Done(d.(strings := s))
        else if col.dType == IntType then
          match Store(d.ints, col.name, Series([])) case Panic(m) => Panic(m) case Done(s) => Done(d.(ints := s))
        else if col.dType == FloatType then
          match Store(d.floats, col.name, Series([])) case Panic(m) => Panic(m) case Done(s) => Done(d.(floats := s))
        else Panic(UnknownTypeMessage(col))
  }

  /** `NewDataFrame`'s loop run over `cols` from the frame `df`: the first panic, or the frame it ends with. */
  function Populated(df: PFrame, cols: seq<Column>): Outcome<PFrame>
    decreases |cols|
  {
    if cols == [] then Done(df)
    else match Admit(df, cols[0])
      case Panic(m) => Panic(m)
      case Done(d) => Populated(d, cols[1..])
  }

  /** `NewDataFrame`'s loop, from any starting frame. */
  method Populate(start: PFrame, columns: seq<Column>) returns (r: Outcome<PFrame>)
    ensures r == Populated(start, columns)
  {
    var df := start;
    for i := 0 to |columns|
      invariant Populated(start, columns) == Populated(df, columns[i..])
    {
      var col := columns[i];
      assert columns[i..][0] == col && columns[i..][1..] == columns[i + 1..];
      if col.name in Entries(df.columns) {
        return Panic(DuplicateMessage(col.name));
      }
      var stored := Store(df.columns, col.name, col);
      if stored.Panic? {
        return Panic(stored.message);
      }
      df := df.(columns := stored.value);
      if col.dType == StringType {
        var s := Store(df.strings, col.name, Series([]));
        if s.Panic? {
          return Panic(s.message);
        }
        df := df.(strings := s.value);
      } else if col.dType == IntType {
        var s := Store(df.ints, col.name, Series([]));
        if s.Panic? {
          return Panic(s.message);
        }
        df := df.(ints := s.value);
      } else if col.dType == FloatType {
        var s := Store(df.floats, col.name, Series([]));
        if s.Panic? {
          return Panic(s.message);
        }
        df := df.(floats := s.value);
      } else {
        return Panic(UnknownTypeMessage(col));
      }
    }
    assert columns[|columns|..] == [];
    r := Done(df);
  }

  /**
   * `NewDataFrame`: it starts from the zero frame, so the first column's
   * descriptor write panics; only the empty column list gets through.
   */
  method NewDataFrame(columns: seq<Column>) returns (r: Outcome<PFrame>)
    ensures |columns| == 0 ==> r == Done(Zero)
    ensures |columns| > 0 ==> r == Panic(NilMapWrite)
  {
    r := Populate(Zero, columns);
  }

  lemma NamesOfCons(c: Column, rest: seq<Column>, i: int)
    requires 0 <= i < |rest|
    ensures DataFrames.NamesOf(([c] + rest)[..i + 1]) == {c.name} + DataFrames.NamesOf(rest[..i])
  {
    assert ([c] + rest)[..i + 1] == [c] + rest[..i];
    DataFrames.NamesOfSnoc([c], c);
    forall n | n in DataFrames.NamesOf([c] + rest[..i]) ensures n in {c.name} + DataFrames.NamesOf(rest[..i]) {
      var d :| d in [c] + rest[..i] && d.name == n;
      if d != c {
        assert d in rest[..i];
      }
    }
    forall n | n in {c.name} + DataFrames.NamesOf(rest[..i]) ensures n in DataFrames.NamesOf([c] + rest[..i]) {
      if n == c.name {
        assert c in [c] + rest[..i];
      } else {
        var d :| d in rest[..i] && d.name == n;
        assert d in [c] + rest[..i];
      }
    }
  }

  /** Column `i` passes the loop's checks against the names `existing` already present. */
  ghost predicate Admissible(existing: set<string>, cols: seq<Column>, i: int)
    requires 0 <= i < |cols|
  {
    cols[i].name !in existing && !DataFrames.Offends(cols, i)
  }

  /** Admitting a fresh column of known type allocates nothing new and adds its name. */
  lemma AdmitGrows(df: PFrame, c: Column)
    requires AllMade(df) && c.name !in Entries(df.columns) && Known(c.dType)
    ensures Admit(df, c).Done?
    ensures AllMade(Admit(df, c).value)
    ensures Entries(Admit(df, c).value.columns).Keys == Entries(df.columns).Keys + {c.name}
  {
  }

  /** After admitting `c`, the rest passes against the grown names iff the whole list passes. */
  lemma AdmissibleShift(existing: set<string>, c: Column, rest: seq<Column>)
    requires c.name !in existing && Known(c.dType)
    ensures (forall i :: 0 <= i < |rest| ==> Admissible(existing + {c.name}, rest, i)) <==>
            (forall i :: 0 <= i < |rest| + 1 ==> Admissible(existing, [c] + rest, i))
  {
    var cols := [c] + rest;
    assert Admissible(existing, cols, 0) by {
      assert cols[..0] == [];
    }
    forall i | 0 <= i < |rest|
      ensures Admissible(existing + {c.name}, rest, i) <==> Admissible(existing, cols, i + 1)
    {
      NamesOfCons(c, rest, i);
      assert cols[i + 1] == rest[i];
    }
    if forall i :: 0 <= i < |rest| ==> Admissible(existing + {c.name}, rest, i) {
      forall i | 0 <= i < |cols| ensures Admissible(existing, cols, i) {
        if i > 0 {
          assert Admissible(existing + {c.name}, rest, i - 1);
        }
      }
    }
  }

  /** The loop from an allocated frame admits `cols` exactly when none repeats a name, earlier or already present, and every type is known. */
  lemma {:induction false} PopulatedFromAllocated(df: PFrame, cols: seq<Column>)
    requires AllMade(df)
    ensures Populated(df, cols).Done? <==>
      forall i :: 0 <= i < |cols| ==> Admissible(Entries(df.columns).Keys, cols, i)
    decreases |cols|
  {
    if cols != [] {
      var c := cols[0];
      var rest := cols[1..];
      assert cols == [c] + rest;
      if c.name !in Entries(df.columns) && Known(c.dType) {
        AdmitGrows(df, c);
        var d := Admit(df, c).value;
        PopulatedFromAllocated(d, rest);
        AdmissibleShift(Entries(df.columns).Keys, c, rest);
      } else {
        assert cols[..0] == [];
        assert !Admissible(Entries(df.columns).Keys, cols, 0);
      }
    }
  }

  /**
   * Started from allocated maps, as evidently intended, the loop succeeds
   * on exactly the column lists that dataframe.go's `NewDataFrame` accepts.
   */
  lemma AllocatedAgreesWithDataFrames(cols: seq<Column>)
    ensures Populated(Allocated, cols).Done? <==> forall i :: 0 <= i < |cols| ==> !DataFrames.Offends(cols, i)
  {
    PopulatedFromAllocated(Allocated, cols);
    assert Entries(Allocated.columns).Keys == {};
    forall i | 0 <= i < |cols| ensures Admissible({}, cols, i) <==> !DataFrames.Offends(cols, i) {
    }
  }

  /**
   * The loop from allocated maps, once `i` columns are in: every further
   * admitted column is declared as dataframe.go declares it.
   */
  lemma {:induction false} PopulatedBuilds(df: PFrame, cols: seq<Column>, i: int)
    requires AllMade(df) && DataFrames.Built(View(df), cols, i)
    ensures Populated(df, cols[i..]).Done? ==>
      AllMade(Populated(df, cols[i..]).value) && DataFrames.Built(View(Populated(df, cols[i..]).value), cols, |cols|)
    decreases |cols| - i
  {
    if i < |cols| {
      var c := cols[i];
      assert cols[i..][0] == c && cols[i..][1..] == cols[i + 1..];
      if c.name !in Entries(df.columns) && Known(c.dType) {
        var d := Admit(df, c).value;
        assert View(d) == DataFrames.Declared(View(df), c);
        DataFrames.BuiltStep(View(df), cols, i);
        PopulatedBuilds(d, cols, i + 1);
      }
    }
  }

  /**
   * `NewDataFrame` as evidently intended: the same loop started from
   * allocated empty maps. It accepts what dataframe.go's accepts and builds
   * the same frame: each column filed under its name, with an empty series
   * in the map of its type.
   */
  method NewDataFrameIntended(columns: seq<Column>) returns (r: Outcome<PFrame>)
    ensures r.Done? <==> forall i :: 0 <= i < |columns| ==> !DataFrames.Offends(columns, i)
    ensures r.Done? ==>
      && AllMade(r.value)
      && DataFrames.Valid(View(r.value))
      && DataFrames.Fresh(View(r.value))
      && Entries(r.value.columns).Keys == DataFrames.NamesOf(columns)
      && (forall c :: c in columns ==> c.name in Entries(r.value.columns) && Entries(r.value.columns)[c.name] == c)
      && multiset(Entries(r.value.columns).Values) == multiset(columns)
  {
    r := Populate(Allocated, columns);
    AllocatedAgreesWithDataFrames(columns);
    DataFrames.BuiltStart(columns);
    assert View(Allocated) == DataFrames.Zero && columns[0..] == columns;
    PopulatedBuilds(Allocated, columns, 0);
    if r.Done? {
      DataFrames.BuiltAll(View(r.value), columns);
    }
  }

  /** `Columns`: one descriptor per key, in some order of the keys. */
  method Columns(df: PFrame) returns (cols: seq<Column>, ghost order: seq<string>)
    ensures |order| == |cols|
    ensures forall k :: k in order <==> k in Entries(df.columns)
    ensures forall i, j :: 0 <= i < j < |order| ==> order[i] != order[j]
    ensures forall i :: 0 <= i < |cols| ==> order[i] in Entries(df.columns) && cols[i] == Entries(df.columns)[order[i]]
    ensures forall c :: c in cols <==> c in Entries(df.columns).Values
  {
    var m := Entries(df.columns);
    cols := [];
    order := [];
    var remaining := m.Keys;
    while remaining != {}
      invariant remaining <= m.Keys
      invariant |order| == |cols|
      invariant forall k :: k in order <==> k in m && k !in remaining
      invariant forall i, j :: 0 <= i < j < |order| ==> order[i] != order[j]
      invariant forall i :: 0 <= i < |cols| ==> order[i] in m && cols[i] == m[order[i]]
      invariant forall k :: k in m && k !in remaining ==> m[k] in cols
      decreases remaining
    {
      var name :| name in remaining;
      cols := cols + [m[name]];
      order := order + [name];
      remaining := remaining - {name};
    }
  }

  /** `StringColumn`: the stored series itself, or a panic naming the column. */
  function StringColumn(df: PFrame, colName: string): (r: Outcome<Series<string>>)
    ensures r.Done? <==> colName in Entries(df.strings)
    ensures r.Done? ==> r.value == Entries(df.strings)[colName]
    ensures r.Panic? ==> r.message == "string column named " + colName + " not found"
  {
    if colName in Entries(df.strings) then Done(Entries(df.strings)[colName])
    else Panic("string column named " + colName + " not found")
  }

  /** `IntColumn`: the stored series itself, or a panic naming the column. */
  function IntColumn(df: PFrame, colName: string): (r: Outcome<Series<Int64>>)
    ensures r.Done? <==> colName in Entries(df.ints)
    ensures r.Done? ==> r.value == Entries(df.ints)[colName]
    ensures r.Panic? ==> r.message == "int column named " + colName + " not found"
  {
    if colName in Entries(df.ints) then Done(Entries(df.ints)[colName])
    else Panic("int column named " + colName + " not found")
  }

  /** `FloatColumn`: the stored series itself, or a panic naming the column. */
  function FloatColumn(df: PFrame, colName: string): (r: Outcome<Series<Float64>>)
    ensures r.Done? <==> colName in Entries(df.floats)
    ensures r.Done? ==> r.value == Entries(df.floats)[colName]
    ensures r.Panic? ==> r.message == "float column named " + colName + " not found"
  {
    if colName in Entries(df.floats) then Done(Entries(df.floats)[colName])
    else Panic("float column named " + colName + " not found")
  }

  /** The frame of dataframe.go holding the same maps. */
  function Allocate(df: DataFrames.DataFrame): (p: PFrame)
    ensures AllMade(p)
  {
    PFrame(Made(df.columns), Made(df.strings), Made(df.ints), Made(df.floats))
  }

  /** What the four maps hold, read as a frame of dataframe.go. */
  function View(df: PFrame): (v: DataFrames.DataFrame)
    ensures AllMade(df) ==> Allocate(v) == df
  {
    DataFrames.DataFrame(Entries(df.columns), Entries(df.strings), Entries(df.ints), Entries(df.floats))
  }

  /**
   * On the same maps, a getter here returns a series exactly where
   * dataframe.go's returns it without error, and panics exactly where that
   * one reports the column `Unknown`.
   */
  lemma GettersAgreeWithDataFrames(df: DataFrames.DataFrame, name: string)
    ensures StringColumn(Allocate(df), name).Done? <==> DataFrames.StringColumn(df, name).1.None?
    ensures StringColumn(Allocate(df), name).Done? ==> StringColumn(Allocate(df), name).value == DataFrames.StringColumn(df, name).0
    ensures IntColumn(Allocate(df), name).Done? <==> DataFrames.IntColumn(df, name).1.None?
    ensures IntColumn(Allocate(df), name).Done? ==> IntColumn(Allocate(df), name).value == DataFrames.IntColumn(df, name).0
    ensures FloatColumn(Allocate(df), name).Done? <==> DataFrames.FloatColumn(df, name).1.None?
    ensures FloatColumn(Allocate(df), name).Done? ==> FloatColumn(Allocate(df), name).value == DataFrames.FloatColumn(df, name).0
  {
  }

  /**
   * `Clone`'s loop, from any frame `start` being filled: with no columns to
   * copy it leaves `start` as it is; into a nil descriptor map the first
   * copy panics; when it finishes, every descriptor is filed under its name.
   */
  method CopyColumns(start: PFrame, df: PFrame) returns (r: Outcome<PFrame>)
    ensures Entries(df.columns) == map[] ==> r == Done(start)
    ensures start.columns.Nil? && Entries(df.columns) != map[] ==> r == Panic(NilMapWrite)
    ensures r.Done? ==> forall n :: n in Entries(df.columns) ==> Entries(df.columns)[n].name in Entries(r.value.columns)
    ensures start == Allocated && DataFrames.Valid(View(df)) ==> r == Done(Allocate(View(df)))
  {
    var m := Entries(df.columns);
    var cloned := start;
    var remaining := m.Keys;
    ghost var intended := start == Allocated && DataFrames.Valid(View(df));
    if intended {
      assert View(cloned) == DataFrames.Zero;
    }
    while remaining != {}
      invariant remaining <= m.Keys
      invariant remaining == m.Keys ==> cloned == start
      invariant start.columns.Nil? ==> remaining == m.Keys
      invariant forall n :: n in m && n !in remaining ==> m[n].name in Entries(cloned.columns)
      invariant intended ==> AllMade(cloned) && Copied(View(cloned), View(df), m.Keys - remaining)
      decreases remaining
    {
      var name :| name in remaining;
      var col := m[name];
      ghost var before := cloned;
      if intended {
        CopiedStep(View(cloned), View(df), m.Keys - remaining, name);
      }
      var stored := Store(cloned.columns, col.name, col);
      if stored.Panic? {
        return Panic(stored.message);
      }
      cloned := cloned.(columns := stored.value);
      if col.dType == StringType {
        var v := StringColumn(df, col.name);
        if v.Panic? {
          return Panic(v.message);
        }
        var s := Store(cloned.strings, col.name, v.value);
        if s.Panic? {
          return Panic(s.message);
        }
        cloned := cloned.(strings := s.value);
      } else if col.dType == IntType {
        var v := IntColumn(df, col.name);
        if v.Panic? {
          return Panic(v.message);
        }
        var s := Store(cloned.ints, col.name, v.value);
        if s.Panic? {
          return Panic(s.message);
        }
        cloned := cloned.(ints := s.value);
      } else if col.dType == FloatType {
        var v := FloatColumn(df, col.name);
        if v.Panic? {
          return Panic(v.message);
        }
        var s := Store(cloned.floats, col.name, v.value);
        if s.Panic? {
          return Panic(s.message);
        }
        cloned := cloned.(floats := s.value);
      }
      assert intended ==> View(cloned) == CopiedOne(View(before), View(df), name);
      assert m.Keys - (remaining - {name}) == (m.Keys - remaining) + {name};
      remaining := remaining - {name};
    }
    if intended {
      CopiedAll(View(cloned), View(df));
    }
    r := Done(cloned);
  }

  /**
   * Part of `Clone`'s copy: the names in `done` carry `df`'s descriptors and
   * series, and nothing else is filled.
   */
  ghost predicate Copied(c: DataFrames.DataFrame, df: DataFrames.DataFrame, done: set<string>) {
    && c.columns.Keys == done
    && (forall n :: n in c.columns ==> n in df.columns && c.columns[n] == df.columns[n])
    && DataFrames.Valid(c)
    && DataFrames.Agrees(c.strings, df.strings, {})
    && DataFrames.Agrees(c.ints, df.ints, {})
    && DataFrames.Agrees(c.floats, df.floats, {})
  }

  /** The typed map `typed` after copying `col`'s series from `source`, when `col` has type `t`. */
  ghost function Put<T>(typed: map<string, Series<T>>, source: map<string, Series<T>>, col: Column, t: Dtype): map<string, Series<T>> {
    if col.dType == t && col.name in source then typed[col.name := source[col.name]] else typed
  }

  /** The copy of one more column `name` of `df` into `c`. */
  ghost function CopiedOne(c: DataFrames.DataFrame, df: DataFrames.DataFrame, name: string): DataFrames.DataFrame
    requires name in df.columns
  {
    var col := df.columns[name];
    DataFrames.DataFrame(
      c.columns[col.name := col],
      Put(c.strings, df.strings, col, StringType),
      Put(c.ints, df.ints, col, IntType),
      Put(c.floats, df.floats, col, FloatType))
  }

  /** Copying one column keeps a typed map filed and in agreement with its source. */
  lemma PutStep<T>(typed: map<string, Series<T>>, source: map<string, Series<T>>,
                   columns: map<string, Column>, all: map<string, Column>, t: Dtype, col: Column)
    requires DataFrames.Files(typed, columns, t) && DataFrames.Agrees(typed, source, {})
    requires DataFrames.Files(source, all, t) && col.name in all && all[col.name] == col
    requires col.name !in columns
    ensures DataFrames.Files(Put(typed, source, col, t), columns[col.name := col], t)
    ensures DataFrames.Agrees(Put(typed, source, col, t), source, {})
  {
  }

  lemma CopiedStep(c: DataFrames.DataFrame, df: DataFrames.DataFrame, done: set<string>, name: string)
    requires DataFrames.Valid(df) && Copied(c, df, done)
    requires name in df.columns && name !in done
    ensures df.columns[name].name == name
    ensures df.columns[name].dType == StringType ==> name in df.strings
    ensures df.columns[name].dType == IntType ==> name in df.ints
    ensures df.columns[name].dType == FloatType ==> name in df.floats
    ensures Copied(CopiedOne(c, df, name), df, done + {name})
  {
    var col := df.columns[name];
    PutStep(c.strings, df.strings, c.columns, df.columns, StringType, col);
    PutStep(c.ints, df.ints, c.columns, df.columns, IntType, col);
    PutStep(c.floats, df.floats, c.columns, df.columns, FloatType, col);
  }

  lemma CopiedAll(c: DataFrames.DataFrame, df: DataFrames.DataFrame)
    requires DataFrames.Valid(df) && Copied(c, df, df.columns.Keys)
    ensures c == df
  {
    assert c.columns == df.columns;
    DataFrames.SameFrame(c, df);
  }

  /**
   * `Clone` as evidently intended: the same copy loop into allocated maps.
   * A frame whose maps agree as dataframe.go's invariant demands is copied
   * exactly.
   */
  method CloneIntended(df: PFrame) returns (r: Outcome<PFrame>)
    ensures DataFrames.Valid(View(df)) ==> r == Done(Allocate(View(df)))
  {
    r := CopyColumns(Allocated, df);
  }

  /** `Clone`: its named result starts as the zero frame, so it succeeds only on a frame without columns. */
  method Clone(df: PFrame) returns (r: Outcome<PFrame>)
    ensures Entries(df.columns) == map[] ==> r == Done(Zero)
    ensures Entries(df.columns) != map[] ==> r == Panic(NilMapWrite)
  {
    r := CopyColumns(Zero, df);
  }

  /** `DropColumn`: the clone with the name deleted from all four maps; the clone panics first if there are columns. */
  method DropColumn(df: PFrame, name: string) returns (r: Outcome<PFrame>)
    ensures Entries(df.columns) == map[] ==> r == Done(Zero)
    ensures Entries(df.columns) != map[] ==> r == Panic(NilMapWrite)
  {
    var c := Clone(df);
    r := match c
      case Panic(m) => Panic(m)
      case Done(changed) => Done(PFrame(Delete(changed.columns, name), Delete(changed.strings, name),
                                        Delete(changed.ints, name), Delete(changed.floats, name)));
  }

  /**
   * `SetStringColumn`: the write into the clone's string map panics, since
   * the clone's maps are nil (the body returns the receiver, not the clone).
   */
  method SetStringColumn(df: PFrame, colName: string, value: Series<string>) returns (r: Outcome<PFrame>)
    ensures r == Panic(NilMapWrite)
  {
    var c := Clone(df);
    r := match c
      case Panic(m) => Panic(m)
      case Done(changed) =>
        match Store(changed.strings, colName, SeriesCore.Clone(value))
        case Panic(m) => Panic(m)
        case Done(_) => Done(df);
  }

  /** `SetIntColumn`: as `SetStringColumn`, for the int map. */
  method SetIntColumn(df: PFrame, colName: string, value: Series<Int64>) returns (r: Outcome<PFrame>)
    ensures r == Panic(NilMapWrite)
  {
    var c := Clone(df);
    r := match c
      case Panic(m) => Panic(m)
      case Done(changed) =>
        match Store(changed.ints, colName, SeriesCore.Clone(value))
        case Panic(m) => Panic(m)
        case Done(_) => Done(df);
  }

  /** `SetFloatColumn`: as `SetStringColumn`, for the float map. */
  method SetFloatColumn(df: PFrame, colName: string, value: Series<Float64>) returns (r: Outcome<PFrame>)
    ensures r == Panic(NilMapWrite)
  {
    var c := Clone(df);
    r := match c
      case Panic(m) => Panic(m)
      case Done(changed) =>
        match Store(changed.floats, colName, SeriesCore.Clone(value))
        case Panic(m) => Panic(m)
        case Done(_) => Done(df);
  }

  /**
   * `SetStringColumn` as evidently intended: the value stored into the
   * allocated clone's string map, and the clone returned. No descriptor is
   * written, and the other maps are the receiver's.
   */
  method SetStringColumnIntended(df: PFrame, colName: string, value: Series<string>) returns (r: Outcome<PFrame>)
    ensures DataFrames.Valid(View(df)) ==>
      r == Done(Allocate(View(df).(strings := Entries(df.strings)[colName := value])))
    ensures DataFrames.Valid(View(df)) ==> StringColumn(r.value, colName) == Done(value)
    ensures DataFrames.Valid(View(df)) ==> forall n :: n != colName ==>
      && StringColumn(r.value, n) == StringColumn(df, n)
      && IntColumn(r.value, n) == IntColumn(df, n)
      && FloatColumn(r.value, n) == FloatColumn(df, n)
  {
    var c := CloneIntended(df);
    r := match c
      case Panic(m) => Panic(m)
      case Done(changed) =>
        match Store(changed.strings, colName, SeriesCore.Clone(value))
        case Panic(m) => Panic(m)
        case Done(stored) => Done(changed.(strings := stored));
  }

  /**
   * `SetIntColumn` as evidently intended: the value stored into the
   * allocated clone's int map, and the clone returned. No descriptor is
   * written, and the other maps are the receiver's.
   */
  method SetIntColumnIntended(df: PFrame, colName: string, value: Series<Int64>) returns (r: Outcome<PFrame>)
    ensures DataFrames.Valid(View(df)) ==>
      r == Done(Allocate(View(df).(ints := Entries(df.ints)[colName := value])))
    ensures DataFrames.Valid(View(df)) ==> IntColumn(r.value, colName) == Done(value)
    ensures DataFrames.Valid(View(df)) ==> forall n :: n != colName ==>
      && StringColumn(r.value, n) == StringColumn(df, n)
      && IntColumn(r.value, n) == IntColumn(df, n)
      && FloatColumn(r.value, n) == FloatColumn(df, n)
  {
    var c := CloneIntended(df);
    r := match c
      case Panic(m) => Panic(m)
      case Done(changed) =>
        match Store(changed.ints, colName, SeriesCore.Clone(value))
        case Panic(m) => Panic(m)
        case Done(stored) => Done(changed.(ints := stored));
  }

  /**
   * `SetFloatColumn` as evidently intended: the value stored into the
   * allocated clone's float map, and the clone returned. No descriptor is
   * written, and the other maps are the receiver's.
   */
  method SetFloatColumnIntended(df: PFrame, colName: string, value: Series<Float64>) returns (r: Outcome<PFrame>)
    ensures DataFrames.Valid(View(df)) ==>
      r == Done(Allocate(View(df).(floats := Entries(df.floats)[colName := value])))
    ensures DataFrames.Valid(View(df)) ==> FloatColumn(r.value, colName) == Done(value)
    ensures DataFrames.Valid(View(df)) ==> forall n :: n != colName ==>
      && StringColumn(r.value, n) == StringColumn(df, n)
      && IntColumn(r.value, n) == IntColumn(df, n)
      && FloatColumn(r.value, n) == FloatColumn(df, n)
  {
    var c := CloneIntended(df);
    r := match c
      case Panic(m) => Panic(m)
      case Done(changed) =>
        match Store(changed.floats, colName, SeriesCore.Clone(value))
        case Panic(m) => Panic(m)
        case Done(stored) => Done(changed.(floats := stored));
  }
}
