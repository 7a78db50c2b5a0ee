/**
 * load.go: `CSV.LoadCSV` after the rows are read. The rows arrive already
 * parsed, one sequence of fields per record; the first row is either the
 * header or data, and every column of the result is a string column.
 */
module Load {
  import opened Wrappers
  import opened Dtypes
  import opened Errors
  import opened SeriesCore
  import opened DataFrames

  /** The decimal digit for `d`. */
  function Digit(d: nat): (c: char)
    requires d < 10
    ensures '0' <= c <= '9' && (c as int) - ('0' as int) == d
  {
    ('0' as int + d) as char
  }

  predicate AllDigits(s: string) {
    forall k :: 0 <= k < |s| ==> '0' <= s[k] <= '9'
  }

  /** `%d` of a non-negative int: the shortest decimal numeral of `n`. */
  function Decimal(n: nat): (s: string)
    ensures 1 <= |s| && AllDigits(s)
    ensures s[0] == '0' ==> n == 0
  {
    if n < 10 then [Digit(n)] else Decimal(n / 10) + [Digit(n % 10)]
  }

  /** The value of a decimal numeral, the reference `Decimal` is checked against. */
  function DecimalValue(s: string): nat
    requires AllDigits(s)
  {
    if |s| == 0 then 0 else DecimalValue(s[..|s| - 1]) * 10 + ((s[|s| - 1] as int) - ('0' as int))
  }

  lemma {:induction false} DecimalRoundTrip(n: nat)
    ensures DecimalValue(Decimal(n)) == n
  {
    if n >= 10 {
      var s := Decimal(n);
      assert s[..|s| - 1] == Decimal(n / 10);
      DecimalRoundTrip(n / 10);
    }
  }

  /** Distinct numbers print as distinct numerals. */
  lemma DecimalInjective(a: nat, b: nat)
    ensures Decimal(a) == Decimal(b) ==> a == b
  {
    DecimalRoundTrip(a);
    DecimalRoundTrip(b);
  }

  /** The name given to column `i` of a file without a header row. */
  function SynthesizedName(i: nat): (name: string)
    ensures |name| > 7 && name[..7] == "Column " && name[7..] == Decimal(i)
  {
    "Column " + Decimal(i)
  }

  /** The names of the columns: the header row, or one synthesized name per field of the first row. */
  function ColumnNames(rows: seq<seq<string>>, headersPresent: bool): (names: seq<string>)
    requires |rows| > 0
    ensures |names| == |rows[0]|
    ensures headersPresent ==> names == rows[0]
    ensures !headersPresent ==> forall i :: 0 <= i < |names| ==> names[i] == SynthesizedName(i)
  {
    if headersPresent then rows[0] else seq(|rows[0]|, i requires 0 <= i => SynthesizedName(i))
  }

  /** The rows that hold data: all of them, or all but the header. */
  function DataRows(rows: seq<seq<string>>, headersPresent: bool): (data: seq<seq<string>>)
    requires |rows| > 0
    ensures headersPresent ==> data == rows[1..]
    ensures !headersPresent ==> data == rows
  {
    if headersPresent then rows[1..] else rows
  }

  /** One string-column descriptor per name. */
  function Declarations(names: seq<string>): (columns: seq<Column>)
    ensures |columns| == |names|
    ensures forall i :: 0 <= i < |names| ==> columns[i] == NewStringColumn(names[i])
  {
    seq(|names|, i requires 0 <= i < |names| => NewStringColumn(names[i]))
  }

  ghost predicate Distinct(names: seq<string>) {
    forall i, j :: 0 <= i < j < |names| ==> names[i] != names[j]
  }

  /** Synthesized names never collide, so a file without a header row cannot fail. */
  lemma SynthesizedNamesDistinct(rows: seq<seq<string>>)
    requires |rows| > 0
    ensures Distinct(ColumnNames(rows, false))
  {
    var names := ColumnNames(rows, false);
    forall i, j | 0 <= i < j < |names| ensures names[i] != names[j] {
      DecimalInjective(i, j);
      assert names[i][7..] == Decimal(i) && names[j][7..] == Decimal(j);
    }
  }

  lemma DeclarationsDistinct(names: seq<string>)
    ensures DistinctNames(Declarations(names)) <==> Distinct(names)
  {
    var cs := Declarations(names);
    if DistinctNames(cs) {
      forall i, j | 0 <= i < j < |names| ensures names[i] != names[j] {
        assert cs[i].name != cs[j].name;
      }
    }
  }

  /** Column `j` of the data rows, top to bottom. */
  ghost predicate IsColumn(values: seq<string>, data: seq<seq<string>>, j: int) {
    && |values| == |data|
    && forall i :: 0 <= i < |data| ==> 0 <= j < |data[i]| && values[i] == data[i][j]
  }

  /** The descriptor loop of `LoadCSV`: one string column per header field or per synthesized name. */
  method DeclareColumns(rows: seq<seq<string>>, headersPresent: bool) returns (columns: seq<Column>)
    requires |rows| > 0
    ensures columns == Declarations(ColumnNames(rows, headersPresent))
  {
    var width := |rows[0]|;
    columns := [];
    if headersPresent {
      for k := 0 to width
        invariant columns == Declarations(rows[0][..k])
      {
        columns := columns + [NewStringColumn(rows[0][k])];
        assert rows[0][..k + 1] == rows[0][..k] + [rows[0][k]];
      }
      assert rows[0][..width] == rows[0];
    } else {
      ghost var names := ColumnNames(rows, false);
      for k := 0 to width
        invariant columns == Declarations(names[..k])
      {
        columns := columns + [NewStringColumn(SynthesizedName(k))];
        assert names[..k + 1] == names[..k] + [SynthesizedName(k)];
      }
      assert names[..width] == names;
    }
  }

  /** The inner loop of `LoadCSV`: field `j` of every data row, in row order. */
  method FieldColumn(data: seq<seq<string>>, j: int) returns (colVal: seq<string>)
    requires 0 <= j && forall i :: 0 <= i < |data| ==> j < |data[i]|
    ensures IsColumn(colVal, data, j)
  {
    colVal := [];
    for i := 0 to |data|
      invariant |colVal| == i
      invariant forall r :: 0 <= r < i ==> colVal[r] == data[r][j]
    {
      colVal := colVal + [data[i][j]];
    }
  }

  /** Declaring string columns fails exactly on a repeated name, and then names the first repeat. */
  lemma DeclarationsAccepted(names: seq<string>)
    ensures (forall i :: 0 <= i < |names| ==> !Offends(Declarations(names), i)) <==> Distinct(names)
    ensures forall i :: FirstOffender(Declarations(names), i) ==>
      Rejection(Declarations(names), i) == Duplicate("column", names[i])
  {
    DeclarationsDistinct(names);
    NoOffenderMeansDistinctKnown(Declarations(names));
  }

  /** `LoadCSV`'s frame after `j` columns are filled: string columns only, the first `j` holding their data. */
  ghost predicate Filled(df: DataFrame, names: seq<string>, data: seq<seq<string>>, j: int) {
    && 0 <= j <= |names|
    && Valid(df)
    && df.columns.Keys == (set n | n in names)
    && (forall n :: n in df.columns ==> df.columns[n].dType == StringType)
    && forall k :: 0 <= k < j ==>
         StringColumn(df, names[k]).1 == None && IsColumn(StringColumn(df, names[k]).0.data, data, k)
  }

  lemma FillStep(df: DataFrame, names: seq<string>, data: seq<seq<string>>, j: int, colVal: seq<string>)
    requires Filled(df, names, data, j) && j < |names| && Distinct(names)
    requires IsColumn(colVal, data, j)
    ensures names[j] in df.strings
    ensures Filled(df.(strings := df.strings[names[j] := Series(colVal)]), names, data, j + 1)
  {
    assert names[j] in df.columns;
  }

  /**
   * `LoadCSV` from the parsed rows on. No rows: an empty frame. Otherwise
   * a frame with one string column per name, column `j` holding field `j`
   * of each data row in order; a repeated header field makes it fail with
   * the `Duplicate` of the first repeat, wrapped, and the zero frame.
   */
  method LoadCSV(rows: seq<seq<string>>, headersPresent: bool) returns (df: DataFrame, err: Option<Error>)
    requires forall i :: 0 <= i < |rows| ==> |rows[i]| == |rows[0]|
    ensures |rows| == 0 ==> df == Zero && err == None
    ensures |rows| > 0 ==> (err == None <==> Distinct(ColumnNames(rows, headersPresent)))
    ensures |rows| > 0 && !headersPresent ==> err == None
    ensures err != None ==> df == Zero && exists i ::
      && FirstOffender(Declarations(ColumnNames(rows, headersPresent)), i)
      && err == Some(ProcessingError(Wrapped("creating data frame", Duplicate("column", rows[0][i]))))
    ensures |rows| > 0 && err == None ==>
      var names := ColumnNames(rows, headersPresent);
      && Valid(df)
      && df.columns.Keys == (set n | n in names)
      && (forall n :: n in df.columns ==> df.columns[n].dType == StringType)
      && forall j :: 0 <= j < |names| ==>
           StringColumn(df, names[j]).1 == None && IsColumn(StringColumn(df, names[j]).0.data, DataRows(rows, headersPresent), j)
  {
    if |rows| == 0 {
      var none;
      df, none := NewDataFrame([]);
      return df, None;
    }
    var columns := DeclareColumns(rows, headersPresent);
    var data := if headersPresent then rows[1..] else rows;
    ghost var names := ColumnNames(rows, headersPresent);
    DeclarationsAccepted(names);
    if !headersPresent {
      SynthesizedNamesDistinct(rows);
    }
    var made;
    df, made := NewDataFrame(columns);
    if made.Some? {
      return Zero, Some(ProcessingError(Wrapped("creating data frame", made.value)));
    }
    NamesOfDeclarations(names);
    for j := 0 to |columns|
      invariant Filled(df, names, data, j)
    {
      var colVal := FieldColumn(data, j);
      FillStep(df, names, data, j, colVal);
      df := SetStringColumn(df, columns[j].name, Series(colVal));
    }
    err := None;
  }

  lemma NamesOfDeclarations(names: seq<string>)
    ensures NamesOf(Declarations(names)) == set n | n in names
  {
    var cs := Declarations(names);
    forall n | n in names ensures n in NamesOf(cs) {
      var i :| 0 <= i < |names| && names[i] == n;
      assert cs[i] in cs;
    }
  }
}
