/** The values the validation stage works on: tables read from CSV files and
    the YAML document that holds the schema. */
module Tables {
  import opened Wrappers

  type ColumnName = string
  type Path = string

  /** One cell of a table: a number or a category label. */
  datatype Scalar = Number(x: real) | Text(s: string)

  type Column = seq<Scalar>

  /** A table: its column names in header order and the values of each column. */
  datatype Table = Table(columns: seq<ColumnName>, values: map<ColumnName, Column>) {

    /** What every data frame read from a CSV file satisfies: distinct column
        names, one value sequence per named column, and equal row counts. */
    predicate Valid() {
      && (forall i, j :: 0 <= i < j < |columns| ==> columns[i] != columns[j])
      && (forall c :: c in values ==> c in columns)
      && (forall c :: c in columns ==> c in values)
      && (forall c, d :: c in values && d in values ==> |values[c]| == |values[d]|)
    }
  }

  /** A pandas data frame. */
  type DataFrame = t: Table | t.Valid() witness Table([], map[])

  /** A document as `yaml.safe_load` returns it. */
  datatype YamlNode =
    | YamlNull
    | YamlBool(b: bool)
    | YamlNumber(x: real)
    | YamlString(s: string)
    | YamlList(items: seq<YamlNode>)
    | YamlMapping(entries: map<string, YamlNode>)

  /** Python's `len` on a loaded document: the number of top-level entries of
      a mapping, items of a list or characters of a string; `None` where
      `len` raises a TypeError (null, booleans, numbers). */
  function PyLen(n: YamlNode): Option<nat> {
    match n
    case YamlMapping(entries) => Some(|entries|)
    case YamlList(items) => Some(|items|)
    case YamlString(s) => Some(|s|)
    case _ => None
  }

  /** The number of distinct names in a sequence without repetitions is its length. */
  lemma {:induction false} DistinctNamesCardinality(s: seq<ColumnName>)
    requires forall i, j :: 0 <= i < j < |s| ==> s[i] != s[j]
    ensures |set c | c in s| == |s|
  {
    if s != [] {
      var init := s[..|s| - 1];
      var last := s[|s| - 1];
      DistinctNamesCardinality(init);
      assert (set c | c in s) == (set c | c in init) + {last} by {
        forall c ensures c in s <==> c in init || c == last {
          assert s == init + [last];
        }
      }
      assert forall k :: 0 <= k < |init| ==> init[k] != last;
      assert last !in (set c | c in init);
    }
  }
}
