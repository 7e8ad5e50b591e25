/**
 * The part of a pandas DataFrame the ingestion code relies on: rows are
 * insertion-ordered dicts from column name to value, and the frame's column
 * list is the ordered union of the rows' keys. A key a row lacks reads as
 * missing (`Null`), as pandas fills it with NaN.
 */
module Frames {

  /** Cell values. Floats, timestamps and lists are carried opaquely. */
  datatype Value =
    | Null
    | Bool(b: bool)
    | Int(i: int)
    | Str(s: string)
    | Cls(name: string)   // a Python class object, as stored in the STIX `type` column
    | Opaque(repr: string)

  /** A Python dict: keys in insertion order, each at most once. */
  datatype Dict = Dict(keys: seq<string>, vals: map<string, Value>)
  {
    ghost predicate Valid()
    {
      && (forall i, j :: 0 <= i < j < |keys| ==> keys[i] != keys[j])
      && (forall k :: k in vals <==> k in keys)
    }
  }

  const EmptyDict := Dict([], map[])

  /** `d[k] = v`: an existing key keeps its position, a new key goes last. */
  function Put(d: Dict, k: string, v: Value): (r: Dict)
    requires d.Valid()
    ensures r.Valid()
    ensures r.vals == d.vals[k := v]
    ensures k in d.vals ==> r.keys == d.keys
    ensures k !in d.vals ==> r.keys == d.keys + [k]
  {
    if k in d.vals then Dict(d.keys, d.vals[k := v]) else Dict(d.keys + [k], d.vals[k := v])
  }

  /** Reads a cell; a key the row lacks reads as missing. */
  function Get(d: Dict, k: string): Value
  {
    if k in d.vals then d.vals[k] else Null
  }

  /** `r` lists some of the elements of `s`, in the order `s` lists them. */
  predicate IsSubsequence(r: seq<string>, s: seq<string>)
    decreases |s|
  {
    if r == [] then true
    else if s == [] then false
    else if r[0] == s[0] then IsSubsequence(r[1..], s[1..])
    else IsSubsequence(r, s[1..])
  }

  /** Everything a subsequence lists is listed by the sequence it is drawn from. */
  lemma {:induction false} SubsequenceMembers(r: seq<string>, s: seq<string>)
    requires IsSubsequence(r, s)
    ensures forall e :: e in r ==> e in s
    decreases |s|
  {
    if r != [] {
      if r[0] == s[0] {
        SubsequenceMembers(r[1..], s[1..]);
        assert forall e :: e in r ==> e == r[0] || e in r[1..];
      } else {
        SubsequenceMembers(r, s[1..]);
      }
    }
  }

  /**
   * Over a sequence without repeats, an order-keeping selection is fixed by
   * which elements it holds: the kept keys can come out in one order only.
   */
  lemma {:induction false} SubsequenceUnique(r1: seq<string>, r2: seq<string>, s: seq<string>)
    requires forall i, j :: 0 <= i < j < |s| ==> s[i] != s[j]
    requires IsSubsequence(r1, s) && IsSubsequence(r2, s)
    requires forall e :: e in r1 <==> e in r2
    ensures r1 == r2
    decreases |s|
  {
    if s != [] {
      var x := s[0];
      assert x !in s[1..];
      if x in r1 {
        assert r1[0] == x by {
          if r1[0] != x { SubsequenceMembers(r1, s[1..]); }
        }
        assert r2[0] == x by {
          if r2[0] != x { SubsequenceMembers(r2, s[1..]); }
        }
        SubsequenceMembers(r1[1..], s[1..]);
        SubsequenceMembers(r2[1..], s[1..]);
        assert forall e :: e in r1 <==> e == x || e in r1[1..];
        assert forall e :: e in r2 <==> e == x || e in r2[1..];
        SubsequenceUnique(r1[1..], r2[1..], s[1..]);
        assert r1 == [x] + r1[1..] && r2 == [x] + r2[1..];
      } else {
        assert r1 == [] || r1[0] != x;
        assert r2 == [] || r2[0] != x;
        SubsequenceUnique(r1, r2, s[1..]);
      }
    }
  }

  /** Keys of `keys` kept in order when `keep` holds of them. */
  function FilterKeys(keys: seq<string>, keep: set<string>): (r: seq<string>)
    ensures forall k :: k in r <==> k in keys && k in keep
    ensures IsSubsequence(r, keys)
    ensures |r| <= |keys|
    ensures (forall i, j :: 0 <= i < j < |keys| ==> keys[i] != keys[j]) ==>
              (forall i, j :: 0 <= i < j < |r| ==> r[i] != r[j])
  {
    if keys == [] then []
    else
      var rest := FilterKeys(keys[1..], keep);
      if keys[0] in keep then
        assert forall k :: k in rest ==> k in keys[1..];
        assert ([keys[0]] + rest)[1..] == rest;
        [keys[0]] + rest
      else
        assert rest != [] ==> rest[0] in keep;
        rest
  }

  /** The dict restricted to the keys in `keep`, order kept. */
  function Restrict(d: Dict, keep: set<string>): (r: Dict)
    requires d.Valid()
    ensures r.Valid()
    ensures forall k :: k in r.vals <==> k in d.vals && k in keep
    ensures forall k :: k in r.vals ==> r.vals[k] == d.vals[k]
    ensures IsSubsequence(r.keys, d.keys)
  {
    Dict(FilterKeys(d.keys, keep), map k | k in d.vals && k in keep :: d.vals[k])
  }

  datatype Frame = Frame(columns: seq<string>, rows: seq<Dict>)

  /** True when some row has `c` among its keys. */
  predicate InSomeRow(rows: seq<Dict>, c: string)
  {
    exists d :: d in rows && c in d.keys
  }

  /** Appends to `acc` the keys of `ks` it does not hold yet, in order. */
  function AddKeys(acc: seq<string>, ks: seq<string>): (r: seq<string>)
    requires forall i, j :: 0 <= i < j < |acc| ==> acc[i] != acc[j]
    ensures forall i, j :: 0 <= i < j < |r| ==> r[i] != r[j]
    ensures |r| >= |acc| && r[..|acc|] == acc
    ensures forall c :: c in r <==> c in acc || c in ks
    decreases |ks|
  {
    if ks == [] then acc
    else
      var acc' := if ks[0] in acc then acc else acc + [ks[0]];
      var r := AddKeys(acc', ks[1..]);
      assert acc'[..|acc|] == acc;
      assert forall c :: c in ks <==> c == ks[0] || c in ks[1..];
      r
  }

  /** Appends to `acc` the keys of `rows` it does not hold yet, in order of first appearance. */
  function Union(acc: seq<string>, rows: seq<Dict>): (r: seq<string>)
    requires forall i, j :: 0 <= i < j < |acc| ==> acc[i] != acc[j]
    ensures forall i, j :: 0 <= i < j < |r| ==> r[i] != r[j]
    ensures |r| >= |acc| && r[..|acc|] == acc
    ensures forall c :: c in r <==> c in acc || InSomeRow(rows, c)
    decreases |rows|
  {
    if rows == [] then acc
    else
      var acc' := AddKeys(acc, rows[0].keys);
      var r := Union(acc', rows[1..]);
      assert forall d :: d in rows <==> d == rows[0] || d in rows[1..];
      assert r[..|acc'|][..|acc|] == acc;
      r
  }

  /** `pd.DataFrame(list_of_dicts)`. */
  function FromRecords(rows: seq<Dict>): (f: Frame)
    ensures f.rows == rows
    ensures forall i, j :: 0 <= i < j < |f.columns| ==> f.columns[i] != f.columns[j]
    ensures forall c :: c in f.columns <==> InSomeRow(rows, c)
  {
    Frame(Union([], rows), rows)
  }

  /** `frame[frame[column] == v]`: the rows holding `v` in `column`, order kept. */
  function Where(rows: seq<Dict>, column: string, v: Value): (r: seq<Dict>)
    ensures |r| <= |rows|
    ensures forall d :: d in r <==> d in rows && Get(d, column) == v
  {
    if rows == [] then []
    else (if Get(rows[0], column) == v then [rows[0]] else []) + Where(rows[1..], column, v)
  }

  /** Filtering keeps the order of the rows: filtering two blocks of rows filters each in turn. */
  lemma {:induction false} WhereConcat(a: seq<Dict>, b: seq<Dict>, column: string, v: Value)
    ensures Where(a + b, column, v) == Where(a, column, v) + Where(b, column, v)
  {
    if a == [] {
      assert a + b == b;
    } else {
      var ab := a + b;
      assert ab[0] == a[0];
      assert ab[1..] == a[1..] + b;
      WhereConcat(a[1..], b, column, v);
    }
  }

  /** `frame.drop(column, axis=1)`. */
  function DropColumn(f: Frame, column: string): (r: Frame)
    requires forall d :: d in f.rows ==> d.Valid()
    ensures forall c :: c in r.columns <==> c in f.columns && c != column
    ensures IsSubsequence(r.columns, f.columns)
    ensures |r.rows| == |f.rows|
    ensures forall d :: d in r.rows ==> d.Valid()
  {
    var keep := set c | c in f.columns && c != column;
    Frame(FilterKeys(f.columns, keep), seq(|f.rows|, n requires 0 <= n < |f.rows| => Restrict(f.rows[n], keep - {column})))
  }

  /** After the drop, a row still reads every other column of the frame as before. */
  lemma DropColumnCell(f: Frame, column: string, n: nat, c: string)
    requires forall d :: d in f.rows ==> d.Valid()
    requires n < |f.rows| && c in f.columns && c != column
    ensures n < |DropColumn(f, column).rows| && Get(DropColumn(f, column).rows[n], c) == Get(f.rows[n], c)
  {
    var keep := set c | c in f.columns && c != column;
    assert f.rows[n] in f.rows;
    assert DropColumn(f, column).rows[n] == Restrict(f.rows[n], keep - {column});
  }

  /** True when some row holds a non-missing value in `column`. */
  predicate HasValue(rows: seq<Dict>, column: string)
  {
    exists n :: 0 <= n < |rows| && Get(rows[n], column) != Null
  }

  /** `frame.dropna(axis=1, how="all")`: drops the columns that are missing in every row. */
  function DropAllNull(f: Frame): (r: Frame)
    requires forall d :: d in f.rows ==> d.Valid()
    ensures forall c :: c in r.columns <==> c in f.columns && HasValue(f.rows, c)
    ensures IsSubsequence(r.columns, f.columns)
    ensures |r.rows| == |f.rows|
    ensures forall d :: d in r.rows ==> d.Valid()
    ensures forall n, c :: 0 <= n < |r.rows| ==>
              Get(r.rows[n], c) == if c in r.columns then Get(f.rows[n], c) else Null
    ensures forall n, c :: 0 <= n < |r.rows| && c in f.columns ==> Get(r.rows[n], c) == Get(f.rows[n], c)
  {
    var keep := set c | c in f.columns && HasValue(f.rows, c);
    Frame(FilterKeys(f.columns, keep), seq(|f.rows|, n requires 0 <= n < |f.rows| => Restrict(f.rows[n], keep)))
  }
}
