/** Shared vocabulary of the vessel-report tables: nullable cells, the nested
    structures a raw report carries, the frames pandas builds from a list of
    such structures, and the order-preserving filter that boolean indexing and
    `dropna` perform. */
module Tables {

  datatype Option<+T> = None | Some(value: T)

  datatype Result<+T, +E> = Ok(value: T) | Err(error: E)

  /** A scalar held in a nested report field (navCode, navDesc, typeName, ...). */
  datatype Value = Int(i: int) | Num(x: real) | Text(s: string)

  /** A table cell; `None` is pandas' NaN / None. */
  type Cell = Option<Value>

  /** A nested per-report structure such as `navigation` or `vesselDetails`:
      a mapping from field name to a (possibly null) value. */
  type Struct = map<string, Cell>

  /** Reading a field of a structure; an absent field reads as null. */
  function Field(s: Struct, key: string): Cell {
    if key in s then s[key] else None
  }

  /** One report as loaded from the columnar file; its index label is its
      position in the loaded sequence. */
  datatype RawRecord = RawRecord(epochMillis: int, mmsi: int, navigation: Struct, vesselDetails: Struct)

  /** A frame built from a list of structures: its column names and one row
      per structure; a row's index label is its position. */
  datatype Frame = Frame(columns: set<string>, rows: seq<map<string, Cell>>)

  /** The cell of column `key` in the row labelled `id`, read the way pandas
      aligns a column assigned from another frame: a label the frame does not
      have gives null. */
  function At(f: Frame, id: nat, key: string): Cell {
    if id < |f.rows| && key in f.rows[id] then f.rows[id][key] else None
  }

  /** Selecting a column a frame does not have raises `KeyError`. */
  datatype KeyError = MissingColumn(key: string)

  /** `a` is obtained from `b` by deleting elements, keeping the order. */
  predicate Subsequence<T(==)>(a: seq<T>, b: seq<T>)
    decreases |b|
  {
    a == [] || (b != [] && ((a[0] == b[0] && Subsequence(a[1..], b[1..])) || Subsequence(a, b[1..])))
  }

  /** `before` holds of every pair of elements in the order they appear. */
  ghost predicate Chain<T>(s: seq<T>, before: (T, T) -> bool) {
    forall i, j :: 0 <= i < j < |s| ==> before(s[i], s[j])
  }

  /** The elements of `s` satisfying `keep`, in their order: a boolean mask
      applied to a frame, or `dropna` on one column. */
  function Filter<T(!new)>(s: seq<T>, keep: T -> bool): (r: seq<T>)
    ensures |r| <= |s|
    ensures forall x :: x in r <==> x in s && keep(x)
    ensures Subsequence(r, s)
  {
    if s == [] then []
    else if keep(s[0]) then [s[0]] + Filter(s[1..], keep)
    else Filter(s[1..], keep)
  }

  /** The filter keeps every copy of an element it keeps. */
  lemma {:induction false} FilterCount<T(!new)>(s: seq<T>, keep: T -> bool)
    ensures forall x :: multiset(Filter(s, keep))[x] == if keep(x) then multiset(s)[x] else 0
  {
    if s != [] {
      FilterCount(s[1..], keep);
      assert s == [s[0]] + s[1..];
    }
  }

  /** The element-wise image of `s` under `f`. */
  function MapSeq<A, B>(s: seq<A>, f: A -> B): (r: seq<B>)
    ensures |r| == |s|
    ensures forall i :: 0 <= i < |s| ==> r[i] == f(s[i])
  {
    seq(|s|, i requires 0 <= i < |s| => f(s[i]))
  }

  lemma {:induction false} FilterKeepsAll<T(!new)>(s: seq<T>, keep: T -> bool)
    requires forall i :: 0 <= i < |s| ==> keep(s[i])
    ensures Filter(s, keep) == s
  {
    if s != [] {
      FilterKeepsAll(s[1..], keep);
    }
  }

  lemma {:induction false} SubsequenceMembers<T>(a: seq<T>, b: seq<T>)
    requires Subsequence(a, b)
    ensures forall x :: x in a ==> x in b
    decreases |b|
  {
    if a != [] {
      if a[0] == b[0] && Subsequence(a[1..], b[1..]) {
        SubsequenceMembers(a[1..], b[1..]);
        assert forall x :: x in a ==> x == a[0] || x in a[1..];
      } else {
        SubsequenceMembers(a, b[1..]);
      }
    }
  }

  /** Filtering commutes with a map when the predicate is read through it. */
  lemma {:induction false} FilterMap<A(!new), B(!new)>(s: seq<A>, keep: A -> bool, f: A -> B, keepImage: B -> bool)
    requires forall x :: keep(x) == keepImage(f(x))
    ensures MapSeq(Filter(s, keep), f) == Filter(MapSeq(s, f), keepImage)
  {
    if s != [] {
      FilterMap(s[1..], keep, f, keepImage);
      assert MapSeq(s, f)[1..] == MapSeq(s[1..], f);
    }
  }

  /** Deleting elements keeps every ordered pair ordered. */
  lemma {:induction false} SubsequenceKeepsChain<T>(a: seq<T>, b: seq<T>, before: (T, T) -> bool)
    requires Subsequence(a, b) && Chain(b, before)
    ensures Chain(a, before)
    decreases |b|
  {
    if a != [] {
      if a[0] == b[0] && Subsequence(a[1..], b[1..]) {
        SubsequenceKeepsChain(a[1..], b[1..], before);
        SubsequenceMembers(a[1..], b[1..]);
        forall j | 0 < j < |a| ensures before(a[0], a[j]) {
          assert a[j] == a[1..][j - 1];
          assert a[j] in a[1..];
          var k :| 0 <= k < |b[1..]| && b[1..][k] == a[j];
          assert b[k + 1] == a[j];
        }
        forall i, j | 0 < i < j < |a| ensures before(a[i], a[j]) {
          assert a[i] == a[1..][i - 1] && a[j] == a[1..][j - 1];
        }
      } else {
        SubsequenceKeepsChain(a, b[1..], before);
      }
    }
  }

  /** Applying the same function to both sides keeps the subsequence relation. */
  lemma {:induction false} SubsequenceMap<A, B>(a: seq<A>, b: seq<A>, f: A -> B)
    requires Subsequence(a, b)
    ensures Subsequence(MapSeq(a, f), MapSeq(b, f))
    decreases |b|
  {
    if a != [] {
      assert MapSeq(b, f)[1..] == MapSeq(b[1..], f);
      if a[0] == b[0] && Subsequence(a[1..], b[1..]) {
        SubsequenceMap(a[1..], b[1..], f);
        assert MapSeq(a, f)[1..] == MapSeq(a[1..], f);
      } else {
        SubsequenceMap(a, b[1..], f);
      }
    }
  }
}
