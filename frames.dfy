/** A one-row pandas DataFrame, reduced to what the pipelines rely on: named columns in
    order, lookup and selection by name, dropping a column, overwriting a column, and
    handing the numeric row to the scaler. */
module Frames {
  import opened Seqs
  import opened Results

  /** A cell: numbers (ints are widened to reals) or text. */
  datatype Value = Num(x: real) | Text(s: string)

  datatype Column = Column(name: string, value: Value)

  /** The columns of a one-row frame, left to right. */
  type Frame = seq<Column>

  /** The frame's column labels, in order. */
  function Names(f: Frame): (r: seq<string>)
    ensures |r| == |f|
    ensures forall i :: 0 <= i < |f| ==> r[i] == f[i].name
  {
    seq(|f|, i requires 0 <= i < |f| => f[i].name)
  }

  lemma NamesConcat(f: Frame, g: Frame)
    ensures Names(f + g) == Names(f) + Names(g)
  {
  }

  /** `frame[name]` on a single row: the value under the first column with that label,
      or a KeyError. */
  function Get(f: Frame, name: string): (r: Result<Value>)
    ensures r.Ok? <==> name in Names(f)
    ensures r.Err? ==> r.error == MissingColumn(name)
    ensures r.Ok? ==> f[IndexOf(Names(f), name)] == Column(name, r.value)
  {
    var k := IndexOf(Names(f), name);
    if k < |f| then Ok(f[k].value) else Err(MissingColumn(name))
  }

  /** Lookup in a concatenation of frames looks in the left frame first. */
  lemma GetConcat(f: Frame, g: Frame, name: string)
    ensures Get(f + g, name) == if name in Names(f) then Get(f, name) else Get(g, name)
  {
    var k := IndexOf(Names(f + g), name);
    NamesConcat(f, g);
    IndexOfConcat(Names(f), Names(g), name);
    if name in Names(f) {
      assert k == IndexOf(Names(f), name) < |f|;
      assert (f + g)[k] == f[k];
    } else {
      assert k == |f| + IndexOf(Names(g), name);
      if name in Names(g) {
        assert (f + g)[k] == g[k - |f|];
      }
    }
  }

  /** In a frame whose labels are distinct, the value under a label is the one stored in
      the column carrying it. */
  lemma GetDistinct(f: Frame, i: nat)
    requires Distinct(Names(f)) && i < |f|
    ensures Get(f, f[i].name) == Ok(f[i].value)
  {
    DistinctIndexOf(Names(f), i);
  }

  /** A frame built from parallel lists of labels and numbers. */
  function Zip(names: seq<string>, values: seq<real>): (f: Frame)
    requires |names| == |values|
    ensures Names(f) == names
    ensures |f| == |values| && forall i :: 0 <= i < |f| ==> f[i].value == Num(values[i])
  {
    seq(|names|, i requires 0 <= i < |names| => Column(names[i], Num(values[i])))
  }

  /** `frame[names]`: the columns `names`, in exactly that order, or a KeyError naming a
      label that is absent. */
  function Select(f: Frame, names: seq<string>): (r: Result<Frame>)
    ensures r.Ok? <==> forall n :: n in names ==> n in Names(f)
    ensures r.Ok? ==> Names(r.value) == names
    ensures r.Ok? ==> forall i :: 0 <= i < |names| ==> Get(f, names[i]) == Ok(r.value[i].value)
    ensures r.Err? ==> r.error.MissingColumn? && r.error.column in names && r.error.column !in Names(f)
    decreases |names|
  {
    if names == [] then Ok([])
    else
      var v :- Get(f, names[0]);
      var rest :- Select(f, names[1..]);
      assert forall n :: n in names ==> n == names[0] || n in names[1..];
      Ok([Column(names[0], v)] + rest)
  }

  /** Selection looks columns up by label only, so it does not depend on the order in which
      the frame was assembled. */
  lemma {:induction false} SelectIgnoresOrder(f: Frame, g: Frame, names: seq<string>)
    requires forall n :: n in names ==> Get(f, n) == Get(g, n)
    ensures Select(f, names) == Select(g, names)
    decreases |names|
  {
    if names != [] {
      assert names[0] in names;
      assert forall n :: n in names[1..] ==> n in names;
      SelectIgnoresOrder(f, g, names[1..]);
    }
  }

  lemma PermutedHas(f: Frame, g: Frame, name: string)
    requires multiset(f) == multiset(g) && name in Names(g)
    ensures name in Names(f)
  {
    var j := IndexOf(Names(g), name);
    assert g[j] in multiset(f);
    var i :| 0 <= i < |f| && f[i] == g[j];
    assert Names(f)[i] == name;
  }

  /** Two frames holding the same columns, each label once, agree on every lookup,
      however their columns are ordered. */
  lemma PermutedGet(f: Frame, g: Frame, name: string)
    requires Distinct(Names(f)) && Distinct(Names(g))
    requires multiset(f) == multiset(g)
    ensures Get(f, name) == Get(g, name)
  {
    if name in Names(g) {
      PermutedHas(f, g, name);
    }
    if name in Names(f) {
      var i := IndexOf(Names(f), name);
      assert f[i] in multiset(g);
      var j :| 0 <= j < |g| && g[j] == f[i];
      GetDistinct(f, i);
      GetDistinct(g, j);
    }
  }

  /** The frame without the columns labelled `name`, others kept in order. */
  function Without(f: Frame, name: string): (r: Frame)
    ensures name !in Names(r)
    ensures name !in Names(f) ==> r == f
    decreases |f|
  {
    if f == [] then []
    else
      var rest := Without(f[1..], name);
      if f[0].name == name then rest
      else
        assert f == [f[0]] + f[1..];
        NamesConcat([f[0]], f[1..]);
        NamesConcat([f[0]], rest);
        [f[0]] + rest
  }

  /** Dropping one label leaves every other lookup as it was. */
  lemma {:induction false} WithoutGet(f: Frame, name: string, n: string)
    requires n != name
    ensures Get(Without(f, name), n) == Get(f, n)
    decreases |f|
  {
    if f != [] {
      WithoutGet(f[1..], name, n);
      assert f == [f[0]] + f[1..];
      GetConcat([f[0]], f[1..], n);
      if f[0].name != name {
        GetConcat([f[0]], Without(f[1..], name), n);
      }
    }
  }

  /** Dropping the label of a last column that is the only one with that label gives back
      the columns before it. */
  lemma {:induction false} WithoutLast(f: Frame, c: Column)
    requires c.name !in Names(f)
    ensures Without(f + [c], c.name) == f
    decreases |f|
  {
    if f == [] {
      assert [c][1..] == [];
    } else {
      assert (f + [c])[1..] == f[1..] + [c];
      assert c.name !in Names(f[1..]) by {
        assert forall i :: 0 <= i < |f[1..]| ==> Names(f[1..])[i] == Names(f)[i + 1];
      }
      WithoutLast(f[1..], c);
      assert f == [f[0]] + f[1..];
    }
  }

  /** `frame.drop(name, axis=1)`: a KeyError when the label is absent. */
  function Drop(f: Frame, name: string): (r: Result<Frame>)
    ensures r.Ok? <==> name in Names(f)
    ensures r.Err? ==> r.error == MissingColumn(name)
    ensures r.Ok? ==> r.value == Without(f, name)
    ensures r.Ok? ==> name !in Names(r.value) && forall n :: n != name ==> Get(r.value, n) == Get(f, n)
  {
    forall n | n != name ensures Get(Without(f, name), n) == Get(f, n) {
      WithoutGet(f, name, n);
    }
    if name in Names(f) then Ok(Without(f, name)) else Err(MissingColumn(name))
  }

  /** `frame[name] = v`: overwrites the column with that label where it is, or appends a
      new last column. */
  function Assign(f: Frame, name: string, v: Value): (r: Frame)
    ensures name in Names(f) ==> Names(r) == Names(f)
    ensures name !in Names(f) ==> Names(r) == Names(f) + [name]
    ensures Get(r, name) == Ok(v)
    ensures forall n :: n != name ==> Get(r, n) == Get(f, n)
    ensures forall i :: 0 <= i < |f| && f[i].name != name ==> r[i] == f[i]
  {
    var k := IndexOf(Names(f), name);
    if k < |f| then
      var r := f[k := Column(name, v)];
      assert Names(r) == Names(f);
      r
    else
      var r := f + [Column(name, v)];
      assert Names(r) == Names(f) + [name];
      forall n ensures Get(r, n) == (if n in Names(f) then Get(f, n) else Get([Column(name, v)], n)) {
        GetConcat(f, [Column(name, v)], n);
      }
      r
  }

  /** Overwriting an existing label replaces its first column in place. */
  lemma AssignExisting(f: Frame, name: string, v: Value)
    requires name in Names(f)
    ensures Assign(f, name, v) == f[IndexOf(Names(f), name) := Column(name, v)]
  {
  }

  /** The row handed to the scaler: every cell must be numeric, otherwise the conversion to
      a float array fails on the first text column. */
  function Values(f: Frame): (r: Result<seq<real>>)
    ensures r.Ok? <==> forall i :: 0 <= i < |f| ==> f[i].value.Num?
    ensures r.Ok? ==> |r.value| == |f| && forall i :: 0 <= i < |f| ==> f[i].value == Num(r.value[i])
    ensures r.Err? ==> r.error.NotNumeric? && r.error.column in Names(f)
    decreases |f|
  {
    if f == [] then Ok([])
    else if f[0].value.Text? then Err(NotNumeric(f[0].name))
    else
      var rest :- Values(f[1..]);
      Ok([f[0].value.x] + rest)
  }

  /** Selecting columns whose lookups all give numbers, then converting, gives those
      numbers in the order of the selection. */
  lemma {:induction false} SelectValues(f: Frame, names: seq<string>, row: seq<real>)
    requires |names| == |row|
    requires forall i :: 0 <= i < |names| ==> Get(f, names[i]) == Ok(Num(row[i]))
    ensures Select(f, names).Ok? && Values(Select(f, names).value) == Ok(row)
  {
    forall n | n in names ensures n in Names(f) {
      var i :| 0 <= i < |names| && names[i] == n;
      assert Get(f, names[i]).Ok?;
    }
    var selected := Select(f, names).value;
    var r := Values(selected);
    assert forall i :: 0 <= i < |selected| ==> selected[i].value == Num(row[i]);
    assert r.Ok?;
    assert forall i :: 0 <= i < |row| ==> r.value[i] == row[i];
    assert r.value == row;
  }

  /** A DataFrame object whose columns are overwritten in place. */
  class DataFrame {
    var columns: Frame

    constructor (init: Frame)
      ensures columns == init
    {
      columns := init;
    }

    /** `df[name] = v`. */
    method SetColumn(name: string, v: Value)
      modifies this
      ensures columns == Assign(old(columns), name, v)
    {
      var k := IndexOf(Names(columns), name);
      if k < |columns| {
        columns := columns[k := Column(name, v)];
      } else {
        columns := columns + [Column(name, v)];
      }
    }
  }
}
