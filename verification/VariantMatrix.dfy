/**
 The matrix of a seller's variant options: every combination of one value per
 option, and the text key by which item rows are matched to combinations.
 */
module VariantMatrix {
  import opened Base
  import opened Text

  datatype VariantOption = VariantOption(name: string, values: seq<string>)

  type Selection = map<string, string>

  function Names(options: seq<VariantOption>): seq<string> {
    seq(|options|, i requires 0 <= i < |options| => options[i].name)
  }

  function ExpectedCount(options: seq<VariantOption>): nat {
    if options == [] then 0 else Product(options)
  }

  function Product(options: seq<VariantOption>): nat {
    if options == [] then 1 else Product(options[..|options| - 1]) * |options[|options| - 1].values|
  }

  function ExtendRow(row: Selection, o: VariantOption): seq<Selection> {
    seq(|o.values|, j requires 0 <= j < |o.values| => row[o.name := o.values[j]])
  }

  function Extend(rows: seq<Selection>, o: VariantOption): seq<Selection> {
    if rows == [] then [] else Extend(rows[..|rows| - 1], o) + ExtendRow(rows[|rows| - 1], o)
  }

  function Rows(options: seq<VariantOption>): seq<Selection> {
    if options == [] then [map[]] else Extend(Rows(options[..|options| - 1]), options[|options| - 1])
  }

  function Combinations(options: seq<VariantOption>): seq<Selection> {
    if options == [] then [] else Rows(options)
  }

  method ComputeCombinations(options: seq<VariantOption>) returns (rows: seq<Selection>)
    ensures rows == Combinations(options)
  {
    if options == [] {
      return [];
    }
    rows := [map[]];
    for k := 0 to |options|
      invariant rows == Rows(options[..k])
    {
      var o := options[k];
      var next := [];
      for a := 0 to |rows|
        invariant next == Extend(rows[..a], o)
      {
        ghost var done := next;
        for j := 0 to |o.values|
          invariant next == done + ExtendRow(rows[a], o)[..j]
        {
          next := next + [rows[a][o.name := o.values[j]]];
        }
        assert rows[..a + 1][..a] == rows[..a];
      }
      assert rows[..|rows|] == rows;
      assert options[..k + 1][..k] == options[..k];
      rows := next;
    }
    assert options[..|options|] == options;
  }

  // ---------- positions in the matrix ----------

  /** Where value `j` of the next option lands for row `a`. */
  function Place(a: nat, j: nat, m: nat): nat {
    a * m + j
  }

  lemma Position(a: nat, n: nat, m: nat)
    requires a < n
    ensures a * m + m <= n * m
  {
    assert n * m == a * m + m + (n - a - 1) * m;
  }

  lemma {:induction false} ExtendAt(rows: seq<Selection>, o: VariantOption, a: nat, j: nat)
    requires a < |rows| && j < |o.values|
    ensures Place(a, j, |o.values|) < |Extend(rows, o)|
    ensures Extend(rows, o)[Place(a, j, |o.values|)] == rows[a][o.name := o.values[j]]
  {
    var n, m := |rows| - 1, |o.values|;
    ExtendLength(rows, o);
    ExtendLength(rows[..n], o);
    Position(a, |rows|, m);
    if a < n {
      ExtendAt(rows[..n], o, a, j);
    }
  }

  lemma {:induction false} ExtendLength(rows: seq<Selection>, o: VariantOption)
    ensures |Extend(rows, o)| == |rows| * |o.values|
  {
    if rows != [] {
      ExtendLength(rows[..|rows| - 1], o);
      assert |rows| * |o.values| == (|rows| - 1) * |o.values| + |o.values|;
    }
  }

  lemma {:induction false} RowsLength(options: seq<VariantOption>)
    ensures |Rows(options)| == Product(options)
  {
    if options != [] {
      RowsLength(options[..|options| - 1]);
      ExtendLength(Rows(options[..|options| - 1]), options[|options| - 1]);
    }
  }

  lemma {:induction false} RowsKeys(options: seq<VariantOption>)
    ensures forall r :: r in Rows(options) ==> r.Keys == Elems(Names(options))
  {
    if options != [] {
      hide Place;
      var n := |options| - 1;
      var rows, o := Rows(options[..n]), options[n];
      RowsKeys(options[..n]);
      assert Names(options) == Names(options[..n]) + [o.name];
      forall r | r in Rows(options)
        ensures r.Keys == Elems(Names(options))
      {
        var a, j := Coordinates(rows, o, r);
        assert rows[a] in rows;
        assert r.Keys == rows[a].Keys + {o.name};
      }
    }
  }

  lemma Coordinates(rows: seq<Selection>, o: VariantOption, r: Selection) returns (a: nat, j: nat)
    requires r in Extend(rows, o)
    ensures a < |rows| && j < |o.values| && r == rows[a][o.name := o.values[j]]
  {
    var k :| 0 <= k < |Extend(rows, o)| && Extend(rows, o)[k] == r;
    a, j := CoordinatesAt(rows, o, k);
  }

  lemma {:induction false} CoordinatesAt(rows: seq<Selection>, o: VariantOption, k: nat) returns (a: nat, j: nat)
    requires k < |Extend(rows, o)|
    ensures a < |rows| && j < |o.values| && k == Place(a, j, |o.values|)
    ensures Extend(rows, o)[k] == rows[a][o.name := o.values[j]]
  {
    var front := rows[..|rows| - 1];
    ExtendLength(front, o);
    if k < |Extend(front, o)| {
      a, j := CoordinatesAt(front, o, k);
    } else {
      a, j := |front|, k - |Extend(front, o)|;
    }
  }

  // ---------- when are all combinations different? ----------

  function CutAll(rows: seq<Selection>, hidden: set<string>): seq<Selection> {
    seq(|rows|, i requires 0 <= i < |rows| => rows[i] - hidden)
  }

  /** Walking from the last option, a name already seen hides the earlier option. */
  ghost predicate Clear(options: seq<VariantOption>, hidden: set<string>) {
    options == []
    || var o := options[|options| - 1];
       && (if o.name in hidden then |o.values| == 1 else NoDup(o.values))
       && Clear(options[..|options| - 1], hidden + {o.name})
  }

  ghost predicate HasValues(options: seq<VariantOption>) {
    forall i :: 0 <= i < |options| ==> options[i].values != []
  }

  lemma {:induction false} ProductPositive(options: seq<VariantOption>)
    requires HasValues(options)
    ensures Product(options) > 0
  {
    if options != [] {
      ProductPositive(options[..|options| - 1]);
    }
  }

  lemma ExtendDistinct(rows: seq<Selection>, o: VariantOption, hidden: set<string>)
    requires if o.name in hidden then |o.values| == 1 else NoDup(o.values)
    requires NoDup(CutAll(rows, hidden + {o.name}))
    ensures NoDup(CutAll(Extend(rows, o), hidden))
  {
    var all := CutAll(Extend(rows, o), hidden);
    forall k, k' | 0 <= k < k' < |all|
      ensures all[k] != all[k']
    {
      if all[k] == all[k'] {
        SameRowSamePlace(rows, o, hidden, k, k');
      }
    }
  }

  lemma SameRowSamePlace(rows: seq<Selection>, o: VariantOption, hidden: set<string>, k: nat, k': nat)
    requires if o.name in hidden then |o.values| == 1 else NoDup(o.values)
    requires NoDup(CutAll(rows, hidden + {o.name}))
    requires k < |Extend(rows, o)| && k' < |Extend(rows, o)|
    requires Extend(rows, o)[k] - hidden == Extend(rows, o)[k'] - hidden
    ensures k == k'
  {
    var all, cut := Extend(rows, o), CutAll(rows, hidden + {o.name});
    var a, j := CoordinatesAt(rows, o, k);
    var a', j' := CoordinatesAt(rows, o, k');
    if o.name !in hidden {
      assert (all[k] - hidden)[o.name] == o.values[j];
      assert (all[k'] - hidden)[o.name] == o.values[j'];
    }
    assert j == j';
    CutMore(rows[a], o, o.values[j], hidden);
    CutMore(rows[a'], o, o.values[j'], hidden);
    assert cut[a] == cut[a'];
  }

  lemma CutMore(row: Selection, o: VariantOption, v: string, hidden: set<string>)
    ensures row[o.name := v] - hidden - {o.name} == row - (hidden + {o.name})
  {
  }

  lemma ExtendRepeats(rows: seq<Selection>, o: VariantOption, hidden: set<string>)
    requires rows != [] && o.values != []
    requires NoDup(CutAll(Extend(rows, o), hidden))
    ensures if o.name in hidden then |o.values| == 1 else NoDup(o.values)
    ensures NoDup(CutAll(rows, hidden + {o.name}))
  {
    var cut := CutAll(rows, hidden + {o.name});
    if o.name in hidden {
      HiddenIsSingle(rows, o, hidden);
    } else {
      forall j, j' | 0 <= j < j' < |o.values|
        ensures o.values[j] != o.values[j']
      {
        if o.values[j] == o.values[j'] {
          SamePlace(rows, o, hidden, 0, j, 0, j');
        }
      }
    }
    forall a, a' | 0 <= a < a' < |rows|
      ensures cut[a] != cut[a']
    {
      if cut[a] == cut[a'] {
        SameAfter(rows[a], rows[a'], o.name, o.values[0], hidden);
        SamePlace(rows, o, hidden, a, 0, a', 0);
      }
    }
  }

  lemma HiddenIsSingle(rows: seq<Selection>, o: VariantOption, hidden: set<string>)
    requires rows != [] && o.values != [] && o.name in hidden
    requires NoDup(CutAll(Extend(rows, o), hidden))
    ensures |o.values| == 1
  {
    if |o.values| > 1 {
      assert rows[0][o.name := o.values[0]] - hidden == rows[0][o.name := o.values[1]] - hidden;
      SamePlace(rows, o, hidden, 0, 0, 0, 1);
    }
  }

  lemma UniquePlace(a: nat, j: nat, a': nat, j': nat, m: nat)
    requires j < m && j' < m && a <= a' && Place(a, j, m) == Place(a', j', m)
    ensures a == a' && j == j'
  {
    if a < a' {
      Position(a, a', m);
    }
  }

  lemma SamePlace(rows: seq<Selection>, o: VariantOption, hidden: set<string>, a: nat, j: nat, a': nat, j': nat)
    requires NoDup(CutAll(Extend(rows, o), hidden))
    requires a <= a' < |rows| && j < |o.values| && j' < |o.values|
    requires rows[a][o.name := o.values[j]] - hidden == rows[a'][o.name := o.values[j']] - hidden
    ensures a == a' && j == j'
  {
    hide Extend, Place;
    var all := CutAll(Extend(rows, o), hidden);
    ExtendAt(rows, o, a, j);
    ExtendAt(rows, o, a', j');
    assert all[Place(a, j, |o.values|)] == all[Place(a', j', |o.values|)];
    UniquePlace(a, j, a', j', |o.values|);
  }

  lemma SameAfter(r: Selection, s: Selection, name: string, v: string, hidden: set<string>)
    requires r - (hidden + {name}) == s - (hidden + {name})
    ensures r[name := v] - hidden == s[name := v] - hidden
  {
    var r', s' := r[name := v] - hidden, s[name := v] - hidden;
    forall n
      ensures n in r' <==> n in s'
      ensures n in r' ==> n in s' && r'[n] == s'[n]
    {
      if n != name && n !in hidden {
        assert n in r <==> n in r - (hidden + {name});
        assert n in s <==> n in s - (hidden + {name});
        assert n in r ==> r[n] == (r - (hidden + {name}))[n];
        assert n in s ==> s[n] == (s - (hidden + {name}))[n];
      }
    }
    assert r'.Keys == s'.Keys;
  }

  lemma {:induction false} RowsDistinct(options: seq<VariantOption>, hidden: set<string>)
    requires HasValues(options)
    ensures NoDup(CutAll(Rows(options), hidden)) <==> Clear(options, hidden)
  {
    if options != [] {
      var front, o := options[..|options| - 1], options[|options| - 1];
      RowsDistinct(front, hidden + {o.name});
      RowsLength(front);
      ProductPositive(front);
      if NoDup(CutAll(Rows(options), hidden)) {
        ExtendRepeats(Rows(front), o, hidden);
      }
      if Clear(options, hidden) {
        ExtendDistinct(Rows(front), o, hidden);
      }
    }
  }

  /** What the seller must respect: no repeated value, and a repeated name only after a one-value option. */
  ghost predicate Unambiguous(options: seq<VariantOption>) {
    && (forall i :: 0 <= i < |options| ==> NoDup(options[i].values))
    && (forall i, j :: 0 <= i < j < |options| && options[i].name == options[j].name ==> |options[i].values| == 1)
  }

  lemma {:induction false} ClearMeaning(options: seq<VariantOption>, hidden: set<string>)
    ensures Clear(options, hidden) <==>
              Unambiguous(options)
              && forall i :: 0 <= i < |options| && options[i].name in hidden ==> |options[i].values| == 1
  {
    if options != [] {
      var n := |options| - 1;
      var front, o := options[..n], options[n];
      ClearMeaning(front, hidden + {o.name});
      if Clear(options, hidden) {
        forall i, j | 0 <= i < j < |options| && options[i].name == options[j].name
          ensures |options[i].values| == 1
        {
          assert options[i] == front[i];
          if j < n {
            assert options[j] == front[j];
          }
        }
        forall i | 0 <= i < |options|
          ensures NoDup(options[i].values)
          ensures options[i].name in hidden ==> |options[i].values| == 1
        {
          if i < n {
            assert options[i] == front[i];
          }
        }
      }
    }
  }

  /** For every option list: all combinations are different exactly when it is unambiguous. */
  lemma CombinationsDistinct(options: seq<VariantOption>)
    requires HasValues(options)
    ensures NoDup(Rows(options)) <==> Unambiguous(options)
  {
    RowsDistinct(options, {});
    ClearMeaning(options, {});
    assert forall r: Selection :: r - {} == r;
    assert CutAll(Rows(options), {}) == Rows(options);
  }

  // ---------- keys ----------

  function Chosen(sel: Selection, name: string): string {
    if name in sel then sel[name] else ""
  }

  function KeyParts(sel: Selection, names: seq<string>): seq<string> {
    seq(|names|, i requires 0 <= i < |names| => names[i] + "=" + Chosen(sel, names[i]))
  }

  function SelectionKey(sel: Selection, names: seq<string>): string {
    Join(KeyParts(sel, names), "|")
  }

  /** Two selections make the same choice for every option. */
  ghost predicate Agree(a: Selection, b: Selection, names: seq<string>) {
    forall n :: n in names ==> Chosen(a, n) == Chosen(b, n)
  }

  function Bars(s: string): nat {
    if s == "" then 0 else (if s[0] == '|' then 1 else 0) + Bars(s[1..])
  }

  function BarsAll(parts: seq<string>): nat {
    if parts == [] then 0 else Bars(parts[0]) + BarsAll(parts[1..])
  }

  lemma {:induction false} BarsConcat(a: string, b: string)
    ensures Bars(a + b) == Bars(a) + Bars(b)
  {
    if a == "" {
      assert a + b == b;
    } else {
      BarsConcat(a[1..], b);
      assert (a + b)[1..] == a[1..] + b;
    }
  }

  lemma {:induction false} NoBars(s: string)
    ensures Bars(s) == 0 <==> '|' !in s
  {
    if s != "" {
      NoBars(s[1..]);
      assert s == [s[0]] + s[1..];
    }
  }

  lemma {:induction false} NoBarsAll(parts: seq<string>)
    ensures BarsAll(parts) == 0 <==> forall p :: p in parts ==> '|' !in p
  {
    if parts != [] {
      NoBars(parts[0]);
      NoBarsAll(parts[1..]);
      assert parts == [parts[0]] + parts[1..];
    }
  }

  lemma {:induction false} BarsJoin(parts: seq<string>)
    requires parts != []
    ensures Bars(Join(parts, "|")) == BarsAll(parts) + |parts| - 1
  {
    if |parts| > 1 {
      BarsJoin(parts[1..]);
      BarsConcat(parts[0] + "|", Join(parts[1..], "|"));
      BarsConcat(parts[0], "|");
    }
  }

  /** The combination is free of the separator; a row with the same key then cannot contain it either. */
  lemma KeyInjective(a: Selection, b: Selection, names: seq<string>)
    requires names != []
    requires forall p :: p in KeyParts(a, names) ==> '|' !in p
    requires SelectionKey(a, names) == SelectionKey(b, names)
    ensures Agree(a, b, names)
  {
    var p, q := KeyParts(a, names), KeyParts(b, names);
    BarsJoin(p);
    BarsJoin(q);
    NoBarsAll(p);
    NoBarsAll(q);
    assert "|" == ['|'];
    SplitJoin(p, '|');
    SplitJoin(q, '|');
    forall n | n in names
      ensures Chosen(a, n) == Chosen(b, n)
    {
      var i :| 0 <= i < |names| && names[i] == n;
      assert p[i] == n + "=" + Chosen(a, n) && q[i] == n + "=" + Chosen(b, n);
      assert p[i][|n| + 1..] == Chosen(a, n) && q[i][|n| + 1..] == Chosen(b, n);
    }
  }

  lemma SameKey(a: Selection, b: Selection, names: seq<string>)
    requires Agree(a, b, names)
    ensures SelectionKey(a, names) == SelectionKey(b, names)
  {
    assert KeyParts(a, names) == KeyParts(b, names);
  }

  /** No option name and no option value contains the key separator. */
  ghost predicate BarFree(options: seq<VariantOption>) {
    forall i :: 0 <= i < |options| ==>
      '|' !in options[i].name && forall v :: v in options[i].values ==> '|' !in v
  }

  lemma {:induction false} RowsBarFree(options: seq<VariantOption>)
    requires BarFree(options)
    ensures forall r, n :: r in Rows(options) && n in r ==> '|' !in r[n]
  {
    if options != [] {
      var rows, o := Rows(options[..|options| - 1]), options[|options| - 1];
      RowsBarFree(options[..|options| - 1]);
      forall r, n | r in Rows(options) && n in r
        ensures '|' !in r[n]
      {
        var a, j := Coordinates(rows, o, r);
        assert rows[a] in rows && o.values[j] in o.values;
      }
    }
  }

  function Keys(rows: seq<Selection>, names: seq<string>): seq<string> {
    seq(|rows|, i requires 0 <= i < |rows| => SelectionKey(rows[i], names))
  }

  lemma RowPartsBarFree(options: seq<VariantOption>, r: Selection)
    requires BarFree(options) && r in Rows(options)
    ensures forall p :: p in KeyParts(r, Names(options)) ==> '|' !in p
  {
    RowsBarFree(options);
    var names := Names(options);
    forall p | p in KeyParts(r, names)
      ensures '|' !in p
    {
      var i :| 0 <= i < |names| && p == names[i] + "=" + Chosen(r, names[i]);
    }
  }

  /** Free of the separator, distinct combinations have distinct keys. */
  lemma KeysDistinct(options: seq<VariantOption>)
    requires options != [] && BarFree(options) && HasValues(options)
    ensures NoDup(Keys(Rows(options), Names(options))) <==> Unambiguous(options)
  {
    var rows, names := Rows(options), Names(options);
    CombinationsDistinct(options);
    RowsKeys(options);
    if NoDup(rows) {
      forall i, j | 0 <= i < j < |rows|
        ensures SelectionKey(rows[i], names) != SelectionKey(rows[j], names)
      {
        if SelectionKey(rows[i], names) == SelectionKey(rows[j], names) {
          SameKeySameRow(options, rows[i], rows[j]);
        }
      }
    } else {
      var i, j :| 0 <= i < j < |rows| && rows[i] == rows[j];
      assert Keys(rows, names)[i] == Keys(rows, names)[j];
    }
  }

  lemma SameKeySameRow(options: seq<VariantOption>, r: Selection, s: Selection)
    requires options != [] && BarFree(options) && r in Rows(options) && s in Rows(options)
    requires SelectionKey(r, Names(options)) == SelectionKey(s, Names(options))
    ensures r == s
  {
    RowsKeys(options);
    RowPartsBarFree(options, r);
    KeyInjective(r, s, Names(options));
    forall n | n in r
      ensures r[n] == s[n]
    {
      assert n in Names(options);
    }
  }
}
