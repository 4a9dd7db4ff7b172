/**
 The variant matrix a seller submits: parsing the payload, validating it against
 the Cartesian product of its options, and the stored normal form.

 A payload is a JSON value. Its objects are modelled by the fields the code reads,
 its scalars by `Leaf`; `Host` stands for the runtime's `String(x)` and `Number(x)`,
 of which only their effect on strings and numbers is fixed. A row's `label` is
 called `title` here (`label` is a reserved word).
 */
module Variants {
  import opened Base
  import opened Text
  import opened VariantMatrix

  datatype Leaf = Missing | Null | Str(s: string) | Num(n: real) | Other(tag: nat)

  datatype List<+T> = NotList | List(elems: seq<T>)

  datatype RawOption = OptionScalar | RawOption(name: Leaf, values: List<Leaf>)

  datatype RawSelection = NoSelection | RawSelection(fields: map<string, Leaf>)

  datatype RawItem =
    | ItemScalar
    | RawItem(id: Leaf, title: Leaf, price: Leaf, stock: Leaf, selection: RawSelection,
              mrp: Leaf, discount: Leaf, sku: Leaf)

  datatype Raw = Absent | NotRecord | Record(options: List<RawOption>, items: List<RawItem>)

  /** `number` answers None for NaN. */
  datatype Host = Host(text: Leaf -> string, number: Leaf -> Option<real>) {
    ghost predicate Sane() {
      && (forall s :: text(Str(s)) == s)
      && (forall n :: number(Num(n)) == Some(n))
      && number(Missing) == None
    }
  }

  datatype VariantItem = VariantItem(
    id: string, title: string, selection: Selection, price: real, stock: int,
    mrp: Option<real>, discount: Option<real>, sku: Option<string>)

  datatype Variants = Variants(options: seq<VariantOption>, items: seq<VariantItem>)

  // ---------- parsing ----------

  function TextOf(h: Host, l: Leaf): string {
    if l.Missing? || l.Null? then "" else Trim(h.text(l))
  }

  function OptionalNumber(h: Host, l: Leaf): Option<real> {
    if l.Missing? || l.Null? then None else h.number(l)
  }

  function TrimTexts(h: Host, ls: seq<Leaf>): seq<string> {
    seq(|ls|, i requires 0 <= i < |ls| => h.text(ls[i]))
  }

  function ParseOption(h: Host, r: RawOption): Option<VariantOption> {
    if r.OptionScalar? then None
    else
      var name := TextOf(h, r.name);
      var values := if r.values.List? then SolidParts(TrimTexts(h, r.values.elems)) else [];
      if name != "" && values != [] then Some(VariantOption(name, values)) else None
  }

  function ParseItem(h: Host, r: RawItem): Option<VariantItem> {
    if r.ItemScalar? then None
    else
      var id, title := TextOf(h, r.id), TextOf(h, r.title);
      var price, stock := h.number(r.price), h.number(r.stock);
      var selection := if r.selection.RawSelection?
                       then map k | k in r.selection.fields :: h.text(r.selection.fields[k])
                       else map[];
      var sku := if r.sku.Missing? || r.sku.Null? then "" else Trim(h.text(r.sku));
      if id == "" || title == "" || price.None? || price.value < 0.0 || stock.None? || stock.value < 0.0 then None
      else Some(VariantItem(id, title, selection, price.value, stock.value.Floor,
                            OptionalNumber(h, r.mrp), OptionalNumber(h, r.discount),
                            if sku != "" then Some(sku) else None))
  }

  function ParsedOptions(h: Host, rs: seq<RawOption>): seq<VariantOption> {
    if rs == [] then []
    else
      var o := ParseOption(h, rs[|rs| - 1]);
      ParsedOptions(h, rs[..|rs| - 1]) + if o.Some? then [o.value] else []
  }

  function ParsedItems(h: Host, rs: seq<RawItem>): seq<VariantItem> {
    if rs == [] then []
    else
      var o := ParseItem(h, rs[|rs| - 1]);
      ParsedItems(h, rs[..|rs| - 1]) + if o.Some? then [o.value] else []
  }

  function OptionsOf(h: Host, raw: Raw): seq<VariantOption> {
    if raw.Record? && raw.options.List? then ParsedOptions(h, raw.options.elems) else []
  }

  function ItemsOf(h: Host, raw: Raw): seq<VariantItem> {
    if raw.Record? && raw.items.List? then ParsedItems(h, raw.items.elems) else []
  }

  method ParseVariantOptions(h: Host, raw: Raw) returns (out: seq<VariantOption>)
    ensures out == OptionsOf(h, raw)
  {
    out := [];
    if !raw.Record? || !raw.options.List? {
      return;
    }
    var rs := raw.options.elems;
    for k := 0 to |rs|
      invariant out == ParsedOptions(h, rs[..k])
    {
      assert rs[..k + 1][..k] == rs[..k];
      var o := ParseOption(h, rs[k]);
      if o.Some? {
        out := out + [o.value];
      }
    }
    assert rs[..|rs|] == rs;
  }

  method ParseVariantItems(h: Host, raw: Raw) returns (out: seq<VariantItem>)
    ensures out == ItemsOf(h, raw)
  {
    out := [];
    if !raw.Record? || !raw.items.List? {
      return;
    }
    var rs := raw.items.elems;
    for k := 0 to |rs|
      invariant out == ParsedItems(h, rs[..k])
    {
      assert rs[..k + 1][..k] == rs[..k];
      var o := ParseItem(h, rs[k]);
      if o.Some? {
        out := out + [o.value];
      }
    }
    assert rs[..|rs|] == rs;
  }

  // ---------- the stored normal form ----------

  ghost predicate NormalOption(o: VariantOption) {
    Solid(o.name) && o.values != [] && forall v :: v in o.values ==> Solid(v)
  }

  ghost predicate NormalItem(i: VariantItem) {
    Solid(i.id) && Solid(i.title) && i.price >= 0.0 && i.stock >= 0 && (i.sku.Some? ==> Solid(i.sku.value))
  }

  ghost predicate Normal(v: Variants) {
    (forall o :: o in v.options ==> NormalOption(o)) && (forall i :: i in v.items ==> NormalItem(i))
  }

  function Leaves(ss: seq<string>): seq<Leaf> {
    seq(|ss|, i requires 0 <= i < |ss| => Str(ss[i]))
  }

  function NumberLeaf(o: Option<real>): Leaf {
    if o.Some? then Num(o.value) else Missing
  }

  function EmitOption(o: VariantOption): RawOption {
    RawOption(Str(o.name), List(Leaves(o.values)))
  }

  function EmitItem(i: VariantItem): RawItem {
    RawItem(Str(i.id), Str(i.title), Num(i.price), Num(i.stock as real),
            RawSelection(map k | k in i.selection :: Str(i.selection[k])),
            NumberLeaf(i.mrp), NumberLeaf(i.discount),
            if i.sku.Some? then Str(i.sku.value) else Missing)
  }

  function EmitOptions(os: seq<VariantOption>): seq<RawOption> {
    seq(|os|, i requires 0 <= i < |os| => EmitOption(os[i]))
  }

  function EmitItems(xs: seq<VariantItem>): seq<RawItem> {
    seq(|xs|, i requires 0 <= i < |xs| => EmitItem(xs[i]))
  }

  function Emit(v: Variants): Raw {
    Record(List(EmitOptions(v.options)), List(EmitItems(v.items)))
  }

  /** What is read from a stored or submitted payload. */
  function Read(h: Host, raw: Raw): Variants {
    Variants(OptionsOf(h, raw), ItemsOf(h, raw))
  }

  lemma ParseOptionNormal(h: Host, r: RawOption)
    ensures ParseOption(h, r).Some? ==> NormalOption(ParseOption(h, r).value)
  {
    if r.RawOption? {
      TrimIsTrimmed(h.text(r.name));
      if r.values.List? {
        SolidPartsShape(TrimTexts(h, r.values.elems));
      }
    }
  }

  lemma ParseItemNormal(h: Host, r: RawItem)
    ensures ParseItem(h, r).Some? ==> NormalItem(ParseItem(h, r).value)
  {
    if r.RawItem? {
      TrimIsTrimmed(h.text(r.id));
      TrimIsTrimmed(h.text(r.title));
      TrimIsTrimmed(h.text(r.sku));
    }
  }

  lemma {:induction false} ParsedOptionsNormal(h: Host, rs: seq<RawOption>)
    ensures forall o :: o in ParsedOptions(h, rs) ==> NormalOption(o)
  {
    if rs != [] {
      ParsedOptionsNormal(h, rs[..|rs| - 1]);
      ParseOptionNormal(h, rs[|rs| - 1]);
    }
  }

  lemma {:induction false} ParsedItemsNormal(h: Host, rs: seq<RawItem>)
    ensures forall i :: i in ParsedItems(h, rs) ==> NormalItem(i)
  {
    if rs != [] {
      ParsedItemsNormal(h, rs[..|rs| - 1]);
      ParseItemNormal(h, rs[|rs| - 1]);
    }
  }

  /** Whatever is submitted, what is read from it is normal. */
  lemma ReadIsNormal(h: Host, raw: Raw)
    ensures Normal(Read(h, raw))
  {
    if raw.Record? && raw.options.List? {
      ParsedOptionsNormal(h, raw.options.elems);
    }
    if raw.Record? && raw.items.List? {
      ParsedItemsNormal(h, raw.items.elems);
    }
  }

  /** The text of a scalar, trimmed; a missing one has none. */
  ghost predicate Says(h: Host, l: Leaf, s: string) {
    s != "" && l != Missing && l != Null && s == Trim(h.text(l))
  }

  ghost predicate Amounts(h: Host, l: Leaf, n: real) {
    n >= 0.0 && h.number(l) == Some(n)
  }

  /** Which rows are read, and what they become: stock is rounded down, everything else is as it was said. */
  lemma ItemReadExactly(h: Host, r: RawItem)
    ensures ParseItem(h, r).Some?
       <==> && r.RawItem? && (exists id :: Says(h, r.id, id)) && (exists title :: Says(h, r.title, title))
            && (exists price :: Amounts(h, r.price, price)) && (exists stock :: Amounts(h, r.stock, stock))
    ensures ParseItem(h, r).Some? ==>
              var i := ParseItem(h, r).value;
              && r.RawItem? && Says(h, r.id, i.id) && Says(h, r.title, i.title) && Amounts(h, r.price, i.price)
              && h.number(r.stock).Some? && i.stock as real <= h.number(r.stock).value < i.stock as real + 1.0
              && (r.selection.RawSelection? ==>
                    && i.selection.Keys == r.selection.fields.Keys
                    && forall k :: k in i.selection ==> i.selection[k] == h.text(r.selection.fields[k]))
              && (r.selection.NoSelection? ==> i.selection == map[])
              && (i.mrp == if r.mrp == Missing || r.mrp == Null then None else h.number(r.mrp))
              && (i.discount == if r.discount == Missing || r.discount == Null then None else h.number(r.discount))
              && (if i.sku.Some? then Says(h, r.sku, i.sku.value) else forall sku :: !Says(h, r.sku, sku))
  {
    if r.RawItem? {
      assert Trim(h.text(r.id)) != "" && r.id != Missing && r.id != Null ==> Says(h, r.id, Trim(h.text(r.id)));
      assert Trim(h.text(r.title)) != "" && r.title != Missing && r.title != Null ==>
          Says(h, r.title, Trim(h.text(r.title)));
      assert h.number(r.price).Some? && h.number(r.price).value >= 0.0 ==>
          Amounts(h, r.price, h.number(r.price).value);
      assert h.number(r.stock).Some? && h.number(r.stock).value >= 0.0 ==>
          Amounts(h, r.stock, h.number(r.stock).value);
    }
  }

  /** An option is read exactly when it has a name and a visible value; it gets the visible values, in order. */
  lemma OptionReadExactly(h: Host, r: RawOption)
    ensures ParseOption(h, r).Some?
       <==> && r.RawOption? && (exists name :: Says(h, r.name, name)) && r.values.List?
            && exists k :: 0 <= k < |r.values.elems| && Trim(h.text(r.values.elems[k])) != ""
    ensures ParseOption(h, r).Some? ==>
              && Says(h, r.name, ParseOption(h, r).value.name) && r.values.List?
              && PickedTexts(h, r.values.elems, ParseOption(h, r).value.values)
  {
    hide Trim, PickedTexts, SolidParts, TrimTexts;
    if r.RawOption? {
      assert Trim(h.text(r.name)) != "" && r.name != Missing && r.name != Null ==>
          Says(h, r.name, Trim(h.text(r.name)));
      if r.values.List? {
        SolidPartsPick(h, r.values.elems);
        SomePicked(h, r.values.elems, SolidParts(TrimTexts(h, r.values.elems)));
      }
    }
  }

  /** The trimmed texts of the scalars whose text is not blank, in their order. */
  ghost predicate PickedTexts(h: Host, ls: seq<Leaf>, ts: seq<string>) {
    exists ks: seq<nat> :: PickedAt(h, ls, ts, ks)
  }

  ghost predicate PickedAt(h: Host, ls: seq<Leaf>, ts: seq<string>, ks: seq<nat>) {
    && |ks| == |ts|
    && (forall j :: 0 <= j < |ks| ==> ks[j] < |ls| && ts[j] == Trim(h.text(ls[ks[j]])))
    && (forall i, j :: 0 <= i < j < |ks| ==> ks[i] < ks[j])
    && (forall k :: 0 <= k < |ls| ==> (k in ks <==> Trim(h.text(ls[k])) != ""))
  }

  lemma {:induction false} SolidPartsSnoc(parts: seq<string>, last: string)
    ensures SolidParts(parts + [last]) == SolidParts(parts) + if Trim(last) != "" then [Trim(last)] else []
  {
    if parts == [] {
      assert [last][1..] == [];
    } else {
      SolidPartsSnoc(parts[1..], last);
      assert (parts + [last])[1..] == parts[1..] + [last];
    }
  }

  lemma PickedSnoc(h: Host, front: seq<Leaf>, ts: seq<string>, l: Leaf)
    requires PickedTexts(h, front, ts)
    ensures PickedTexts(h, front + [l], ts + if Trim(h.text(l)) != "" then [Trim(h.text(l))] else [])
  {
    hide Trim;
    var ks: seq<nat> :| PickedAt(h, front, ts, ks);
    if Trim(h.text(l)) == "" {
      assert PickedAt(h, front + [l], ts + [], ks);
    } else {
      var ks' := ks + [|front|];
      forall k | 0 <= k < |front + [l]|
        ensures k in ks' <==> Trim(h.text((front + [l])[k])) != ""
      {
        assert k in ks' <==> k in ks || k == |front|;
      }
      assert PickedAt(h, front + [l], ts + [Trim(h.text(l))], ks');
    }
  }

  lemma TrimTextsSnoc(h: Host, front: seq<Leaf>, l: Leaf)
    ensures TrimTexts(h, front + [l]) == TrimTexts(h, front) + [h.text(l)]
  {
  }

  lemma {:induction false} SolidPartsPick(h: Host, ls: seq<Leaf>)
    ensures PickedTexts(h, ls, SolidParts(TrimTexts(h, ls)))
  {
    if ls == [] {
      assert PickedAt(h, ls, [], []);
    } else {
      hide Trim, SolidParts, TrimTexts, PickedTexts;
      var front, l := ls[..|ls| - 1], ls[|ls| - 1];
      assert ls == front + [l];
      SolidPartsPick(h, front);
      TrimTextsSnoc(h, front, l);
      SolidPartsSnoc(TrimTexts(h, front), h.text(l));
      PickedSnoc(h, front, SolidParts(TrimTexts(h, front)), l);
    }
  }

  lemma SomePicked(h: Host, ls: seq<Leaf>, ts: seq<string>)
    requires PickedTexts(h, ls, ts)
    ensures ts != [] <==> exists k :: 0 <= k < |ls| && Trim(h.text(ls[k])) != ""
  {
    hide Trim;
    var ks: seq<nat> :| PickedAt(h, ls, ts, ks);
    if ts != [] {
      assert ks[0] in ks;
    }
  }

  lemma EmitOptionReads(h: Host, o: VariantOption)
    requires h.Sane() && NormalOption(o)
    ensures ParseOption(h, EmitOption(o)) == Some(o)
  {
    TrimFixes(o.name);
    assert TrimTexts(h, Leaves(o.values)) == o.values;
    SolidPartsFixed(o.values);
  }

  lemma EmitItemReads(h: Host, i: VariantItem)
    requires h.Sane() && NormalItem(i)
    ensures ParseItem(h, EmitItem(i)) == Some(i)
  {
    var r := EmitItem(i);
    TrimFixes(i.id);
    TrimFixes(i.title);
    if i.sku.Some? {
      TrimFixes(i.sku.value);
    }
    assert (map k | k in r.selection.fields :: h.text(r.selection.fields[k])) == i.selection;
    assert (i.stock as real).Floor == i.stock;
  }

  lemma EmitOptionsSnoc(os: seq<VariantOption>, last: VariantOption)
    ensures EmitOptions(os + [last]) == EmitOptions(os) + [EmitOption(last)]
  {
  }

  lemma ParsedOptionsSnoc(h: Host, rs: seq<RawOption>, last: RawOption)
    ensures ParsedOptions(h, rs + [last])
         == ParsedOptions(h, rs) + if ParseOption(h, last).Some? then [ParseOption(h, last).value] else []
  {
  }

  lemma {:induction false} EmittedOptionsRead(h: Host, os: seq<VariantOption>)
    requires h.Sane() && forall x :: x in os ==> NormalOption(x)
    ensures ParsedOptions(h, EmitOptions(os)) == os
  {
    if os != [] {
      hide ParseOption, NormalOption, EmitOption, EmitOptions;
      var front, last := os[..|os| - 1], os[|os| - 1];
      EmittedOptionsRead(h, front);
      EmitOptionReads(h, last);
      EmitOptionsSnoc(front, last);
      ParsedOptionsSnoc(h, EmitOptions(front), EmitOption(last));
      assert os == front + [last];
    }
  }

  lemma EmitItemsSnoc(xs: seq<VariantItem>, last: VariantItem)
    ensures EmitItems(xs + [last]) == EmitItems(xs) + [EmitItem(last)]
  {
  }

  lemma ParsedItemsSnoc(h: Host, rs: seq<RawItem>, last: RawItem)
    ensures ParsedItems(h, rs + [last])
         == ParsedItems(h, rs) + if ParseItem(h, last).Some? then [ParseItem(h, last).value] else []
  {
  }

  lemma {:induction false} EmittedItemsRead(h: Host, xs: seq<VariantItem>)
    requires h.Sane() && forall x :: x in xs ==> NormalItem(x)
    ensures ParsedItems(h, EmitItems(xs)) == xs
  {
    if xs != [] {
      hide ParseItem, NormalItem, EmitItem, EmitItems;
      var front, last := xs[..|xs| - 1], xs[|xs| - 1];
      EmittedItemsRead(h, front);
      EmitItemReads(h, last);
      EmitItemsSnoc(front, last);
      ParsedItemsSnoc(h, EmitItems(front), EmitItem(last));
      assert xs == front + [last];
    }
  }

  /** Reading the stored form returns exactly what was stored. */
  lemma EmitReadRoundTrip(h: Host, v: Variants)
    requires h.Sane() && Normal(v)
    ensures Read(h, Emit(v)) == v
  {
    EmittedOptionsRead(h, v.options);
    EmittedItemsRead(h, v.items);
  }

  /** Normalising a payload twice is normalising it once. */
  lemma NormaliseIdempotent(h: Host, raw: Raw)
    requires h.Sane()
    ensures Emit(Read(h, Emit(Read(h, raw)))) == Emit(Read(h, raw))
  {
    ReadIsNormal(h, raw);
    EmitReadRoundTrip(h, Read(h, raw));
  }

  // ---------- acceptance ----------

  datatype Refusal =
    | PayloadRequired
    | NoOptions
    | RowCount(expected: nat, got: nat)
    | DuplicateId(id: string)
    | NoSuchCombination(title: string)
    | MissingRows

  datatype Accepted = Accepted(json: Raw, minPrice: real, totalStock: int)

  function Ids(items: seq<VariantItem>): seq<string> {
    seq(|items|, i requires 0 <= i < |items| => items[i].id)
  }

  function ItemKeys(items: seq<VariantItem>, names: seq<string>): seq<string> {
    seq(|items|, i requires 0 <= i < |items| => SelectionKey(items[i].selection, names))
  }

  function ComboKeys(options: seq<VariantOption>): seq<string> {
    Keys(Combinations(options), Names(options))
  }

  function StockSum(items: seq<VariantItem>): int {
    if items == [] then 0 else StockSum(items[..|items| - 1]) + items[|items| - 1].stock
  }

  ghost predicate IsMinPrice(items: seq<VariantItem>, p: real) {
    (exists i :: 0 <= i < |items| && items[i].price == p) && forall i :: 0 <= i < |items| ==> p <= items[i].price
  }

  /** The rows are distinct, identified, and each is one of the combinations. */
  ghost predicate Acceptable(v: Variants) {
    && v.options != []
    && |v.items| == ExpectedCount(v.options)
    && NoDup(Ids(v.items))
    && NoDup(ItemKeys(v.items, Names(v.options)))
    && forall k :: k in ItemKeys(v.items, Names(v.options)) ==> k in ComboKeys(v.options)
  }

  lemma ComboCount(options: seq<VariantOption>)
    requires options != []
    ensures |ComboKeys(options)| == ExpectedCount(options)
  {
    RowsLength(options);
  }

  /** The pigeonhole: as many distinct rows as combinations leave no combination out. */
  lemma Pigeonhole(rows: seq<string>, combos: seq<string>)
    requires NoDup(rows) && |rows| == |combos| && forall k :: k in rows ==> k in combos
    ensures Elems(rows) == Elems(combos) && NoDup(combos)
  {
    ElemsAtMost(rows);
    ElemsAtMost(combos);
    SubsetSize(Elems(rows), Elems(combos));
  }

  method ValidateAndNormalize(h: Host, raw: Raw) returns (r: Result<Accepted, Refusal>)
    ensures r.Ok? <==> !raw.Absent? && Acceptable(Read(h, raw))
    ensures r.Ok? ==> r.value.json == Emit(Read(h, raw))
                      && IsMinPrice(ItemsOf(h, raw), r.value.minPrice)
                      && r.value.totalStock == StockSum(ItemsOf(h, raw))
    ensures r != Err(MissingRows)
  {
    hide OptionsOf, ItemsOf, SelectionKey, ExpectedCount, Emit, IsMinPrice, Combinations, NoDup;
    if raw.Absent? {
      return Err(PayloadRequired);
    }
    var options := ParseVariantOptions(h, raw);
    if options == [] {
      return Err(NoOptions);
    }
    var items := ParseVariantItems(h, raw);
    var expected := ExpectedCount(options);
    if |items| != expected {
      return Err(RowCount(expected, |items|));
    }
    var names := Names(options);
    var combos := ComputeCombinations(options);
    ghost var itemKeys, allKeys := ItemKeys(items, names), ComboKeys(options);
    var comboKeys := set k | k in Keys(combos, names);
    var seenIds: set<string> := {};
    var minPrice: Option<real>, totalStock := None, 0;
    ComboCount(options);
    NothingRepeated(Ids(items)[..0]);
    NothingRepeated(itemKeys[..0]);
    for k := 0 to |items|
      invariant seenIds == Elems(Ids(items)[..k]) && NoDup(Ids(items)[..k])
      invariant NoDup(itemKeys[..k]) && forall j :: 0 <= j < k ==> itemKeys[j] in allKeys
      invariant comboKeys == Elems(allKeys) - Elems(itemKeys[..k])
      invariant totalStock == StockSum(items[..k])
      invariant if k == 0 then minPrice == None else minPrice.Some? && IsMinPrice(items[..k], minPrice.value)
    {
      var item := items[k];
      if item.id in seenIds {
        RepeatedAt(Ids(items), k);
        return Err(DuplicateId(item.id));
      }
      var key := SelectionKey(item.selection, names);
      assert itemKeys[k] == key && key in itemKeys;
      if key !in comboKeys {
        if key in allKeys {
          RepeatedAt(itemKeys, k);
        }
        return Err(NoSuchCombination(item.title));
      }
      FreshAt(Ids(items), k);
      FreshAt(itemKeys, k);
      MinStep(items, k, minPrice);
      assert items[..k + 1][..k] == items[..k];
      seenIds := seenIds + {item.id};
      comboKeys := comboKeys - {key};
      minPrice := Some(if minPrice.Some? && minPrice.value <= item.price then minPrice.value else item.price);
      totalStock := totalStock + item.stock;
    }
    assert items[..|items|] == items && itemKeys[..|items|] == itemKeys && Ids(items)[..|items|] == Ids(items);
    Pigeonhole(itemKeys, allKeys);
    if comboKeys != {} {
      assert false;  // "Missing variant rows" is never reported
    }
    SomeRow(h, raw);
    r := Ok(Accepted(Emit(Variants(options, items)), minPrice.value, totalStock));
  }

  lemma SomeRow(h: Host, raw: Raw)
    requires OptionsOf(h, raw) != []
    ensures ExpectedCount(OptionsOf(h, raw)) > 0
  {
    ReadIsNormal(h, raw);
    forall i | 0 <= i < |OptionsOf(h, raw)|
      ensures OptionsOf(h, raw)[i].values != []
    {
      assert OptionsOf(h, raw)[i] in Read(h, raw).options;
    }
    ProductPositive(OptionsOf(h, raw));
  }

  lemma MinStep(items: seq<VariantItem>, k: nat, min: Option<real>)
    requires k < |items|
    requires if k == 0 then min == None else min.Some? && IsMinPrice(items[..k], min.value)
    ensures IsMinPrice(items[..k + 1], if min.Some? && min.value <= items[k].price then min.value else items[k].price)
  {
  }

  /** An accepted matrix pairs its rows with the combinations one to one, key by key. */
  lemma AcceptedIsBijection(v: Variants)
    requires Acceptable(v)
    ensures NoDup(ComboKeys(v.options)) && NoDup(ItemKeys(v.items, Names(v.options)))
    ensures Elems(ItemKeys(v.items, Names(v.options))) == Elems(ComboKeys(v.options))
  {
    ComboCount(v.options);
    Pigeonhole(ItemKeys(v.items, Names(v.options)), ComboKeys(v.options));
  }

  /**
   Without the separator in names and values the pairing is on the selections
   themselves: every combination is chosen by exactly one row.
   */
  lemma EveryCombinationOnce(v: Variants, c: Selection)
    requires Acceptable(v) && BarFree(v.options) && c in Combinations(v.options)
    ensures exists i :: 0 <= i < |v.items| && Agree(c, v.items[i].selection, Names(v.options))
    ensures forall i, j :: 0 <= i < j < |v.items| && Agree(c, v.items[i].selection, Names(v.options))
                           ==> !Agree(c, v.items[j].selection, Names(v.options))
  {
    var names := Names(v.options);
    var keys, combos := ItemKeys(v.items, names), Combinations(v.options);
    AcceptedIsBijection(v);
    var k :| 0 <= k < |combos| && combos[k] == c;
    assert ComboKeys(v.options)[k] in Elems(ComboKeys(v.options));
    var i :| 0 <= i < |keys| && keys[i] == SelectionKey(c, names);
    RowPartsBarFree(v.options, c);
    KeyInjective(c, v.items[i].selection, names);
    forall i, j | 0 <= i < j < |v.items| && Agree(c, v.items[i].selection, names)
      ensures !Agree(c, v.items[j].selection, names)
    {
      SameKey(c, v.items[i].selection, names);
      assert keys[i] != keys[j];
      if Agree(c, v.items[j].selection, names) {
        SameKey(c, v.items[j].selection, names);
      }
    }
  }

  lemma EveryRowIsCombination(v: Variants, i: nat)
    requires Acceptable(v) && BarFree(v.options) && i < |v.items|
    ensures exists c :: c in Combinations(v.options) && Agree(c, v.items[i].selection, Names(v.options))
  {
    var names := Names(v.options);
    assert ItemKeys(v.items, names)[i] in ItemKeys(v.items, names);
    var k :| 0 <= k < |ComboKeys(v.options)| && ComboKeys(v.options)[k] == ItemKeys(v.items, names)[i];
    var c := Combinations(v.options)[k];
    RowPartsBarFree(v.options, c);
    KeyInjective(c, v.items[i].selection, names);
  }

  /**
   Which option lists a seller can submit at all: some set of rows is accepted exactly
   when the combination keys differ; and without the separator in names and values,
   exactly when the options are unambiguous.
   */
  lemma AcceptableOptions(options: seq<VariantOption>)
    requires options != [] && HasValues(options)
    ensures (exists items :: Acceptable(Variants(options, items))) <==> NoDup(ComboKeys(options))
    ensures BarFree(options) ==> ((exists items :: Acceptable(Variants(options, items))) <==> Unambiguous(options))
  {
    if BarFree(options) {
      KeysDistinct(options);
    }
    var combos, names := Combinations(options), Names(options);
    if exists items :: Acceptable(Variants(options, items)) {
      var items :| Acceptable(Variants(options, items));
      AcceptedIsBijection(Variants(options, items));
    }
    if NoDup(ComboKeys(options)) {
      var items := seq(|combos|, i requires 0 <= i < |combos| =>
                       VariantItem(Marks(i + 1), "row", combos[i], 0.0, 0, None, None, None));
      var v := Variants(options, items);
      assert ItemKeys(items, names) == ComboKeys(options);
      MarksLength();
      forall i, j | 0 <= i < j < |items|
        ensures Ids(items)[i] != Ids(items)[j]
      {
        assert |Ids(items)[i]| == i + 1 && |Ids(items)[j]| == j + 1;
      }
      ComboCount(options);
      assert Acceptable(v);
    }
  }

  function Marks(n: nat): string {
    seq(n, _ => '#')
  }

  lemma MarksLength()
    ensures forall n: nat :: |Marks(n)| == n
  {
  }

  /** A repeated option name is not always refused: here the first occurrence has a single value. */
  lemma RepeatedNameAccepted()
    ensures exists v: Variants :: Acceptable(v) && |v.options| == 2 && v.options[0].name == v.options[1].name
  {
    var options := [VariantOption("A", ["x"]), VariantOption("A", ["y"])];
    assert Unambiguous(options);
    forall i | 0 <= i < |options|
      ensures '|' !in options[i].name && forall w :: w in options[i].values ==> '|' !in w
    {
    }
    AcceptableOptions(options);
    var items :| Acceptable(Variants(options, items));
  }

  // ---------- stock ----------

  datatype StockError = InvalidVariant | InsufficientVariantStock

  function IndexOf(items: seq<VariantItem>, id: string): (k: nat)
    ensures k <= |items|
    ensures k < |items| ==> items[k].id == id
    ensures forall j :: 0 <= j < k ==> items[j].id != id
  {
    if items == [] then 0
    else if items[0].id == id then 0
    else 1 + IndexOf(items[1..], id)
  }

  function Find(v: Variants, id: string): Option<VariantItem> {
    var k := IndexOf(v.items, id);
    if k < |v.items| then Some(v.items[k]) else None
  }

  function ApplyStockDelta(v: Variants, id: string, delta: int): Result<Variants, StockError> {
    var k := IndexOf(v.items, id);
    if k == |v.items| then Err(InvalidVariant)
    else
      var it := v.items[k];
      if it.stock + delta < 0 then Err(InsufficientVariantStock)
      else Ok(v.(items := v.items[k := it.(stock := it.stock + delta)]))
  }

  function StockOf(v: Variants, id: string): int {
    var k := IndexOf(v.items, id);
    if k < |v.items| then v.items[k].stock else 0
  }

  lemma {:induction false} StockSumUpdate(items: seq<VariantItem>, k: nat, it: VariantItem)
    requires k < |items|
    ensures StockSum(items[k := it]) == StockSum(items) - items[k].stock + it.stock
  {
    var n := |items| - 1;
    if k == n {
      assert items[k := it][..n] == items[..n];
    } else {
      StockSumUpdate(items[..n], k, it);
      assert items[k := it][..n] == items[..n][k := it];
    }
  }

  lemma {:induction false} IndexOfUpdate(items: seq<VariantItem>, k: nat, it: VariantItem, id: string)
    requires k < |items| && it.id == items[k].id
    ensures IndexOf(items[k := it], id) == IndexOf(items, id)
  {
    if items[0].id != id && k > 0 {
      IndexOfUpdate(items[1..], k - 1, it, id);
      assert items[k := it][1..] == items[1..][k - 1 := it];
    } else if items[0].id != id {
      assert items[k := it][1..] == items[1..];
    }
  }

  /** Success moves one variant's stock and the total by `delta`, and nothing else. */
  lemma DeltaMovesOne(v: Variants, id: string, delta: int)
    requires ApplyStockDelta(v, id, delta).Ok?
    ensures var w := ApplyStockDelta(v, id, delta).value;
            && StockOf(w, id) == StockOf(v, id) + delta >= 0
            && (forall other :: other != id ==> StockOf(w, other) == StockOf(v, other))
            && StockSum(w.items) == StockSum(v.items) + delta
            && w.options == v.options && Ids(w.items) == Ids(v.items)
  {
    var k := IndexOf(v.items, id);
    var it := v.items[k].(stock := v.items[k].stock + delta);
    StockSumUpdate(v.items, k, it);
    forall other
      ensures IndexOf(v.items[k := it], other) == IndexOf(v.items, other)
    {
      IndexOfUpdate(v.items, k, it, other);
    }
  }

  /** Taking stock and giving it back restores the matrix exactly. */
  lemma DeltaUndone(v: Variants, id: string, delta: int)
    requires ApplyStockDelta(v, id, delta).Ok? && StockOf(v, id) >= 0
    ensures ApplyStockDelta(ApplyStockDelta(v, id, delta).value, id, -delta) == Ok(v)
  {
    var k := IndexOf(v.items, id);
    var it := v.items[k].(stock := v.items[k].stock + delta);
    IndexOfUpdate(v.items, k, it, id);
    assert v.items[k := it][k := v.items[k]] == v.items;
  }

  /** Stock moves keep the matrix normal, so the stored form stays readable. */
  lemma DeltaKeepsNormal(v: Variants, id: string, delta: int)
    requires Normal(v) && ApplyStockDelta(v, id, delta).Ok?
    ensures Normal(ApplyStockDelta(v, id, delta).value)
  {
    var k := IndexOf(v.items, id);
    var w := ApplyStockDelta(v, id, delta).value;
    assert v.items[k] in v.items;
    forall i | i in w.items
      ensures NormalItem(i)
    {
      var j :| 0 <= j < |w.items| && w.items[j] == i;
      assert v.items[j] in v.items;
    }
  }
}
