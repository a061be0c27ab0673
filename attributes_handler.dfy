/** The variant-attribute resolver behind a product page's size and colour
    pickers: from a chosen (fieldCode, fieldValue) pair to a variant slug, from
    the current route to the variant's attribute values, and from a pair to a
    stock snapshot. The link and stock scans visit every attribute of every
    variant; the route scan visits the attributes of every variant whose slug
    is the route's path. Each overwrites its result on every hit, so the LAST
    match in list order wins. */
module AttributesHandler {
  import opened Common

  /** One (fieldCode, fieldValue) pair identifying a variant, e.g. ("global.colour", "red"). */
  datatype VariantAttribute = VariantAttribute(fieldCode: string, fieldValue: string)

  /** A selectable attribute of the product family: its code, label and values. */
  datatype AttributeOption = AttributeOption(fieldCode: string, fieldName: string, fieldValues: seq<string>)

  /** A concrete purchasable variant of the product. */
  datatype VariantProduct = VariantProduct(
    slug: string,
    productId: string,
    stockCode: string,
    currentStock: int,
    isPreOrderEnabled: bool,
    sellWithoutInventory: bool,
    variantAttributes: seq<VariantAttribute>)

  /** The stock and pre-order record returned for one attribute choice. */
  datatype StockSnapshot = StockSnapshot(
    stock: int,
    productId: string,
    isPreOrderEnabled: bool,
    sellWithoutInventory: bool,
    stockCode: string)

  /** The widget an attribute picker is rendered with. */
  datatype Widget = Dropdown | HorizontalList | NoWidget

  /** One rendered picker: its widget, label, values and the value of the current variant. */
  datatype PickerRow = PickerRow(
    widget: Widget,
    fieldCode: string,
    title: string,
    items: seq<string>,
    currentAttribute: Option<string>)

  /** The record returned when no variant matches. */
  const NoStock := StockSnapshot(0, "", false, false, "")

  /** The fieldCode-to-widget table; codes absent from it render nothing. */
  const WidgetTable: map<string, Widget> := map["clothing.size" := Dropdown, "global.colour" := HorizontalList]

  // ---------------------------------------------------------------------------
  // generateLink / handleChange

  predicate HasPair(v: VariantProduct, fieldCode: string, value: string)
  {
    VariantAttribute(fieldCode, value) in v.variantAttributes
  }

  /** The slug generateLink settles on: that of the last variant carrying the pair, or "". */
  function LinkFor(variants: seq<VariantProduct>, fieldCode: string, value: string): string
  {
    if variants == [] then ""
    else if HasPair(variants[|variants| - 1], fieldCode, value) then variants[|variants| - 1].slug
    else LinkFor(variants[..|variants| - 1], fieldCode, value)
  }

  /** No variant carries the pair: the link is empty. */
  lemma {:induction false} LinkForNoMatch(variants: seq<VariantProduct>, fieldCode: string, value: string)
    requires forall i :: 0 <= i < |variants| ==> !HasPair(variants[i], fieldCode, value)
    ensures LinkFor(variants, fieldCode, value) == ""
  {
    if variants != [] {
      LinkForNoMatch(variants[..|variants| - 1], fieldCode, value);
    }
  }

  /** The link is the slug of the last variant in list order that carries the pair. */
  lemma {:induction false} LinkForLastMatch(variants: seq<VariantProduct>, fieldCode: string, value: string, j: nat)
    requires j < |variants| && HasPair(variants[j], fieldCode, value)
    requires forall k :: j < k < |variants| ==> !HasPair(variants[k], fieldCode, value)
    ensures LinkFor(variants, fieldCode, value) == variants[j].slug
  {
    if j < |variants| - 1 {
      LinkForLastMatch(variants[..|variants| - 1], fieldCode, value, j);
    }
  }

  /** A non-empty link is the slug of some variant carrying exactly that pair. */
  lemma {:induction false} LinkForSound(variants: seq<VariantProduct>, fieldCode: string, value: string)
    requires LinkFor(variants, fieldCode, value) != ""
    ensures exists i :: 0 <= i < |variants| && HasPair(variants[i], fieldCode, value)
                        && variants[i].slug == LinkFor(variants, fieldCode, value)
  {
    var n := |variants| - 1;
    if !HasPair(variants[n], fieldCode, value) {
      LinkForSound(variants[..n], fieldCode, value);
      var i :| 0 <= i < n && HasPair(variants[..n][i], fieldCode, value)
               && variants[..n][i].slug == LinkFor(variants[..n], fieldCode, value);
      assert variants[i] == variants[..n][i];
    }
  }

  /** generateLink: scans every attribute of every variant, overwriting `slug` on each hit. */
  method GenerateLink(variants: seq<VariantProduct>, fieldCode: string, value: string) returns (slug: string)
    ensures slug == LinkFor(variants, fieldCode, value)
  {
    slug := "";
    var i := 0;
    while i < |variants|
      invariant 0 <= i <= |variants|
      invariant slug == LinkFor(variants[..i], fieldCode, value)
    {
      var item := variants[i];
      ghost var before := slug;
      var j := 0;
      while j < |item.variantAttributes|
        invariant 0 <= j <= |item.variantAttributes|
        invariant slug == if VariantAttribute(fieldCode, value) in item.variantAttributes[..j] then item.slug else before
      {
        var option := item.variantAttributes[j];
        if option.fieldCode == fieldCode && option.fieldValue == value {
          slug := item.slug;
        }
        assert item.variantAttributes[..j + 1] == item.variantAttributes[..j] + [option];
        j := j + 1;
      }
      assert item.variantAttributes[..j] == item.variantAttributes;
      assert variants[..i + 1][..i] == variants[..i];
      i := i + 1;
    }
    assert variants[..i] == variants;
  }

  /** handleChange: the path navigated to, or None when the resolved slug is empty. */
  method HandleChange(variants: seq<VariantProduct>, fieldCode: string, value: string) returns (target: Option<string>)
    ensures target.Some? <==> LinkFor(variants, fieldCode, value) != ""
    ensures target.Some? ==> target.value == "/" + LinkFor(variants, fieldCode, value)
  {
    var slug := GenerateLink(variants, fieldCode, value);
    if slug != "" {
      target := Some("/" + slug);
    } else {
      target := None;
    }
  }

  // ---------------------------------------------------------------------------
  // getAttributesFromSlug

  predicate HasCode(attrs: seq<VariantAttribute>, code: string)
  {
    exists a :: a in attrs && a.fieldCode == code
  }

  /** `acc[fieldCode] = fieldValue` for each attribute in order. */
  function Assign(acc: map<string, string>, attrs: seq<VariantAttribute>): map<string, string>
  {
    if attrs == [] then acc
    else Assign(acc, attrs[..|attrs| - 1])[attrs[|attrs| - 1].fieldCode := attrs[|attrs| - 1].fieldValue]
  }

  /** The map getAttributesFromSlug builds for the variant path `path`. */
  function AttributesFor(variants: seq<VariantProduct>, path: string): map<string, string>
  {
    if variants == [] then map[]
    else
      var acc := AttributesFor(variants[..|variants| - 1], path);
      var last := variants[|variants| - 1];
      if last.slug == path then Assign(acc, last.variantAttributes) else acc
  }

  lemma {:induction false} AssignUntouched(acc: map<string, string>, attrs: seq<VariantAttribute>, code: string)
    requires !HasCode(attrs, code)
    ensures code in Assign(acc, attrs) <==> code in acc
    ensures code in acc ==> Assign(acc, attrs)[code] == acc[code]
  {
    if attrs != [] {
      var n := |attrs| - 1;
      assert attrs[n] in attrs;
      assert !HasCode(attrs[..n], code) by {
        forall a | a in attrs[..n] ensures a.fieldCode != code {
          assert a in attrs;
        }
      }
      AssignUntouched(acc, attrs[..n], code);
    }
  }

  lemma {:induction false} AssignLast(acc: map<string, string>, attrs: seq<VariantAttribute>, j: nat)
    requires j < |attrs|
    requires forall k :: j < k < |attrs| ==> attrs[k].fieldCode != attrs[j].fieldCode
    ensures attrs[j].fieldCode in Assign(acc, attrs)
    ensures Assign(acc, attrs)[attrs[j].fieldCode] == attrs[j].fieldValue
  {
    var n := |attrs| - 1;
    if j < n {
      AssignLast(acc, attrs[..n], j);
    }
  }

  /** Every key of the map comes from an attribute of a variant whose slug is `path`,
      and maps to that attribute's value. */
  lemma {:induction false} AttributesForSound(variants: seq<VariantProduct>, path: string, code: string)
    requires code in AttributesFor(variants, path)
    ensures exists i :: 0 <= i < |variants| && variants[i].slug == path
                        && VariantAttribute(code, AttributesFor(variants, path)[code]) in variants[i].variantAttributes
  {
    var n := |variants| - 1;
    var prev := AttributesFor(variants[..n], path);
    var last := variants[n];
    if last.slug == path && HasCode(last.variantAttributes, code) {
      var attrs := last.variantAttributes;
      var j := LastCodeIndex(attrs, code);
      AssignLast(prev, attrs, j);
      assert attrs[j] in attrs;
    } else {
      if last.slug == path {
        AssignUntouched(prev, last.variantAttributes, code);
      }
      AttributesForSound(variants[..n], path, code);
      var i :| 0 <= i < n && variants[..n][i].slug == path
               && VariantAttribute(code, prev[code]) in variants[..n][i].variantAttributes;
      assert variants[i] == variants[..n][i];
    }
  }

  /** The index of the last attribute with `code`. */
  lemma LastCodeIndex(attrs: seq<VariantAttribute>, code: string) returns (j: nat)
    requires HasCode(attrs, code)
    ensures j < |attrs| && attrs[j].fieldCode == code
    ensures forall k :: j < k < |attrs| ==> attrs[k].fieldCode != code
  {
    var a :| a in attrs && a.fieldCode == code;
    var i :| 0 <= i < |attrs| && attrs[i] == a;
    j := i;
    while j + 1 < |attrs| && exists k :: j < k < |attrs| && attrs[k].fieldCode == code
      invariant j < |attrs| && attrs[j].fieldCode == code
      decreases |attrs| - j
    {
      var k :| j < k < |attrs| && attrs[k].fieldCode == code;
      j := k;
    }
  }

  /** No variant has slug `path`: the map is empty. */
  lemma {:induction false} AttributesForNoMatch(variants: seq<VariantProduct>, path: string)
    requires forall i :: 0 <= i < |variants| ==> variants[i].slug != path
    ensures AttributesFor(variants, path) == map[]
  {
    if variants != [] {
      AttributesForNoMatch(variants[..|variants| - 1], path);
    }
  }

  /** A key maps to the value of the last (variant, attribute) pair visited that
      carries it among the variants whose slug is `path`. */
  lemma {:induction false} AttributesForLastMatch(variants: seq<VariantProduct>, path: string, i: nat, j: nat)
    requires i < |variants| && variants[i].slug == path
    requires j < |variants[i].variantAttributes|
    requires forall k :: j < k < |variants[i].variantAttributes| ==>
               variants[i].variantAttributes[k].fieldCode != variants[i].variantAttributes[j].fieldCode
    requires forall k :: i < k < |variants| && variants[k].slug == path ==>
               !HasCode(variants[k].variantAttributes, variants[i].variantAttributes[j].fieldCode)
    ensures variants[i].variantAttributes[j].fieldCode in AttributesFor(variants, path)
    ensures AttributesFor(variants, path)[variants[i].variantAttributes[j].fieldCode]
            == variants[i].variantAttributes[j].fieldValue
  {
    var n := |variants| - 1;
    var prev := AttributesFor(variants[..n], path);
    if i == n {
      AssignLast(prev, variants[i].variantAttributes, j);
    } else {
      AttributesForLastMatch(variants[..n], path, i, j);
      if variants[n].slug == path {
        AssignUntouched(prev, variants[n].variantAttributes, variants[i].variantAttributes[j].fieldCode);
      }
    }
  }

  /** getAttributesFromSlug: folds the attributes of every variant whose slug is
      `products/<routeSlug>` into one map, later assignments overwriting earlier ones. */
  method GetAttributesFromSlug(variants: seq<VariantProduct>, routeSlug: string) returns (acc: map<string, string>)
    ensures acc == AttributesFor(variants, "products/" + routeSlug)
  {
    var path := "products/" + routeSlug;
    acc := map[];
    var i := 0;
    while i < |variants|
      invariant 0 <= i <= |variants|
      invariant acc == AttributesFor(variants[..i], path)
    {
      var obj := variants[i];
      if obj.slug == path {
        ghost var before := acc;
        var j := 0;
        while j < |obj.variantAttributes|
          invariant 0 <= j <= |obj.variantAttributes|
          invariant acc == Assign(before, obj.variantAttributes[..j])
        {
          var varAttr := obj.variantAttributes[j];
          acc := acc[varAttr.fieldCode := varAttr.fieldValue];
          assert obj.variantAttributes[..j + 1][..j] == obj.variantAttributes[..j];
          j := j + 1;
        }
        assert obj.variantAttributes[..j] == obj.variantAttributes;
      }
      assert variants[..i + 1][..i] == variants[..i];
      i := i + 1;
    }
    assert variants[..i] == variants;
  }

  // ---------------------------------------------------------------------------
  // getStockPerAttribute

  /** fieldCode compared case-insensitively, fieldValue exactly. */
  predicate StockAttrMatch(a: VariantAttribute, key: string, value: string)
  {
    Lower(key) == Lower(a.fieldCode) && a.fieldValue == value
  }

  predicate AnyStockAttr(attrs: seq<VariantAttribute>, key: string, value: string)
  {
    exists a :: a in attrs && StockAttrMatch(a, key, value)
  }

  lemma AnyStockAttrSnoc(attrs: seq<VariantAttribute>, a: VariantAttribute, key: string, value: string)
    ensures AnyStockAttr(attrs + [a], key, value) <==> AnyStockAttr(attrs, key, value) || StockAttrMatch(a, key, value)
  {
  }

  predicate StockMatch(v: VariantProduct, key: string, value: string)
  {
    AnyStockAttr(v.variantAttributes, key, value)
  }

  function SnapshotOf(v: VariantProduct): StockSnapshot
  {
    StockSnapshot(v.currentStock, v.productId, v.isPreOrderEnabled, v.sellWithoutInventory, v.stockCode)
  }

  /** The record getStockPerAttribute returns: that of the last matching variant, or NoStock. */
  function StockFor(variants: seq<VariantProduct>, key: string, value: string): StockSnapshot
  {
    if variants == [] then NoStock
    else if StockMatch(variants[|variants| - 1], key, value) then SnapshotOf(variants[|variants| - 1])
    else StockFor(variants[..|variants| - 1], key, value)
  }

  /** Nothing matches: the zero record. */
  lemma {:induction false} StockForNoMatch(variants: seq<VariantProduct>, key: string, value: string)
    requires forall i :: 0 <= i < |variants| ==> !StockMatch(variants[i], key, value)
    ensures StockFor(variants, key, value) == NoStock
  {
    if variants != [] {
      StockForNoMatch(variants[..|variants| - 1], key, value);
    }
  }

  /** All five fields come from the last matching variant in list order. */
  lemma {:induction false} StockForLastMatch(variants: seq<VariantProduct>, key: string, value: string, j: nat)
    requires j < |variants| && StockMatch(variants[j], key, value)
    requires forall k :: j < k < |variants| ==> !StockMatch(variants[k], key, value)
    ensures StockFor(variants, key, value) == SnapshotOf(variants[j])
  {
    if j < |variants| - 1 {
      StockForLastMatch(variants[..|variants| - 1], key, value, j);
    }
  }

  /** Keys that differ only in the case of ASCII letters give the same record. */
  lemma {:induction false} StockForCaseInsensitive(variants: seq<VariantProduct>, key1: string, key2: string, value: string)
    requires Lower(key1) == Lower(key2)
    ensures StockFor(variants, key1, value) == StockFor(variants, key2, value)
  {
    if variants != [] {
      var last := variants[|variants| - 1];
      assert StockMatch(last, key1, value) == StockMatch(last, key2, value);
      StockForCaseInsensitive(variants[..|variants| - 1], key1, key2, value);
    }
  }

  /** getStockPerAttribute: overwrites all five fields of the record on every matching attribute. */
  method GetStockPerAttribute(variants: seq<VariantProduct>, key: string, variant: string) returns (productData: StockSnapshot)
    ensures productData == StockFor(variants, key, variant)
  {
    productData := NoStock;
    var lowerKey := Lower(key);
    var i := 0;
    while i < |variants|
      invariant 0 <= i <= |variants|
      invariant productData == StockFor(variants[..i], key, variant)
    {
      var variantProduct := variants[i];
      ghost var before := productData;
      var j := 0;
      while j < |variantProduct.variantAttributes|
        invariant 0 <= j <= |variantProduct.variantAttributes|
        invariant productData == if AnyStockAttr(variantProduct.variantAttributes[..j], key, variant)
                                 then SnapshotOf(variantProduct) else before
      {
        var attr := variantProduct.variantAttributes[j];
        if lowerKey == Lower(attr.fieldCode) && attr.fieldValue == variant {
          productData := productData.(stock := variantProduct.currentStock);
          productData := productData.(isPreOrderEnabled := variantProduct.isPreOrderEnabled);
          productData := productData.(sellWithoutInventory := variantProduct.sellWithoutInventory);
          productData := productData.(productId := variantProduct.productId);
          productData := productData.(stockCode := variantProduct.stockCode);
        }
        assert variantProduct.variantAttributes[..j + 1] == variantProduct.variantAttributes[..j] + [attr];
        AnyStockAttrSnoc(variantProduct.variantAttributes[..j], attr, key, variant);
        j := j + 1;
      }
      assert variantProduct.variantAttributes[..j] == variantProduct.variantAttributes;
      assert variants[..i + 1][..i] == variants[..i];
      i := i + 1;
    }
    assert variants[..i] == variants;
  }

  // ---------------------------------------------------------------------------
  // Widget selection

  /** TEMP_MAP lookup with the null component as fallback. */
  function WidgetFor(fieldCode: string): (w: Widget)
    ensures w == Dropdown <==> fieldCode == "clothing.size"
    ensures w == HorizontalList <==> fieldCode == "global.colour"
    ensures w == NoWidget <==> fieldCode != "clothing.size" && fieldCode != "global.colour"
  {
    if fieldCode in WidgetTable then WidgetTable[fieldCode] else NoWidget
  }

  /** One picker per entry of variantProductsAttribute, in order, each showing the
      current variant's value for its fieldCode when there is one. */
  function PickerRows(options: seq<AttributeOption>, current: map<string, string>): (rows: seq<PickerRow>)
    ensures |rows| == |options|
    ensures forall i :: 0 <= i < |options| ==>
              && rows[i].widget == WidgetFor(options[i].fieldCode)
              && rows[i].fieldCode == options[i].fieldCode
              && rows[i].title == options[i].fieldName
              && rows[i].items == options[i].fieldValues
              && (rows[i].currentAttribute.Some? <==> options[i].fieldCode in current)
              && (options[i].fieldCode in current ==> rows[i].currentAttribute.value == current[options[i].fieldCode])
  {
    if options == [] then []
    else
      var o := options[0];
      [PickerRow(WidgetFor(o.fieldCode), o.fieldCode, o.fieldName, o.fieldValues,
                 if o.fieldCode in current then Some(current[o.fieldCode]) else None)]
      + PickerRows(options[1..], current)
  }
}
