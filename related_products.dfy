/** The "Customers also bought" block: each related item is given, in place,
    the related-product list entry that shares its stockCode, and is then
    rendered as a titled group of cards. */
module RelatedProducts {
  import opened Common

  /** An entry of relatedProductList. */
  datatype Entry = Entry(id: string, stockCode: string, slug: string, name: string, image: string)

  /** One rendered card and whether it offers engraving. */
  datatype Card = Card(entry: Entry, engraving: bool)

  /** One rendered related item: an optional heading and its cards. */
  datatype Group = Group(heading: Option<string>, cards: seq<Card>)

  /** The only stock code engraving is offered for. */
  const EngravingStockCode := "BS21554-DENIM-SM"

  /** A related item; the pass below assigns its `relatedProducts` property. */
  class RelatedItem {
    const name: string
    const stockCode: string
    var relatedProducts: Option<seq<Entry>>

    constructor (name: string, stockCode: string, relatedProducts: Option<seq<Entry>>)
      ensures this.name == name && this.stockCode == stockCode && this.relatedProducts == relatedProducts
    {
      this.name := name;
      this.stockCode := stockCode;
      this.relatedProducts := relatedProducts;
    }
  }

  /** The last entry of `list` whose stockCode is `code`. */
  function LastWithCode(list: seq<Entry>, code: string): Option<Entry>
  {
    if list == [] then None
    else if list[|list| - 1].stockCode == code then Some(list[|list| - 1])
    else LastWithCode(list[..|list| - 1], code)
  }

  /** What an item's `relatedProducts` holds after the pass: the singleton of the
      last entry sharing its stockCode, or its prior value when none does. */
  function Attached(prior: Option<seq<Entry>>, code: string, list: seq<Entry>): Option<seq<Entry>>
  {
    match LastWithCode(list, code)
    case Some(obj) => Some([obj])
    case None => prior
  }

  /** No entry shares the code: nothing is found, so the item keeps its prior value. */
  lemma {:induction false} LastWithCodeNone(list: seq<Entry>, code: string)
    requires forall k :: 0 <= k < |list| ==> list[k].stockCode != code
    ensures LastWithCode(list, code) == None
    ensures forall prior :: Attached(prior, code, list) == prior
  {
    if list != [] {
      LastWithCodeNone(list[..|list| - 1], code);
    }
  }

  /** A match is the last entry in list order carrying the code, and the item
      then holds exactly that entry. */
  lemma {:induction false} LastWithCodeLast(list: seq<Entry>, code: string, j: nat)
    requires j < |list| && list[j].stockCode == code
    requires forall k :: j < k < |list| ==> list[k].stockCode != code
    ensures LastWithCode(list, code) == Some(list[j])
    ensures forall prior :: Attached(prior, code, list) == Some([list[j]])
  {
    if j < |list| - 1 {
      LastWithCodeLast(list[..|list| - 1], code, j);
    }
  }

  /** computeRelatedItems: for every list entry in order, every item with the same
      stockCode has its relatedProducts replaced by `[obj]`. The returned array is a
      shallow copy, so it holds the same items in the same order. */
  method ComputeRelatedItems(relatedProducts: seq<RelatedItem>, relatedProductList: seq<Entry>)
    returns (computed: seq<RelatedItem>)
    modifies relatedProducts
    ensures computed == relatedProducts
    ensures forall item :: item in relatedProducts ==>
              item.relatedProducts == Attached(old(item.relatedProducts), item.stockCode, relatedProductList)
  {
    computed := relatedProducts;
    var k := 0;
    while k < |relatedProductList|
      invariant 0 <= k <= |relatedProductList|
      invariant forall item :: item in computed ==>
                  item.relatedProducts == Attached(old(item.relatedProducts), item.stockCode, relatedProductList[..k])
    {
      var obj := relatedProductList[k];
      assert relatedProductList[..k + 1][..k] == relatedProductList[..k];
      var j := 0;
      while j < |computed|
        invariant 0 <= j <= |computed|
        invariant forall item :: item in computed ==>
                    item.relatedProducts == if item in computed[..j]
                      then Attached(old(item.relatedProducts), item.stockCode, relatedProductList[..k + 1])
                      else Attached(old(item.relatedProducts), item.stockCode, relatedProductList[..k])
      {
        var item := computed[j];
        if item.stockCode == obj.stockCode {
          item.relatedProducts := Some([obj]);
        }
        assert computed[..j + 1] == computed[..j] + [item];
        j := j + 1;
      }
      assert computed[..j] == computed;
      k := k + 1;
    }
    assert relatedProductList[..k] == relatedProductList;
  }

  /** The engraving button is offered only for the one engravable stock code. */
  predicate IsEngravingAvailable(e: Entry)
  {
    e.stockCode == EngravingStockCode
  }

  /** Rendering of one computed item: a heading exactly when it has relatedProducts
      (an empty list counts), and one card per entry in order. */
  function GroupView(name: string, relatedProducts: Option<seq<Entry>>): (g: Group)
    ensures g.heading.Some? <==> relatedProducts.Some?
    ensures g.heading.Some? ==> g.heading.value == name
    ensures relatedProducts.None? ==> g.cards == []
    ensures relatedProducts.Some? ==> |g.cards| == |relatedProducts.value|
    ensures relatedProducts.Some? ==> forall i :: 0 <= i < |g.cards| ==>
              g.cards[i].entry == relatedProducts.value[i]
              && (g.cards[i].engraving <==> relatedProducts.value[i].stockCode == EngravingStockCode)
  {
    match relatedProducts
    case None => Group(None, [])
    case Some(entries) =>
      Group(Some(name), seq(|entries|, i requires 0 <= i < |entries| => Card(entries[i], IsEngravingAvailable(entries[i]))))
  }

  /** After the pass, an item that shares a stockCode with some list entry always
      shows a heading with exactly one card. */
  lemma {:induction false} MatchedItemShowsOneCard(name: string, prior: Option<seq<Entry>>, code: string, list: seq<Entry>, j: nat)
    requires j < |list| && list[j].stockCode == code
    ensures Attached(prior, code, list).Some?
    ensures GroupView(name, Attached(prior, code, list)).heading == Some(name)
    ensures |GroupView(name, Attached(prior, code, list)).cards| == 1
  {
    if list[|list| - 1].stockCode != code {
      MatchedItemShowsOneCard(name, prior, code, list[..|list| - 1], j);
    }
  }
}
