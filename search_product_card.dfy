/** A product tile in search and category listings: which image and link it
    shows as the shopper hovers swatches and the picture, whether it offers a
    colour picker, and which call-to-action its button carries. */
module SearchProductCard {
  import opened Common
  import opened AttributesHandler

  const ColorKey := "global.colour"

  /** A variant as the listing API returns it: its slug, image and attribute pairs. */
  datatype CardVariant = CardVariant(slug: string, image: string, variantAttributes: seq<VariantAttribute>)

  datatype PreOrder = PreOrder(isEnabled: bool, shortMessage: string)

  /** The fields of a listed product that the card reads. `images` holds the
      `image` field of each picture; an empty string is a falsy image.
      `currentStock` of 0 is falsy. */
  datatype Product = Product(
    slug: string,
    image: string,
    images: seq<string>,
    variantProductsMinimal: seq<CardVariant>,
    variantProductsAttributeMinimal: Option<seq<AttributeOption>>,
    currentStock: int,
    preOrder: PreOrder)

  /** The three call-to-action titles (text constants of the storefront). */
  datatype ButtonTitle = AddToBasket | NotifyMe | PreOrderNow

  /** What pressing the button does. */
  datatype ButtonAction = AddToCart | NotifyUser

  datatype ButtonConfig = ButtonConfig(
    title: ButtonTitle,
    action: ButtonAction,
    shortMessage: string,
    isNotifyMeEnabled: bool,
    isPreOrderEnabled: bool,
    buttonType: Option<string>)

  // ---------------------------------------------------------------------------
  // hasColorVariation

  /** Index of the first option whose fieldCode is `code`, or |options| when there is none. */
  function FirstOptionWithCode(options: seq<AttributeOption>, code: string): (i: nat)
    ensures i <= |options|
    ensures i < |options| ==> options[i].fieldCode == code
    ensures forall k :: 0 <= k < i ==> options[k].fieldCode != code
  {
    if options == [] then 0
    else if options[0].fieldCode == code then 0
    else 1 + FirstOptionWithCode(options[1..], code)
  }

  /** The colour option found first has at least one value. */
  predicate HasColorVariation(p: Product)
  {
    match p.variantProductsAttributeMinimal
    case None => false
    case Some(options) =>
      var i := FirstOptionWithCode(options, ColorKey);
      i < |options| && |options[i].fieldValues| >= 1
  }

  /** hasColorVariation is decided by the first colour option alone. */
  lemma HasColorVariationFirst(p: Product, i: nat)
    requires p.variantProductsAttributeMinimal.Some?
    requires i < |p.variantProductsAttributeMinimal.value|
    requires p.variantProductsAttributeMinimal.value[i].fieldCode == ColorKey
    requires forall k :: 0 <= k < i ==> p.variantProductsAttributeMinimal.value[k].fieldCode != ColorKey
    ensures HasColorVariation(p) <==> |p.variantProductsAttributeMinimal.value[i].fieldValues| >= 1
  {
  }

  /** Without a colour option, or without the option list, there is no colour variation. */
  lemma NoColorOptionNoVariation(p: Product)
    requires p.variantProductsAttributeMinimal.Some? ==>
               forall k :: 0 <= k < |p.variantProductsAttributeMinimal.value| ==>
                 p.variantProductsAttributeMinimal.value[k].fieldCode != ColorKey
    ensures !HasColorVariation(p)
  {
  }

  // ---------------------------------------------------------------------------
  // handleVariableProduct, handleHover, the slug effect

  predicate HasValue(v: CardVariant, value: string)
  {
    exists a :: a in v.variantAttributes && a.fieldValue == value
  }

  /** Index of the first variant with an attribute whose fieldValue is `value`
      (any fieldCode), or |variants| when there is none. */
  function FirstVariantWithValue(variants: seq<CardVariant>, value: string): (i: nat)
    ensures i <= |variants|
    ensures i < |variants| ==> HasValue(variants[i], value)
    ensures forall k :: 0 <= k < i ==> !HasValue(variants[k], value)
  {
    if variants == [] then 0
    else if HasValue(variants[0], value) then 0
    else 1 + FirstVariantWithValue(variants[1..], value)
  }

  /** `product.images[1]?.image`, with "" for a missing second picture. */
  function SecondImage(p: Product): string
  {
    if |p.images| > 1 then p.images[1] else ""
  }

  /** The card's `{image, link}` state. */
  class CardState {
    var image: string
    var link: string

    /** The state starts at the product's own image and slug. */
    constructor (p: Product)
      ensures image == p.image && link == p.slug
    {
      image := p.image;
      link := p.slug;
    }

    /** handleVariableProduct: on "enter" show the first variant carrying the swatch's
        value, if any; on any other event return to the product's own image and slug.
        A call without an event type is the "enter" case, its default. */
    method HandleVariableProduct(p: Product, attrValue: string, kind: string)
      modifies this
      ensures kind == "enter" ==>
        var i := FirstVariantWithValue(p.variantProductsMinimal, attrValue);
        if i < |p.variantProductsMinimal|
        then image == p.variantProductsMinimal[i].image && link == p.variantProductsMinimal[i].slug
        else image == old(image) && link == old(link)
      ensures kind != "enter" ==> image == p.image && link == p.slug
    {
      if kind == "enter" {
        var i := FirstVariantWithValue(p.variantProductsMinimal, attrValue);
        if i < |p.variantProductsMinimal| {
          var variated := p.variantProductsMinimal[i];
          image, link := variated.image, variated.slug;
        }
      } else {
        image, link := p.image, p.slug;
      }
    }

    /** handleHover: swaps the picture to the second image on "enter" and back on
        "leave"; the link never changes, and nothing happens without a second image. */
    method HandleHover(p: Product, kind: string)
      modifies this`image
      ensures link == old(link)
      ensures SecondImage(p) == "" ==> image == old(image)
      ensures SecondImage(p) != "" && kind == "enter" ==> image == SecondImage(p)
      ensures SecondImage(p) != "" && kind == "leave" ==> image == p.image
      ensures kind != "enter" && kind != "leave" ==> image == old(image)
    {
      var secondImage := SecondImage(p);
      if kind == "enter" && secondImage != "" {
        image := secondImage;
      }
      if kind == "leave" && secondImage != "" {
        image := p.image;
      }
    }

    /** The effect run when `product.slug` changes: reset to the product when the
        stored link differs from the slug, otherwise keep the state. */
    method OnSlugChange(p: Product)
      modifies this
      ensures link == p.slug
      ensures old(link) != p.slug ==> image == p.image
      ensures old(link) == p.slug ==> image == old(image)
    {
      if link != p.slug {
        image, link := p.image, p.slug;
      }
    }
  }

  // ---------------------------------------------------------------------------
  // buttonTitle

  /** buttonTitle: no stock and no pre-order asks to be notified; no stock with
      pre-order offers a pre-order (still adding to the cart); otherwise add to basket. */
  function ButtonFor(p: Product): (c: ButtonConfig)
    ensures c.title == NotifyMe <==> p.currentStock == 0 && !p.preOrder.isEnabled
    ensures c.title == PreOrderNow <==> p.currentStock == 0 && p.preOrder.isEnabled
    ensures c.title == AddToBasket <==> p.currentStock != 0
    ensures c.isNotifyMeEnabled <==> c.title == NotifyMe
    ensures c.isPreOrderEnabled <==> c.title == PreOrderNow
    ensures !(c.isNotifyMeEnabled && c.isPreOrderEnabled)
    ensures c.action == NotifyUser <==> c.title == NotifyMe
    ensures c.shortMessage == (if c.title == PreOrderNow then p.preOrder.shortMessage else "")
    ensures c.buttonType.Some? <==> c.title != AddToBasket
  {
    var config := ButtonConfig(AddToBasket, AddToCart, "", false, false, None);
    if p.currentStock == 0 && !p.preOrder.isEnabled then
      config.(title := NotifyMe, isNotifyMeEnabled := true, action := NotifyUser, buttonType := Some("button"))
    else if p.currentStock == 0 && p.preOrder.isEnabled then
      config.(title := PreOrderNow, isPreOrderEnabled := true, buttonType := Some("button"),
              shortMessage := p.preOrder.shortMessage)
    else
      config
  }
}
