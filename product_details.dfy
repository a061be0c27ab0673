/** The product-details accordion: the colour-code test that turns an
    attribute value into a swatch, the fallback texts of the shipping and
    returns panels, and the fixed order of the four panels. */
module ProductDetails {
  import opened Common

  /** A row of the product specification table. */
  datatype Attribute = Attribute(display: string, value: string)

  /** How a specification value is shown. */
  datatype Cell = Swatch(color: string) | Text(value: string)

  /** The properties a panel is rendered with. `None` and `Some("")` are both falsy. */
  datatype PanelProps = PanelProps(
    attributes: seq<Attribute>,
    shippingMessage: Option<string>,
    returnsMessage: Option<string>)

  datatype Panel =
    | Description(html: string)
    | Specification(rows: seq<(string, Cell)>)
    | Shipping(text: string)
    | Returns(text: string)

  /** A panel with its title. */
  datatype Section = Section(title: string, panel: Panel)

  datatype Product = Product(description: string, attributes: seq<Attribute>)

  const ShippingPlaceholder := "SHIPPING CONTENT TO BE ADDED"
  const ReturnsPlaceholder := "RETURNS CONTENT TO BE ADDED"

  // ---------------------------------------------------------------------------
  // colorRegex = /^#(?:[0-9a-f]{3}){1,2}$/i

  /** `[0-9a-f]` under the `i` flag. */
  predicate IsHexDigit(c: char)
  {
    '0' <= c <= '9' || 'a' <= c <= 'f' || 'A' <= c <= 'F'
  }

  /** Matches `(?:[0-9a-f]{3}){n..2}$` on `t`, where `n` groups were already consumed:
      consumes groups of three hex digits until the input ends. */
  function Groups(t: string, n: nat): bool
    requires n <= 2
    decreases |t|
  {
    if t == [] then n >= 1
    else if n == 2 || |t| < 3 then false
    else IsHexDigit(t[0]) && IsHexDigit(t[1]) && IsHexDigit(t[2]) && Groups(t[3..], n + 1)
  }

  /** `colorRegex.test(s)`. */
  predicate ColorRegexTest(s: string)
  {
    |s| > 0 && s[0] == '#' && Groups(s[1..], 0)
  }

  /** Groups accepts exactly a run of hex digits forming 1 or 2 groups in all. */
  lemma {:induction false} GroupsIff(t: string, n: nat)
    requires n <= 2
    ensures Groups(t, n) <==>
              |t| % 3 == 0 && 1 <= n + |t| / 3 <= 2 && forall i :: 0 <= i < |t| ==> IsHexDigit(t[i])
    decreases |t|
  {
    if t != [] && n < 2 && |t| >= 3 {
      GroupsIff(t[3..], n + 1);
      assert forall i :: 3 <= i < |t| ==> t[3..][i - 3] == t[i];
    }
  }

  /** Accepted exactly: '#' followed by 3 or 6 hexadecimal digits, either case. */
  lemma ColorRegexTestIff(s: string)
    ensures ColorRegexTest(s) <==>
              (|s| == 4 || |s| == 7) && s[0] == '#' && forall i :: 1 <= i < |s| ==> IsHexDigit(s[i])
  {
    if |s| > 0 {
      GroupsIff(s[1..], 0);
      assert forall i :: 1 <= i < |s| ==> s[1..][i - 1] == s[i];
    }
  }

  /** Rejected: every length other than 3 or 6 digits after '#'. */
  lemma ColorRegexRejectsLength(s: string)
    requires |s| != 4 && |s| != 7
    ensures !ColorRegexTest(s)
  {
    ColorRegexTestIff(s);
  }

  /** The `i` flag: lowering letters never changes the verdict. */
  lemma ColorRegexCaseInsensitive(s: string)
    ensures ColorRegexTest(s) <==> ColorRegexTest(Lower(s))
  {
    ColorRegexTestIff(s);
    ColorRegexTestIff(Lower(s));
    forall i | 0 <= i < |s|
      ensures IsHexDigit(s[i]) <==> IsHexDigit(Lower(s)[i])
      ensures s[i] == '#' <==> Lower(s)[i] == '#'
    {
    }
  }

  /** A specification value becomes a swatch exactly when it is a colour code. */
  function CellFor(value: string): (c: Cell)
    ensures c.Swatch? <==> ColorRegexTest(value)
    ensures c.Swatch? ==> c.color == value
    ensures c.Text? ==> c.value == value
  {
    if ColorRegexTest(value) then Swatch(value) else Text(value)
  }

  // ---------------------------------------------------------------------------
  // Panels

  function Truthy(msg: Option<string>): bool
  {
    msg.Some? && msg.value != ""
  }

  /** `props.shippingMessage || 'SHIPPING CONTENT TO BE ADDED'`. */
  function ShippingText(props: PanelProps): (t: string)
    ensures Truthy(props.shippingMessage) ==> t == props.shippingMessage.value
    ensures !Truthy(props.shippingMessage) ==> t == ShippingPlaceholder
    ensures t != ""
  {
    if Truthy(props.shippingMessage) then props.shippingMessage.value else ShippingPlaceholder
  }

  /** `props.returnsMessage || 'RETURNS CONTENT TO BE ADDED'`. */
  function ReturnsText(props: PanelProps): (t: string)
    ensures Truthy(props.returnsMessage) ==> t == props.returnsMessage.value
    ensures !Truthy(props.returnsMessage) ==> t == ReturnsPlaceholder
    ensures t != ""
  {
    if Truthy(props.returnsMessage) then props.returnsMessage.value else ReturnsPlaceholder
  }

  /** The props every panel is invoked with: `{ attributes: product.attributes }`. */
  function PropsOf(p: Product): PanelProps
  {
    PanelProps(p.attributes, None, None)
  }

  /** detailsConfig rendered for a product. */
  function DetailSections(p: Product): (r: seq<Section>)
    ensures |r| == 4
    ensures r[0].title == "Description" && r[0].panel == Description(p.description)
    ensures r[1].title == "Product specification" && r[1].panel.Specification?
    ensures |r[1].panel.rows| == |p.attributes|
    ensures forall i :: 0 <= i < |p.attributes| ==>
              r[1].panel.rows[i] == (p.attributes[i].display, CellFor(p.attributes[i].value))
    ensures r[2].title == "Shipping" && r[3].title == "Returns"
  {
    var props := PropsOf(p);
    [ Section("Description", Description(p.description)),
      Section("Product specification",
              Specification(seq(|props.attributes|, i requires 0 <= i < |props.attributes| =>
                                  (props.attributes[i].display, CellFor(props.attributes[i].value))))),
      Section("Shipping", Shipping(ShippingText(props))),
      Section("Returns", Returns(ReturnsText(props))) ]
  }

  /** The panels receive only the attributes, so the shipping and returns panels
      always show their placeholders. */
  lemma PanelsShowPlaceholders(p: Product)
    ensures DetailSections(p)[2].panel == Shipping(ShippingPlaceholder)
    ensures DetailSections(p)[3].panel == Returns(ReturnsPlaceholder)
  {
  }
}
