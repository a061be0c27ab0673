/** The checkout address form: whether the new-address fields are open, the
    values the form starts from, which saved address is marked as selected,
    and the one-line summary shown once the step is complete. */
module CheckoutForm {
  import opened Common

  /** A form value object (an address): property name to value. */
  type Values = map<string, string>

  /** The content of the completed-step summary; absent properties are `None`. */
  datatype Summary = Summary(
    name: string,
    address1: Option<string>,
    address2: Option<string>,
    city: Option<string>,
    postCode: Option<string>,
    phone: Option<string>)

  /** One saved-address card: the highlighted border and the two check icons. */
  datatype AddressCard = AddressCard(highlighted: bool, selectedIcon: bool, plainIcon: bool)

  /** What the form renders: the summary alone, or the editor. */
  datatype View =
    | Confirmed(summary: Summary)
    | Editor(cards: seq<AddressCard>, initState: Values)

  /** A property read: `undefined` when absent. */
  function Get(m: Values, key: string): Option<string>
  {
    if key in m then Some(m[key]) else None
  }

  /** String concatenation of a property, which spells `undefined` out. */
  function Spell(v: Option<string>): string
  {
    match v
    case Some(s) => s
    case None => "undefined"
  }

  /** The summary of the completed step, built from the current values. */
  function SummaryOf(defaultValues: Values): (s: Summary)
    ensures "firstName" in defaultValues && "lastName" in defaultValues ==>
              s.name == defaultValues["firstName"] + " " + defaultValues["lastName"]
    ensures "firstName" in defaultValues && "lastName" !in defaultValues ==>
              s.name == defaultValues["firstName"] + " undefined"
    ensures "firstName" !in defaultValues && "lastName" in defaultValues ==>
              s.name == "undefined " + defaultValues["lastName"]
    ensures "firstName" !in defaultValues && "lastName" !in defaultValues ==> s.name == "undefined undefined"
    ensures s.address1 == Get(defaultValues, "address1") && s.address2 == Get(defaultValues, "address2")
    ensures s.city == Get(defaultValues, "city") && s.postCode == Get(defaultValues, "postCode")
    ensures s.phone == Get(defaultValues, "phoneNo")
  {
    Summary(Spell(Get(defaultValues, "firstName")) + " " + Spell(Get(defaultValues, "lastName")),
            Get(defaultValues, "address1"), Get(defaultValues, "address2"),
            Get(defaultValues, "city"), Get(defaultValues, "postCode"), Get(defaultValues, "phoneNo"))
  }

  /** initState: the current values when they have at least one property, else the
      initial values. */
  function InitState(defaultValues: Values, initialValues: Values): (r: Values)
    ensures |defaultValues| > 0 ==> r == defaultValues
    ensures |defaultValues| == 0 ==> r == initialValues
    ensures r == defaultValues || r == initialValues
  {
    if |defaultValues| > 0 then defaultValues else initialValues
  }

  /** `item.id === defaultValues.id`; two absent ids compare equal. */
  predicate IsSelected(item: Values, defaultValues: Values)
  {
    Get(item, "id") == Get(defaultValues, "id")
  }

  /** The saved-address cards, one per address in order. */
  function Cards(addresses: seq<Values>, defaultValues: Values): (cards: seq<AddressCard>)
    ensures |cards| == |addresses|
    ensures forall i :: 0 <= i < |cards| ==>
              && (cards[i].highlighted <==> IsSelected(addresses[i], defaultValues))
              && cards[i].selectedIcon == cards[i].highlighted
              && (cards[i].selectedIcon != cards[i].plainIcon)
  {
    seq(|addresses|, i requires 0 <= i < |addresses| =>
      var selected := IsSelected(addresses[i], defaultValues);
      AddressCard(selected, selected, !selected))
  }

  /** With distinct ids, at most one saved address is highlighted. */
  lemma AtMostOneSelected(addresses: seq<Values>, defaultValues: Values, i: nat, j: nat)
    requires forall k, l :: 0 <= k < l < |addresses| ==> Get(addresses[k], "id") != Get(addresses[l], "id")
    requires i < j < |addresses|
    ensures !(Cards(addresses, defaultValues)[i].highlighted && Cards(addresses, defaultValues)[j].highlighted)
  {
  }

  /** When neither the current values nor a saved address has an id, that
      address is highlighted. */
  lemma MissingIdsMatch(addresses: seq<Values>, defaultValues: Values, i: nat)
    requires i < |addresses| && "id" !in addresses[i] && "id" !in defaultValues
    ensures Cards(addresses, defaultValues)[i].highlighted
  {
  }

  /** A completed step renders only the summary; otherwise the editor starts from initState. */
  function Render(isInfoCompleted: bool, defaultValues: Values, initialValues: Values, addresses: seq<Values>): (v: View)
    ensures v.Confirmed? <==> isInfoCompleted
    ensures v.Confirmed? ==> v.summary == SummaryOf(defaultValues)
    ensures v.Editor? ==> v.cards == Cards(addresses, defaultValues)
                          && v.initState == InitState(defaultValues, initialValues)
  {
    if isInfoCompleted then Confirmed(SummaryOf(defaultValues))
    else Editor(Cards(addresses, defaultValues), InitState(defaultValues, initialValues))
  }

  /** The `isFormOpen` state of the new-address form. */
  class AddressForm {
    var isFormOpen: bool

    /** The form starts open exactly when there is no saved address. */
    constructor (addresses: seq<Values>)
      ensures isFormOpen <==> |addresses| == 0
    {
      isFormOpen := |addresses| == 0;
    }

    /** handleNewFormButton: a closed form opens; an open form hands its values to
        handleNewAddress (returned here) and stays open until that calls back Close. */
    method PressAddButton(values: Values) returns (newAddress: Option<Values>)
      modifies this
      ensures isFormOpen
      ensures old(isFormOpen) ==> newAddress == Some(values)
      ensures !old(isFormOpen) ==> newAddress == None
    {
      if !isFormOpen {
        isFormOpen := true;
        newAddress := None;
      } else {
        newAddress := Some(values);
      }
    }

    /** `setNewFormOpen(false)`: run by the new-address Cancel button and by the
        callback handed to handleNewAddress. The edit-mode Cancel button calls
        `closeEditMode` instead and is not part of this state. */
    method Close()
      modifies this
      ensures !isFormOpen
    {
      isFormOpen := false;
    }

    /** The add button's label, absent for guests. */
    function AddButtonLabel(isGuest: bool): (caption: Option<string>)
      reads this
      ensures isGuest <==> caption.None?
      ensures caption.Some? ==> (caption.value == "Save" <==> isFormOpen)
      ensures caption.Some? ==> (caption.value == "Add new address" <==> !isFormOpen)
    {
      if isGuest then None else Some(if isFormOpen then "Save" else "Add new address")
    }

    /** The new-address Cancel button is shown only to a signed-in shopper with the
        form open. */
    function CancelShown(isGuest: bool): (shown: bool)
      reads this
      ensures shown ==> isFormOpen
      ensures shown <==> !isGuest && isFormOpen
    {
      !isGuest && isFormOpen
    }
  }
}
