/**
 * The `Index` page: the state the component keeps (cart, booking selection,
 * modal flag, suggestion prompt and answer) and the handlers its buttons and
 * form run.
 */
module IndexPage {
  import opened Wrappers
  import opened Catalog
  import opened Cart
  import opened Suggestions
  import opened SuggestionExamples

  class Page {
    var cart: seq<CartItem>
    /** The uid the next addition to the cart receives. */
    var nextUid: int
    var selected: Option<Service>
    var showBooking: bool
    var aiPrompt: string
    var aiSuggestion: Option<AISuggestion>

    /**
     * The selection and the modal flag are set and cleared together; every
     * selected or added service comes from the catalog; the cart's uids are
     * distinct and all below `nextUid`.
     */
    ghost predicate Valid()
      reads this
    {
      && (showBooking <==> selected.Some?)
      && (selected.Some? ==> selected.value in SERVICES)
      && DistinctUids(cart)
      && (forall x :: x in cart ==> x.uid < nextUid && x.service in SERVICES)
    }

    /** No booking in progress: nothing selected, modal hidden. */
    predicate Idle()
      reads this
    {
      selected.None? && !showBooking
    }

    /** The booking modal renders when it is shown and a service is selected. */
    predicate ModalVisible()
      reads this
    {
      showBooking && selected.Some?
    }

    /** Under the invariant, the modal is visible exactly when it is shown. */
    lemma ModalFollowsFlag()
      requires Valid()
      ensures ModalVisible() <==> showBooking
      ensures !ModalVisible() <==> Idle()
    {
    }

    /** `subtotal()`: the sum of the prices in the cart. */
    function Subtotal(): (t: int)
      reads this
      ensures t == 0 <== cart == []
      ensures PricesPositive(cart) ==> t >= 0 && (t == 0 <==> cart == [])
      ensures Valid() ==> t >= 0 && (t == 0 <==> cart == [])
    {
      CatalogWellFormed();
      SumSign(cart);
      Sum(cart)
    }

    /** The page as first rendered: empty cart, no booking, no suggestion. */
    constructor ()
      ensures Valid() && Idle()
      ensures cart == [] && aiPrompt == "" && aiSuggestion == None
    {
      cart := [];
      nextUid := 0;
      selected := None;
      showBooking := false;
      aiPrompt := "";
      aiSuggestion := None;
    }

    /**
     * `addToCart`: append one item carrying the service's fields and a uid no
     * other item has; returns the notification text.
     */
    method AddToCart(s: Service) returns (notice: string)
      requires Valid() && s in SERVICES
      modifies this
      ensures Valid()
      ensures cart == old(cart) + [CartItem(s, old(nextUid))]
      ensures old(nextUid) !in Uids(old(cart)) && nextUid == old(nextUid) + 1
      ensures Subtotal() == old(Subtotal()) + s.price
      ensures selected == old(selected) && showBooking == old(showBooking)
      ensures aiPrompt == old(aiPrompt) && aiSuggestion == old(aiSuggestion)
      ensures notice == "Added to cart: " + s.title
    {
      SumPush(cart, CartItem(s, nextUid));
      cart := cart + [CartItem(s, nextUid)];
      nextUid := nextUid + 1;
      notice := "Added to cart: " + s.title;
    }

    /**
     * `removeFromCart`: keep the items whose uid differs from `u`, in order.
     * The uid of an item in the cart removes that one item.
     */
    method RemoveFromCart(u: int)
      requires Valid()
      modifies this
      ensures Valid()
      ensures cart == RemoveUid(old(cart), u)
      ensures forall k :: 0 <= k < |old(cart)| && old(cart)[k].uid == u ==>
        cart == old(cart)[..k] + old(cart)[k + 1..] &&
        Subtotal() == old(Subtotal()) - old(cart)[k].service.price
      ensures u !in Uids(old(cart)) ==> cart == old(cart)
      ensures nextUid == old(nextUid)
      ensures selected == old(selected) && showBooking == old(showBooking)
      ensures aiPrompt == old(aiPrompt) && aiSuggestion == old(aiSuggestion)
    {
      RemoveKeepsDistinct(cart, u);
      RemoveUidMembers(cart, u);
      RemoveFound(cart, u);
      if u !in Uids(cart) {
        RemoveAbsent(cart, u);
      }
      cart := RemoveUid(cart, u);
    }

    /** The Clear button: the cart becomes empty whatever it held. */
    method ClearCart()
      requires Valid()
      modifies this
      ensures Valid()
      ensures cart == [] && Subtotal() == 0
      ensures nextUid == old(nextUid)
      ensures selected == old(selected) && showBooking == old(showBooking)
      ensures aiPrompt == old(aiPrompt) && aiSuggestion == old(aiSuggestion)
    {
      cart := [];
    }

    /** A service's Book button: select it and show the booking modal. */
    method Book(s: Service)
      requires Valid() && s in SERVICES
      modifies this
      ensures Valid() && ModalVisible()
      ensures selected == Some(s)
      ensures cart == old(cart) && nextUid == old(nextUid)
      ensures aiPrompt == old(aiPrompt) && aiSuggestion == old(aiSuggestion)
    {
      selected := Some(s);
      showBooking := true;
    }

    /** The modal's close button: hide it and drop the selection. */
    method CloseBooking()
      requires Valid()
      modifies this
      ensures Valid() && Idle()
      ensures cart == old(cart) && nextUid == old(nextUid)
      ensures aiPrompt == old(aiPrompt) && aiSuggestion == old(aiSuggestion)
    {
      showBooking := false;
      selected := None;
    }

    /** The modal's "Add to cart" button: add the selected service, then close. */
    method QuickAdd() returns (notice: string)
      requires Valid() && ModalVisible()
      modifies this
      ensures Valid() && Idle()
      ensures cart == old(cart) + [CartItem(old(selected).value, old(nextUid))]
      ensures Subtotal() == old(Subtotal()) + old(selected).value.price
      ensures aiPrompt == old(aiPrompt) && aiSuggestion == old(aiSuggestion)
      ensures notice == "Added to cart: " + old(selected).value.title
    {
      notice := AddToCart(selected.value);
      showBooking := false;
      selected := None;
    }

    /**
     * The booking form's submit: add the selected service, close the modal
     * and return the confirmation naming the contact. The form only submits
     * once name and phone are filled in.
     */
    method Submit(name: string, phone: string) returns (notice: string, thanks: string)
      requires Valid() && ModalVisible()
      requires name != "" && phone != ""
      modifies this
      ensures Valid() && Idle()
      ensures cart == old(cart) + [CartItem(old(selected).value, old(nextUid))]
      ensures Subtotal() == old(Subtotal()) + old(selected).value.price
      ensures aiPrompt == old(aiPrompt) && aiSuggestion == old(aiSuggestion)
      ensures notice == "Added to cart: " + old(selected).value.title
      ensures thanks == "Thanks " + name + "! We'll contact " + phone + "."
    {
      notice := AddToCart(selected.value);
      showBooking := false;
      selected := None;
      thanks := "Thanks " + name + "! We'll contact " + phone + ".";
    }

    /** Typing in the prompt box. */
    method SetPrompt(text: string)
      modifies this
      ensures aiPrompt == text
      ensures cart == old(cart) && nextUid == old(nextUid)
      ensures selected == old(selected) && showBooking == old(showBooking)
      ensures aiSuggestion == old(aiSuggestion)
    {
      aiPrompt := text;
    }

    /**
     * The Suggest button: clear the shown answer, then show the resolver's
     * answer for the current prompt (the display delay is not modelled).
     */
    method Suggest()
      modifies this
      ensures aiSuggestion == Some(Resolve(aiPrompt))
      ensures aiPrompt == old(aiPrompt)
      ensures cart == old(cart) && nextUid == old(nextUid)
      ensures selected == old(selected) && showBooking == old(showBooking)
    {
      aiSuggestion := None;
      aiSuggestion := Some(Resolve(aiPrompt));
    }

    /**
     * "Use suggestion": book the first catalog service whose tag equals the
     * answer's tag ignoring case; when there is none, nothing changes.
     */
    method UseSuggestion()
      requires Valid() && aiSuggestion.Some?
      modifies this
      ensures Valid()
      ensures aiPrompt == old(aiPrompt) && aiSuggestion == old(aiSuggestion)
      ensures FindTag(SERVICES, aiSuggestion.value.tag).Some? ==>
        selected == FindTag(SERVICES, aiSuggestion.value.tag) && ModalVisible()
      ensures FindTag(SERVICES, aiSuggestion.value.tag).None? ==>
        selected == old(selected) && showBooking == old(showBooking)
      ensures cart == old(cart) && nextUid == old(nextUid)
    {
      var found := FindTag(SERVICES, aiSuggestion.value.tag);
      if found.Some? {
        selected := found;
        showBooking := true;
      }
    }
  }

  /**
   * Booking the passport photos and submitting the form adds one item priced
   * 250, confirms to the named contact and leaves no booking open.
   */
  method PassportBooking() {
    var page := new Page();
    var passport := SERVICES[3];
    page.Book(passport);
    assert page.ModalVisible();
    var before := |page.cart|;
    var notice, thanks := page.Submit("Asha", "9990001111");
    assert |page.cart| == before + 1;
    assert page.cart[|page.cart| - 1].service.price == 250;
    assert page.Subtotal() == 250;
    assert page.Idle() && !page.ModalVisible();
  }

  /**
   * A prompt about a wedding that says "bride" resolves to the ID answer, so
   * "Use suggestion" opens a booking for passport photos.
   */
  method BrideSuggestion() {
    var page := new Page();
    page.SetPrompt("bride wedding");
    page.Suggest();
    BrideWeddingIsId("bride wedding");
    SuggestionTargets("bride wedding");
    page.UseSuggestion();
    assert page.selected == Some(SERVICES[3]) && page.ModalVisible();
  }
}
