/**
 * The customer panel of the POS screen (`CustomerSearch`): two drafts (`name`,
 * `mobile`), a suggestion list, and the selection that writes the cart store's
 * customer. The remote lookup is not written in the source: a query of two or more
 * characters always yields a single "create new customer" candidate.
 */
module CustomerSearch {
  import opened Wrappers
  import opened CartStore
  import opened Notify

  datatype Field = NameField | MobileField

  /** A suggestion: `{ id, name, mobile, isNew }`. */
  datatype Candidate = Candidate(id: string, name: string, mobile: string, isNew: bool)

  /**
   * The suggestion list `handleSearch(query, field)` leaves, given the drafts as they
   * were when the handler ran.
   */
  function SuggestionsFor(query: string, field: Field, name: string, mobile: string): (r: seq<Candidate>)
    ensures |query| < 2 <==> r == []
    ensures |query| >= 2 ==> |r| == 1 && r[0].id == "new" && r[0].isNew
    ensures |query| >= 2 && field == NameField ==> r[0].name == query && r[0].mobile == mobile
    ensures |query| >= 2 && field == MobileField ==> r[0].name == name && r[0].mobile == query
  {
    if |query| < 2 then []
    else
      [Candidate("new",
                 if field == NameField then query else name,
                 if field == MobileField then query else mobile,
                 true)]
  }

  /** Typing a name and then a mobile, both of two or more characters, offers exactly that new customer. */
  lemma TypingBothDraftsOffersThem(name: string, mobile: string, oldMobile: string)
    requires |name| >= 2 && |mobile| >= 2
    ensures var afterName := SuggestionsFor(name, NameField, "", oldMobile);
      && afterName == [Candidate("new", name, oldMobile, true)]
      && SuggestionsFor(mobile, MobileField, name, oldMobile) == [Candidate("new", name, mobile, true)]
  {
  }

  /** What `handleSelectCustomer` hands to `setCustomer`: the candidate, its mobile in the phone slot. */
  function AsCustomer(c: Candidate): Customer
  {
    Customer(Some(c.id), c.name, c.mobile, false)
  }

  /** The toast title on a successful selection. */
  function SelectionTitle(c: Candidate): (t: string)
    ensures t == "New Customer Created" <==> c.isNew
    ensures t == "Customer Selected" <==> !c.isNew
  {
    if c.isNew then "New Customer Created" else "Customer Selected"
  }

  /** A selection goes ahead only when both drafts are non-empty. */
  predicate CanSelect(name: string, mobile: string)
  {
    name != "" && mobile != ""
  }

  class Search {
    var name: string
    var mobile: string
    var suggestions: seq<Candidate>
    const cart: Store

    constructor (cart: Store)
      ensures this.cart == cart
      ensures name == "" && mobile == "" && suggestions == []
    {
      this.cart := cart;
      name, mobile, suggestions := "", "", [];
    }

    /** Writes the edited draft, then replaces the suggestions. */
    method HandleSearch(query: string, field: Field)
      modifies this
      ensures field == NameField ==> name == query && mobile == old(mobile)
      ensures field == MobileField ==> mobile == query && name == old(name)
      ensures suggestions == SuggestionsFor(query, field, old(name), old(mobile))
    {
      var draftName, draftMobile := name, mobile;
      if field == NameField {
        name := query;
      } else {
        mobile := query;
      }
      if |query| < 2 {
        suggestions := [];
        return;
      }
      suggestions := [Candidate("new",
                                if field == NameField then query else draftName,
                                if field == MobileField then query else draftMobile,
                                true)];
    }

    /**
     * With an empty draft: an error toast and nothing changes. Otherwise both drafts
     * take the candidate's values, the suggestions are cleared and the cart store's
     * customer becomes the candidate, not pending.
     */
    method HandleSelectCustomer(c: Candidate) returns (toast: Toast)
      modifies this, cart
      ensures !CanSelect(old(name), old(mobile)) ==>
        && name == old(name) && mobile == old(mobile) && suggestions == old(suggestions)
        && cart.State() == old(cart.State())
        && toast == Toast(true, "Error", "Please fill in both name and mobile number")
      ensures CanSelect(old(name), old(mobile)) ==>
        && name == c.name && mobile == c.mobile && suggestions == []
        && cart.State() == AfterSetCustomer(old(cart.State()), AsCustomer(c))
        && toast == Toast(false, SelectionTitle(c), c.name + " (" + c.mobile + ")")
    {
      if name == "" || mobile == "" {
        toast := Toast(true, "Error", "Please fill in both name and mobile number");
        return;
      }
      name := c.name;
      mobile := c.mobile;
      cart.SetCustomer(AsCustomer(c));
      suggestions := [];
      toast := Toast(false, SelectionTitle(c), c.name + " (" + c.mobile + ")");
    }
  }

  /** A successful selection leaves a confirmed (non-pending) customer and does not touch the lines or total. */
  lemma SelectionConfirmsCustomer(s: CartState, c: Candidate)
    ensures var r := AfterSetCustomer(s, AsCustomer(c));
      && r.customer == Some(Customer(Some(c.id), c.name, c.mobile, false))
      && r.items == s.items && r.total == s.total
  {
  }
}
