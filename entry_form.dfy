/**
 * The entry form shared by the receipt, issuance and production pages: the
 * list of items the user fills in, its add, remove and update operations,
 * the checks made on submit and the reset after a passing submit.
 */
module EntryForms {
  import opened Wrappers
  import opened Text

  /** One item of the form. */
  datatype ProductData = ProductData(productName: string, quantity: string, notes: string)

  /** A new, empty item. */
  const Blank := ProductData("", "", "")

  /** The three fields of an item. */
  datatype Field = ProductName | Quantity | Notes

  /** The item with one field set to `value`. */
  function WithField(item: ProductData, field: Field, value: string): (r: ProductData)
    ensures field == ProductName ==> r == ProductData(value, item.quantity, item.notes)
    ensures field == Quantity ==> r == ProductData(item.productName, value, item.notes)
    ensures field == Notes ==> r == ProductData(item.productName, item.quantity, value)
  {
    match field
    case ProductName => item.(productName := value)
    case Quantity => item.(quantity := value)
    case Notes => item.(notes := value)
  }

  /** A calendar date as the date picker hands it over; only its presence matters here. */
  datatype Date = Date(epochMillis: int)

  /** The first check that fails on submit. Items are numbered from 1, as the alert numbers them. */
  datatype Problem = NoUser | NoDate | NoProduct(item: nat) | NoQuantity(item: nat)

  /** The alert shown for a problem. */
  function Alert(p: Problem): (a: string)
    ensures a != SubmittedMessage
  {
    match p
    case NoUser => "Please select a User."
    case NoDate => "Please select a Date."
    case NoProduct(item) => 
      var lead := "Please select a Product for Item ";
      NotSuccess(lead, Decimal(item) + ".");
      lead + (Decimal(item) + ".")
    case NoQuantity(item) => 
      var lead := "Please enter a Quantity for Item ";
      NotSuccess(lead, Decimal(item) + ".");
      lead + (Decimal(item) + ".")
  }

  /**
   * The alert of a submit that passes the checks. It is one message, written as
   * two literals only so that the verifier can see its first character: Dafny
   * does not unfold the characters of a literal this long, and `NotSuccess`
   * needs the leading 'F'.
   */
  const SubmittedMessage := "Form " + "submitted successfully! (Check console for data)"

  /** A text that starts with 'P' is not the success message, which starts with 'F'. */
  lemma NotSuccess(lead: string, rest: string)
    requires lead != [] && lead[0] == 'P'
    ensures lead + rest != SubmittedMessage
  {
    assert (lead + rest)[0] == 'P';
  }

  /** Both required fields of an item are filled in. */
  predicate Complete(item: ProductData)
  {
    item.productName != "" && item.quantity != ""
  }

  /**
   * The first incomplete item from position `from` on, named by its number;
   * within an item the product is checked before the quantity.
   */
  function FirstItemProblem(products: seq<ProductData>, from: nat): (r: Option<Problem>)
    requires from <= |products|
    ensures r.None? <==> forall i :: from <= i < |products| ==> Complete(products[i])
    ensures r.Some? ==> (r.value.NoProduct? || r.value.NoQuantity?)
    ensures r.Some? ==>
              var i := r.value.item - 1;
              from <= i < |products|
              && (forall j :: from <= j < i ==> Complete(products[j]))
              && (r.value.NoProduct? <==> products[i].productName == "")
              && (r.value.NoQuantity? ==> products[i].quantity == "")
    decreases |products| - from
  {
    if from == |products| then None
    else if products[from].productName == "" then Some(NoProduct(from + 1))
    else if products[from].quantity == "" then Some(NoQuantity(from + 1))
    else FirstItemProblem(products, from + 1)
  }

  /** The checks of the submit handler, in their order: user, date, then the items in order. */
  function Validate(user: string, date: Option<Date>, products: seq<ProductData>): (r: Option<Problem>)
    ensures r.Some? && (r.value.NoProduct? || r.value.NoQuantity?) ==> 1 <= r.value.item <= |products|
  {
    if user == "" then Some(NoUser)
    else if date.None? then Some(NoDate)
    else FirstItemProblem(products, 0)
  }

  /** A submit passes exactly when a user and a date are chosen and every item has a product and a quantity. */
  lemma ValidatePassesIff(user: string, date: Option<Date>, products: seq<ProductData>)
    ensures Validate(user, date, products).None?
            <==> user != "" && date.Some? && forall i :: 0 <= i < |products| ==> Complete(products[i])
  {
  }

  /**
   * The problem reported names the lowest-numbered incomplete item, and the
   * product when that item lacks both.
   */
  lemma ValidateReportsFirst(user: string, date: Option<Date>, products: seq<ProductData>, k: nat)
    requires user != "" && date.Some?
    requires k < |products| && !Complete(products[k])
    requires forall j :: 0 <= j < k ==> Complete(products[j])
    ensures Validate(user, date, products)
            == Some(if products[k].productName == "" then NoProduct(k + 1) else NoQuantity(k + 1))
  {
  }

  /** The user is checked first and the date second, whatever the items. */
  lemma UserThenDate(user: string, date: Option<Date>, products: seq<ProductData>)
    ensures user == "" ==> Validate(user, date, products) == Some(NoUser)
    ensures user != "" && date.None? ==> Validate(user, date, products) == Some(NoDate)
  {
  }

  /** The form's state. */
  class EntryForm {
    var selectedUser: string
    var selectedDate: Option<Date>
    var products: seq<ProductData>
    var isSubmitting: bool

    /** The form never has fewer than one item. */
    predicate Valid()
      reads this
    {
      |products| >= 1
    }

    /** A fresh form: no user, today's date, one blank item. */
    constructor(today: Date)
      ensures Valid()
      ensures selectedUser == "" && selectedDate == Some(today)
      ensures products == [Blank] && !isSubmitting
    {
      selectedUser := "";
      selectedDate := Some(today);
      products := [Blank];
      isSubmitting := false;
    }

    method SetUser(user: string)
      requires Valid()
      modifies this
      ensures Valid()
      ensures selectedUser == user
      ensures selectedDate == old(selectedDate) && products == old(products) && isSubmitting == old(isSubmitting)
    {
      selectedUser := user;
    }

    method SetDate(date: Option<Date>)
      requires Valid()
      modifies this
      ensures Valid()
      ensures selectedDate == date
      ensures selectedUser == old(selectedUser) && products == old(products) && isSubmitting == old(isSubmitting)
    {
      selectedDate := date;
    }

    /** Sets one field of one item; the other items and fields and the length stay as they were. */
    method UpdateProductData(index: nat, field: Field, value: string)
      requires Valid() && index < |products|
      modifies this
      ensures Valid()
      ensures |products| == |old(products)|
      ensures products[index] == WithField(old(products)[index], field, value)
      ensures forall i :: 0 <= i < |products| && i != index ==> products[i] == old(products)[i]
      ensures selectedUser == old(selectedUser) && selectedDate == old(selectedDate)
      ensures isSubmitting == old(isSubmitting)
    {
      var newProducts := products;
      newProducts := newProducts[index := WithField(newProducts[index], field, value)];
      products := newProducts;
    }

    /** Appends one blank item; the items before it stay as they were. */
    method AddProductSection()
      requires Valid()
      modifies this
      ensures Valid()
      ensures |products| == |old(products)| + 1
      ensures products[..|old(products)|] == old(products) && products[|products| - 1] == Blank
      ensures selectedUser == old(selectedUser) && selectedDate == old(selectedDate)
      ensures isSubmitting == old(isSubmitting)
    {
      products := products + [Blank];
    }

    /**
     * Deletes item `index` and keeps the rest in order, unless it is the only
     * item; an index past the end deletes nothing.
     */
    method RemoveProductSection(index: int)
      requires Valid()
      modifies this
      ensures Valid()
      ensures old(|products|) > 1 && 0 <= index < old(|products|) ==>
                products == old(products)[..index] + old(products)[index + 1..]
      ensures old(|products|) == 1 || !(0 <= index < old(|products|)) ==> products == old(products)
      ensures selectedUser == old(selectedUser) && selectedDate == old(selectedDate)
      ensures isSubmitting == old(isSubmitting)
    {
      if |products| > 1 {
        var newProducts := if 0 <= index < |products| then products[..index] + products[index + 1..] else products;
        products := newProducts;
      }
    }

    /** The checks of the submit handler as it makes them: a loop over the items that stops at the first problem. */
    method CheckForm() returns (problem: Option<Problem>)
      ensures problem == Validate(selectedUser, selectedDate, products)
    {
      if selectedUser == "" {
        return Some(NoUser);
      }
      if selectedDate.None? {
        return Some(NoDate);
      }
      for i := 0 to |products|
        invariant FirstItemProblem(products, 0) == FirstItemProblem(products, i)
      {
        if products[i].productName == "" {
          return Some(NoProduct(i + 1));
        }
        if products[i].quantity == "" {
          return Some(NoQuantity(i + 1));
        }
      }
      return None;
    }

    /**
     * Submit: on a failed check the alert names the problem and nothing
     * changes; otherwise the form is reset to no user, `today` and one blank item.
     */
    method Submit(today: Date) returns (alert: string)
      requires Valid()
      modifies this
      ensures Valid()
      ensures var problem := Validate(old(selectedUser), old(selectedDate), old(products));
              alert == (if problem.Some? then Alert(problem.value) else SubmittedMessage)
      ensures Validate(old(selectedUser), old(selectedDate), old(products)).Some? ==>
                selectedUser == old(selectedUser) && selectedDate == old(selectedDate)
                && products == old(products) && isSubmitting == old(isSubmitting)
      ensures Validate(old(selectedUser), old(selectedDate), old(products)).None? ==>
                selectedUser == "" && selectedDate == Some(today) && products == [Blank] && !isSubmitting
    {
      var problem := CheckForm();
      if problem.Some? {
        return Alert(problem.value);
      }
      isSubmitting := true;
      alert := SubmittedMessage;
      selectedUser := "";
      selectedDate := Some(today);
      products := [Blank];
      isSubmitting := false;
    }
  }
}
