/**
 * One item row of the entry form: the product drop-down with its search
 * box, and the quantity box with its format warning.
 */
module ProductSections {
  import opened Text
  import opened Seqs
  import opened EntryForms

  /** A product matches the search when its lower-cased name contains the lower-cased term. */
  predicate Matches(term: string, product: string)
  {
    Contains(ToLower(product), ToLower(term))
  }

  /** The drop-down's options: the matching products, in their order. */
  function FilteredProducts(available: seq<string>, term: string): (r: seq<string>)
    ensures |r| <= |available|
    ensures forall k :: 0 <= k < |r| ==> Matches(term, r[k])
  {
    Filter(available, p => Matches(term, p))
  }

  /** The options are the products with some left out and the rest in their order. */
  lemma FilteredProductsIsSubsequence(available: seq<string>, term: string)
    ensures IsSubsequence(FilteredProducts(available, term), available)
  {
    FilterIsSubsequence(available, p => Matches(term, p));
  }

  /** A product is offered exactly when it is available and matches. */
  lemma FilteredProductsMembership(available: seq<string>, term: string, product: string)
    ensures product in FilteredProducts(available, term) <==> product in available && Matches(term, product)
  {
    FilterMembership(available, p => Matches(term, p), product);
  }

  /** An empty search offers every product. */
  lemma EmptySearchKeepsAll(available: seq<string>)
    ensures FilteredProducts(available, "") == available
  {
    forall k | 0 <= k < |available|
      ensures Matches("", available[k])
    {
      ContainsEmpty(ToLower(available[k]));
    }
    FilterKeepsAll(available, p => Matches("", p));
  }

  /** The search ignores the case of ASCII letters in the term. */
  lemma SearchIgnoresCase(available: seq<string>, term: string)
    ensures FilteredProducts(available, ToUpper(term)) == FilteredProducts(available, term)
  {
    assert ToLower(ToUpper(term)) == ToLower(term);
    FilterCongruent(available, p => Matches(ToUpper(term), p), p => Matches(term, p));
  }

  /**
   * The pattern `\d*\.?\d*` read left to right, with `seenDot` telling
   * whether the dot has been passed.
   */
  predicate ScanQuantity(s: string, seenDot: bool)
    decreases |s|
  {
    s == [] || (IsDigit(s[0]) && ScanQuantity(s[1..], seenDot))
    || (s[0] == '.' && !seenDot && ScanQuantity(s[1..], true))
  }

  /** The test `/^-?\d*\.?\d*$/`: an optional minus sign, then `\d*\.?\d*`. */
  predicate IsNumeric(s: string)
  {
    ScanQuantity(if |s| > 0 && s[0] == '-' then s[1..] else s, false)
  }

  /** Digits, or digits, one dot and digits. */
  predicate Unsigned(s: string)
  {
    AllDigits(s) || exists k :: 0 <= k < |s| && DotAt(s, k)
  }

  /** `s` is digits, a dot at `k`, and digits. */
  predicate DotAt(s: string, k: int)
  {
    0 <= k < |s| && s[k] == '.' && AllDigits(s[..k]) && AllDigits(s[k + 1..])
  }

  /** The quantities the pattern describes: an optional leading minus, then an unsigned number. */
  predicate QuantityShape(s: string)
  {
    Unsigned(s) || (|s| > 0 && s[0] == '-' && Unsigned(s[1..]))
  }

  lemma {:induction false} ScanAfterDot(s: string)
    ensures ScanQuantity(s, true) <==> AllDigits(s)
    decreases |s|
  {
    if s != [] {
      ScanAfterDot(s[1..]);
    }
  }

  /** A dot after the first character is a dot in the rest, one place earlier. */
  lemma DotAtTail(s: string, k: int)
    requires s != []
    ensures k > 0 && DotAt(s, k) ==> IsDigit(s[0]) && DotAt(s[1..], k - 1)
    ensures IsDigit(s[0]) && DotAt(s[1..], k - 1) ==> DotAt(s, k)
  {
    var t := s[1..];
    if 0 < k < |s| {
      assert s[..k] == [s[0]] + t[..k - 1] && s[k + 1..] == t[k..];
    }
  }

  /** A dot first is followed by digits only. */
  lemma DotAtHead(s: string)
    requires s != []
    ensures DotAt(s, 0) <==> s[0] == '.' && AllDigits(s[1..])
  {
    assert s[..0] == [];
  }

  lemma {:induction false} ScanBeforeDot(s: string)
    ensures ScanQuantity(s, false) <==> Unsigned(s)
    decreases |s|
  {
    if s != [] {
      var t := s[1..];
      ScanBeforeDot(t);
      ScanAfterDot(t);
      DotAtHead(s);
      if exists k :: DotAt(s, k) {
        var k :| DotAt(s, k);
        DotAtTail(s, k);
      }
      if IsDigit(s[0]) && exists k :: DotAt(t, k) {
        var k :| DotAt(t, k);
        DotAtTail(s, k + 1);
      }
      if IsDigit(s[0]) && AllDigits(t) {
        assert AllDigits(s);
      }
      if AllDigits(s) {
        assert AllDigits(t);
        assert forall k :: !DotAt(s, k);
      }
    }
  }

  /** The scanner recognises exactly the quantity shape. */
  lemma IsNumericIff(s: string)
    ensures IsNumeric(s) <==> QuantityShape(s)
  {
    ScanBeforeDot(s);
    if |s| > 0 {
      ScanBeforeDot(s[1..]);
      if s[0] == '-' {
        assert !AllDigits(s);
        assert forall k :: !DotAt(s, k);
      }
    }
  }

  lemma NumericExamples()
    ensures IsNumeric("") && IsNumeric("-") && IsNumeric(".") && IsNumeric("12")
    ensures IsNumeric("-3.5") && IsNumeric("3.") && IsNumeric(".5")
    ensures !IsNumeric("1.2.3") && !IsNumeric("1-2") && !IsNumeric("+1") && !IsNumeric("abc")
  {
    assert ("-")[1..] == "";
    assert ("12")[1..] == "2" && ("2")[1..] == "";
    assert ("-3.5")[1..] == "3.5" && ("3.5")[1..] == ".5" && (".5")[1..] == "5" && ("5")[1..] == "";
    assert ("3.")[1..] == "." && (".")[1..] == "";
    assert ("1.2.3")[1..] == ".2.3" && (".2.3")[1..] == "2.3" && ("2.3")[1..] == ".3";
    assert ("1-2")[1..] == "-2";
  }

  /** One item row, bound to the form it belongs to and its position there. */
  class ProductSection {
    const form: EntryForm
    const index: nat
    const availableProducts: seq<string>
    var isOpen: bool
    var searchTerm: string
    var showWarning: bool

    constructor(form: EntryForm, index: nat, availableProducts: seq<string>)
      ensures this.form == form && this.index == index && this.availableProducts == availableProducts
      ensures !isOpen && searchTerm == "" && !showWarning
    {
      this.form := form;
      this.index := index;
      this.availableProducts := availableProducts;
      isOpen := false;
      searchTerm := "";
      showWarning := false;
    }

    /** The options the drop-down shows. */
    function Options(): (r: seq<string>)
      reads this
      ensures |r| <= |availableProducts|
    {
      FilteredProducts(availableProducts, searchTerm)
    }

    method ToggleOpen()
      modifies this
      ensures isOpen == !old(isOpen)
      ensures searchTerm == old(searchTerm) && showWarning == old(showWarning)
    {
      isOpen := !isOpen;
    }

    /** A click outside the row closes the drop-down. */
    method ClickOutside()
      modifies this
      ensures !isOpen
      ensures searchTerm == old(searchTerm) && showWarning == old(showWarning)
    {
      isOpen := false;
    }

    method SetSearchTerm(term: string)
      modifies this
      ensures searchTerm == term
      ensures isOpen == old(isOpen) && showWarning == old(showWarning)
    {
      searchTerm := term;
    }

    /** Choosing a product writes it into this row's item, clears the search and closes the drop-down. */
    method SelectProduct(product: string)
      requires form.Valid() && index < |form.products|
      modifies this, form
      ensures form.Valid()
      ensures form.selectedUser == old(form.selectedUser) && form.selectedDate == old(form.selectedDate)
      ensures form.isSubmitting == old(form.isSubmitting)
      ensures form.products == old(form.products)[index := old(form.products[index]).(productName := product)]
      ensures searchTerm == "" && !isOpen && showWarning == old(showWarning)
    {
      form.UpdateProductData(index, ProductName, product);
      searchTerm := "";
      isOpen := false;
    }

    /**
     * The typed quantity goes into the item as typed, whether it has the
     * shape of a number or not; the warning shows exactly when it has not.
     */
    method QuantityChange(value: string)
      requires form.Valid() && index < |form.products|
      modifies this, form
      ensures form.Valid()
      ensures form.selectedUser == old(form.selectedUser) && form.selectedDate == old(form.selectedDate)
      ensures form.isSubmitting == old(form.isSubmitting)
      ensures form.products == old(form.products)[index := old(form.products[index]).(quantity := value)]
      ensures showWarning == !QuantityShape(value)
      ensures searchTerm == old(searchTerm) && isOpen == old(isOpen)
    {
      var isNumeric := IsNumeric(value);
      IsNumericIff(value);
      if isNumeric {
        showWarning := false;
        form.UpdateProductData(index, Quantity, value);
      } else {
        showWarning := true;
        form.UpdateProductData(index, Quantity, value);
      }
    }

    /** The notes box writes straight into the item. */
    method NotesChange(value: string)
      requires form.Valid() && index < |form.products|
      modifies form
      ensures form.Valid()
      ensures form.selectedUser == old(form.selectedUser) && form.selectedDate == old(form.selectedDate)
      ensures form.isSubmitting == old(form.isSubmitting)
      ensures form.products == old(form.products)[index := old(form.products[index]).(notes := value)]
    {
      form.UpdateProductData(index, Notes, value);
    }
  }
}
