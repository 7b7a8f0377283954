/**
 * The product-list lookup endpoint (`GET /api/products?type=…`): which
 * stored list a form type reads, and the defaults for an unknown type and a
 * list that has not been uploaded yet.
 */
module ProductLookup {
  import opened Wrappers

  /** The list shared by the receipt and issuance forms. */
  const ReceiptFile := "products-receipt.json"
  /** The list of the production forms. */
  const ProductionFile := "products-production.json"

  /** The contents of a stored list file: a list of product names, or text `JSON.parse` rejects. */
  datatype StoredList = Parsed(items: seq<string>) | Unparsable

  /** The data directory, by file name; a missing key is a file that does not exist. */
  type ProductFiles = map<string, StoredList>

  /** The `type` query parameter: missing, given once, or given several times (an array). */
  datatype Query = Absent | Single(value: string) | Repeated(values: seq<string>)

  datatype LookupResponse =
    | MethodNotAllowed
    | InvalidType
    | ReadError
    | Products(items: seq<string>)

  function LookupStatus(r: LookupResponse): int
  {
    match r
    case MethodNotAllowed => 405
    case InvalidType => 400
    case ReadError => 500
    case Products(_) => 200
  }

  /** The file a form type reads its products from; `None` for a type with no list. */
  function LookupFile(formType: string): (f: Option<string>)
    ensures f.Some? ==> f.value == ReceiptFile || f.value == ProductionFile
    ensures f == Some(ReceiptFile) <==> formType == "receipt" || formType == "issuance"
    ensures f == Some(ProductionFile) <==> formType == "production" || formType == "dc-entry"
  {
    if formType == "receipt" || formType == "issuance" then Some(ReceiptFile)
    else if formType == "production" || formType == "dc-entry" then Some(ProductionFile)
    else None
  }

  /** `type` is present, a single value, and not the empty string. */
  predicate ValidType(query: Query)
  {
    query.Single? && query.value != ""
  }

  /** The handler. */
  function Lookup(files: ProductFiles, httpMethod: string, query: Query): (r: LookupResponse)
    ensures LookupStatus(r) == 200 ==> httpMethod == "GET" && ValidType(query)
    ensures r.Products? && r.items != [] ==>
              LookupFile(query.value).Some? && LookupFile(query.value).value in files
              && files[LookupFile(query.value).value] == Parsed(r.items)
  {
    if httpMethod != "GET" then MethodNotAllowed
    else if !ValidType(query) then InvalidType
    else match LookupFile(query.value)
      case None => Products([])
      case Some(file) =>
        if file !in files then Products([])
        else match files[file]
          case Parsed(items) => Products(items)
          case Unparsable => ReadError
  }

  /** Anything but GET is refused with 405, and a missing, empty or repeated `type` with 400. */
  lemma LookupRejects(files: ProductFiles, httpMethod: string, query: Query)
    ensures LookupStatus(Lookup(files, httpMethod, query)) == 405 <==> httpMethod != "GET"
    ensures LookupStatus(Lookup(files, httpMethod, query)) == 400 <==> httpMethod == "GET" && !ValidType(query)
  {
  }

  /** A type with no list gets the empty list whatever is stored: the store is not consulted. */
  lemma UnknownTypeIgnoresStore(files1: ProductFiles, files2: ProductFiles, formType: string)
    requires formType != "" && LookupFile(formType).None?
    ensures Lookup(files1, "GET", Single(formType)) == Products([])
    ensures Lookup(files1, "GET", Single(formType)) == Lookup(files2, "GET", Single(formType))
  {
  }

  /** Two stores that agree on the mapped file give the same answer: no other file is read. */
  lemma LookupReadsOnlyMappedFile(files1: ProductFiles, files2: ProductFiles, formType: string, file: string)
    requires LookupFile(formType) == Some(file)
    requires file in files1 <==> file in files2
    requires file in files1 ==> files1[file] == files2[file]
    ensures Lookup(files1, "GET", Single(formType)) == Lookup(files2, "GET", Single(formType))
  {
  }

  /** A list not uploaded yet reads as empty; an uploaded one is returned as stored. */
  lemma LookupVerbatim(files: ProductFiles, formType: string, file: string)
    requires LookupFile(formType) == Some(file)
    ensures file !in files ==> Lookup(files, "GET", Single(formType)) == Products([])
    ensures file in files && files[file].Parsed? ==>
              Lookup(files, "GET", Single(formType)) == Products(files[file].items)
    ensures file in files && files[file].Unparsable? ==> LookupStatus(Lookup(files, "GET", Single(formType))) == 500
  {
  }

  /** The two lookups of a pair of sibling types always agree. */
  lemma SiblingsShareList(files: ProductFiles)
    ensures Lookup(files, "GET", Single("receipt")) == Lookup(files, "GET", Single("issuance"))
    ensures Lookup(files, "GET", Single("production")) == Lookup(files, "GET", Single("dc-entry"))
  {
  }
}
