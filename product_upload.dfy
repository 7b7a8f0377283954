/**
 * The product-list upload endpoint (`POST /api/admin/update-products`): the
 * request checks in their fixed order, the column reference, the row scan
 * and the overwrite of the list the form type maps to.
 */
module ProductUpload {
  import opened Wrappers
  import opened Text
  import opened ColumnRef
  import opened IntParse
  import opened Sheet
  import ProductLookup

  /** An uploaded spreadsheet: its sheets by name, each read as rows; or a file the reader cannot open. */
  datatype UploadedFile = Workbook(sheets: map<string, seq<Row>>) | Unreadable

  /** The multipart form: the first value of each field, `None` when the field is not sent. */
  datatype UploadForm = UploadForm(
    file: Option<UploadedFile>,
    formType: Option<string>,
    sheetName: Option<string>,
    columnRef: Option<string>)

  /** A request: its method and its body, `None` when the multipart body cannot be parsed. */
  datatype UploadRequest = UploadRequest(httpMethod: string, form: Option<UploadForm>)

  datatype UploadResponse =
    | MethodNotAllowed
    | MissingFields
    | SheetNotFound(name: string)
    | InvalidColumn(ref: string)
    | InvalidType
    | ServerError
    | Updated(count: nat, firstFew: seq<string>)

  function UploadStatus(r: UploadResponse): int
  {
    match r
    case MethodNotAllowed => 405
    case ServerError => 500
    case Updated(_, _) => 200
    case _ => 400
  }

  /** What the handler does: answer with an error, or overwrite `file` with `list`. */
  datatype Decision = Reject(response: UploadResponse) | Write(file: string, list: seq<string>)

  /** A text field is sent and is not the empty string (JavaScript truthiness). */
  predicate Present(field: Option<string>)
  {
    field.Some? && field.value != ""
  }

  /** The list an upload of a form type overwrites; `None` for a type the upload refuses. */
  function UploadFile(formType: string): (f: Option<string>)
    ensures f == Some(ProductLookup.ReceiptFile) <==> formType == "receipt" || formType == "issuance"
    ensures f == Some(ProductLookup.ProductionFile) <==> formType == "production"
    ensures f.Some? ==> f == Some(ProductLookup.ReceiptFile) || f == Some(ProductLookup.ProductionFile)
  {
    if formType == "receipt" || formType == "issuance" then Some(ProductLookup.ReceiptFile)
    else if formType == "production" then Some(ProductLookup.ProductionFile)
    else None
  }

  /** All four fields are sent, the text ones non-empty. */
  predicate FieldsPresent(form: UploadForm)
  {
    form.file.Some? && Present(form.formType) && Present(form.sheetName) && Present(form.columnRef)
  }

  /** The handler's checks, in the order it makes them, and the list it would write. */
  function Decide(req: UploadRequest): (d: Decision)
    ensures d.Reject? ==> !d.response.Updated?
    ensures d.Write? ==> req.form.Some? && req.form.value.formType.Some?
                         && UploadFile(req.form.value.formType.value) == Some(d.file)
  {
    if req.httpMethod != "POST" then Reject(MethodNotAllowed)
    else if req.form.None? then Reject(ServerError)
    else
      var form := req.form.value;
      if !FieldsPresent(form) then Reject(MissingFields)
      else match form.file.value
        case Unreadable => Reject(ServerError)
        case Workbook(sheets) =>
          var sheetName := form.sheetName.value;
          if sheetName !in sheets then Reject(SheetNotFound(sheetName))
          else match ColumnIndex(form.columnRef.value)
            case None => Reject(InvalidColumn(form.columnRef.value))
            case Some(col) =>
              var list := Extracted(sheets[sheetName], col);
              match UploadFile(form.formType.value)
              case None => Reject(InvalidType)
              case Some(file) => Write(file, list)
  }

  /**
   * The response to a decision: the error, or the success body with the
   * count of the written list and its first three entries (fewer when it is shorter).
   */
  function Respond(d: Decision): (r: UploadResponse)
    ensures d.Reject? ==> r == d.response
    ensures d.Write? ==> r.Updated? && r.count == |d.list|
    ensures d.Write? ==> |r.firstFew| == Min(3, |d.list|) && r.firstFew <= d.list
  {
    match d
    case Reject(response) => response
    case Write(_, list) => Updated(|list|, list[..Min(3, |list|)])
  }

  /** The store after a decision: the target list replaced wholesale, or nothing changed. */
  function Apply(files: ProductLookup.ProductFiles, d: Decision): ProductLookup.ProductFiles
  {
    match d
    case Reject(_) => files
    case Write(file, list) => files[file := ProductLookup.Parsed(list)]
  }

  /** The sheet and column of a form that names an existing sheet of a readable workbook. */
  predicate SheetFound(form: UploadForm)
    requires FieldsPresent(form)
  {
    form.file.value.Workbook? && form.sheetName.value in form.file.value.sheets
  }

  /** A method other than POST is refused with 405, whatever the body. */
  lemma NonPostRefused(req: UploadRequest)
    ensures req.httpMethod != "POST" <==> Decide(req) == Reject(MethodNotAllowed)
    ensures req.httpMethod != "POST" ==> UploadStatus(Respond(Decide(req))) == 405
  {
  }

  /** A missing or empty field of a parsed POST is refused with 400, before the file is read. */
  lemma MissingFieldsRefused(req: UploadRequest)
    requires req.httpMethod == "POST" && req.form.Some?
    ensures Decide(req) == Reject(MissingFields) <==> !FieldsPresent(req.form.value)
    ensures !FieldsPresent(req.form.value) ==> UploadStatus(Respond(Decide(req))) == 400
  {
  }

  /** A sheet the workbook does not have is refused with 400, naming the sheet. */
  lemma MissingSheetRefused(req: UploadRequest)
    requires req.httpMethod == "POST" && req.form.Some? && FieldsPresent(req.form.value)
    requires req.form.value.file.value.Workbook?
    ensures Decide(req).Reject? && Decide(req).response.SheetNotFound?
            <==> !SheetFound(req.form.value)
    ensures !SheetFound(req.form.value) ==> Decide(req) == Reject(SheetNotFound(req.form.value.sheetName.value))
    ensures !SheetFound(req.form.value) ==> UploadStatus(Respond(Decide(req))) == 400
  {
  }

  /** Once the sheet is found, the column reference is refused with 400 exactly when it does not resolve. */
  lemma BadColumnRefused(req: UploadRequest)
    requires req.httpMethod == "POST" && req.form.Some? && FieldsPresent(req.form.value)
    requires SheetFound(req.form.value)
    ensures Decide(req) == Reject(InvalidColumn(req.form.value.columnRef.value))
            <==> ColumnIndex(req.form.value.columnRef.value).None?
  {
    var form := req.form.value;
    var sheets := form.file.value.sheets;
    match ColumnIndex(form.columnRef.value)
    case None =>
    case Some(col) =>
      var list := Extracted(sheets[form.sheetName.value], col);
      assert Decide(req) == (match UploadFile(form.formType.value)
                             case None => Reject(InvalidType)
                             case Some(file) => Write(file, list));
  }

  /**
   * The form type is checked last: a refused type is reported only when every
   * other check has passed, and then exactly when the upload has no list for it.
   */
  lemma TypeCheckedLast(req: UploadRequest)
    ensures Decide(req) == Reject(InvalidType) <==>
              req.httpMethod == "POST" && req.form.Some? && FieldsPresent(req.form.value)
              && SheetFound(req.form.value) && ColumnIndex(req.form.value.columnRef.value).Some?
              && UploadFile(req.form.value.formType.value).None?
    ensures Decide(req) == Reject(InvalidType) ==> UploadStatus(Respond(Decide(req))) == 400
  {
  }

  /**
   * A list is written exactly when every check passes, and it is the row scan
   * of the named sheet at the resolved column, written to the list of the form type.
   */
  lemma WriteIff(req: UploadRequest)
    ensures Decide(req).Write? <==>
              req.httpMethod == "POST" && req.form.Some? && FieldsPresent(req.form.value)
              && SheetFound(req.form.value) && ColumnIndex(req.form.value.columnRef.value).Some?
              && UploadFile(req.form.value.formType.value).Some?
    ensures Decide(req).Write? ==>
              var form := req.form.value;
              Decide(req).file == UploadFile(form.formType.value).value
              && Decide(req).list
                 == Extracted(form.file.value.sheets[form.sheetName.value], ColumnIndex(form.columnRef.value).value)
  {
  }

  /** The answer has status 200 exactly when a list is written. */
  lemma SuccessIffWrite(req: UploadRequest)
    ensures UploadStatus(Respond(Decide(req))) == 200 <==> Decide(req).Write?
  {
  }

  /** A refused request changes nothing; a write touches only its own list. */
  lemma ApplyFrame(files: ProductLookup.ProductFiles, d: Decision, other: string)
    requires d.Write? ==> other != d.file
    ensures other in Apply(files, d) <==> other in files
    ensures other in files ==> Apply(files, d)[other] == files[other]
  {
  }

  /** Every list the upload writes is a valid list of non-empty trimmed names, at most one per row. */
  lemma WrittenListWellFormed(req: UploadRequest)
    requires Decide(req).Write?
    ensures forall k :: 0 <= k < |Decide(req).list| ==>
              Decide(req).list[k] != "" && IsTrimmed(Decide(req).list[k])
    ensures |Decide(req).list| <= |req.form.value.file.value.sheets[req.form.value.sheetName.value]|
  {
    var form := req.form.value;
    WriteIff(req);
    ExtractedEntries(form.file.value.sheets[form.sheetName.value], ColumnIndex(form.columnRef.value).value);
  }

  /**
   * The two maps from form type to list agree wherever the upload accepts
   * the type; the only type the lookup serves that the upload refuses is "dc-entry".
   */
  lemma MappingsAgree(formType: string)
    ensures UploadFile(formType).Some? ==> ProductLookup.LookupFile(formType) == UploadFile(formType)
    ensures ProductLookup.LookupFile(formType).Some? && UploadFile(formType).None? <==> formType == "dc-entry"
  {
  }

  /**
   * After a successful upload, looking up the uploaded type, or any type that
   * shares its list, returns exactly the uploaded list.
   */
  lemma UploadThenLookup(files: ProductLookup.ProductFiles, req: UploadRequest, formType: string)
    requires Decide(req).Write?
    requires ProductLookup.LookupFile(formType) == Some(Decide(req).file)
    ensures ProductLookup.Lookup(Apply(files, Decide(req)), "GET", ProductLookup.Single(formType)) == ProductLookup.Products(Decide(req).list)
  {
  }

  /** The uploaded type itself is one whose lookup reads the written list. */
  lemma UploadedTypeReadsBack(files: ProductLookup.ProductFiles, req: UploadRequest)
    requires Decide(req).Write?
    ensures ProductLookup.LookupFile(req.form.value.formType.value) == Some(Decide(req).file)
    ensures ProductLookup.Lookup(Apply(files, Decide(req)), "GET", ProductLookup.Single(req.form.value.formType.value)) == ProductLookup.Products(Decide(req).list)
  {
    WriteIff(req);
    MappingsAgree(req.form.value.formType.value);
    UploadThenLookup(files, req, req.form.value.formType.value);
  }

  /** Uploading a list leaves the other form family's list as it was. */
  lemma UploadKeepsOtherList(files: ProductLookup.ProductFiles, req: UploadRequest, formType: string)
    requires Decide(req).Write?
    requires ProductLookup.LookupFile(formType).Some? && ProductLookup.LookupFile(formType) != Some(Decide(req).file)
    ensures ProductLookup.Lookup(Apply(files, Decide(req)), "GET", ProductLookup.Single(formType)) == ProductLookup.Lookup(files, "GET", ProductLookup.Single(formType))
  {
  }

  /** The data directory the handler writes product lists into. */
  class ProductStore {
    var files: ProductLookup.ProductFiles

    constructor(initial: ProductLookup.ProductFiles)
      ensures files == initial
    {
      files := initial;
    }

    /** The handler, step by step as it runs. */
    method Upload(req: UploadRequest) returns (resp: UploadResponse)
      modifies this
      ensures resp == Respond(Decide(req))
      ensures files == Apply(old(files), Decide(req))
    {
      if req.httpMethod != "POST" {
        return MethodNotAllowed;
      }
      if req.form.None? {
        return ServerError;
      }
      var form := req.form.value;
      if form.file.None? || !Present(form.formType) || !Present(form.sheetName) || !Present(form.columnRef) {
        return MissingFields;
      }
      var formType, sheetName, columnRef := form.formType.value, form.sheetName.value, form.columnRef.value;
      if form.file.value.Unreadable? {
        return ServerError;
      }
      var sheets := form.file.value.sheets;
      if sheetName !in sheets {
        return SheetNotFound(sheetName);
      }
      var jsonData := sheets[sheetName];

      var colIndex: Option<int> := Some(-1);
      if AllLetters(columnRef) {
        colIndex := Some(DecodeCol(ToUpper(columnRef)));
      } else {
        colIndex := ParseInt(columnRef);
      }
      if colIndex.None? || colIndex.value < 0 {
        return InvalidColumn(columnRef);
      }
      assert colIndex == Some(ColumnIndex(columnRef).value as int);

      var productList := ExtractColumn(jsonData, colIndex.value);

      var targetFileName := "";
      if formType == "receipt" || formType == "issuance" {
        targetFileName := ProductLookup.ReceiptFile;
      } else if formType == "production" {
        targetFileName := ProductLookup.ProductionFile;
      } else {
        return InvalidType;
      }

      files := files[targetFileName := ProductLookup.Parsed(productList)];
      return Updated(|productList|, productList[..Min(3, |productList|)]);
    }
  }
}
