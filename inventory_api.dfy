/**
 * The raw-material inventory endpoint (`/api/rm-inventory`): the stored
 * snapshot, read with an empty default and replaced wholesale by a POST of
 * an array, stamped with the time of the upload.
 */
module InventoryApi {
  import opened Wrappers
  import opened Json

  /** What the file holds: the time of the last upload and the items as sent. */
  datatype Snapshot = Snapshot(lastUpdated: string, items: seq<Json>)

  datatype InventoryResponse =
    | Data(lastUpdated: Option<string>, items: seq<Json>)
    | Saved(savedAt: string, itemCount: nat)
    | NotAnArray
    | MethodNotAllowed(httpMethod: string)

  function InventoryStatus(r: InventoryResponse): int
  {
    match r
    case Data(_, _) => 200
    case Saved(_, _) => 200
    case NotAnArray => 400
    case MethodNotAllowed(_) => 405
  }

  datatype Outcome = Outcome(response: InventoryResponse, snapshot: Option<Snapshot>)

  /** The handler on the stored snapshot; `now` is the formatted time of the request. */
  function Handle(snapshot: Option<Snapshot>, httpMethod: string, body: Json, now: string): (out: Outcome)
    ensures out.response.Data? ==> out.snapshot == snapshot
    ensures out.response.Saved? ==>
              body.Arr? && out.snapshot == Some(Snapshot(now, body.elems)) && out.response.itemCount == |body.elems|
  {
    if httpMethod == "GET" then
      match snapshot
      case None => Outcome(Data(None, []), snapshot)
      case Some(s) => Outcome(Data(Some(s.lastUpdated), s.items), snapshot)
    else if httpMethod == "POST" then
      match body
      case Arr(items) => Outcome(Saved(now, |items|), Some(Snapshot(now, items)))
      case _ => Outcome(NotAnArray, snapshot)
    else
      Outcome(MethodNotAllowed(httpMethod), snapshot)
  }

  /** Only a POST of an array changes the snapshot, and it replaces it with exactly that array and `now`. */
  lemma OnlyArrayPostWrites(snapshot: Option<Snapshot>, httpMethod: string, body: Json, now: string)
    ensures var out := Handle(snapshot, httpMethod, body, now);
            out.snapshot == (if httpMethod == "POST" && body.Arr? then Some(Snapshot(now, body.elems)) else snapshot)
    ensures httpMethod == "POST" && !body.Arr? ==> InventoryStatus(Handle(snapshot, httpMethod, body, now).response) == 400
    ensures httpMethod != "POST" && httpMethod != "GET" ==>
              InventoryStatus(Handle(snapshot, httpMethod, body, now).response) == 405
  {
  }

  /** Before any upload a GET answers no timestamp and no items. */
  lemma EmptyBeforeFirstUpload(body: Json, now: string)
    ensures Handle(None, "GET", body, now) == Outcome(Data(None, []), None)
  {
  }

  /** The POST response reports the stored timestamp and the number of items stored. */
  lemma PostReportsStored(snapshot: Option<Snapshot>, items: seq<Json>, now: string)
    ensures var out := Handle(snapshot, "POST", Arr(items), now);
            out.snapshot.Some? && out.response.Saved?
            && out.response.savedAt == out.snapshot.value.lastUpdated
            && out.response.itemCount == |out.snapshot.value.items|
  {
  }

  /** A GET after a POST of an array returns that array and the POST's timestamp, whenever the GET comes. */
  lemma PostThenGet(snapshot: Option<Snapshot>, items: seq<Json>, now: string, getBody: Json, later: string)
    ensures var posted := Handle(snapshot, "POST", Arr(items), now);
            Handle(posted.snapshot, "GET", getBody, later).response == Data(Some(now), items)
  {
  }

  /** The inventory file. */
  class InventoryStore {
    var snapshot: Option<Snapshot>

    constructor()
      ensures snapshot.None?
    {
      snapshot := None;
    }

    /** The handler; the clock is read by the caller and passed in as `now`. */
    method Serve(httpMethod: string, body: Json, now: string) returns (resp: InventoryResponse)
      modifies this
      ensures Outcome(resp, snapshot) == Handle(old(snapshot), httpMethod, body, now)
    {
      if httpMethod == "GET" {
        if snapshot.None? {
          return Data(None, []);
        }
        return Data(Some(snapshot.value.lastUpdated), snapshot.value.items);
      } else if httpMethod == "POST" {
        if !body.Arr? {
          return NotAnArray;
        }
        var items := body.elems;
        var lastUpdated := now;
        snapshot := Some(Snapshot(lastUpdated, items));
        return Saved(lastUpdated, |items|);
      } else {
        return MethodNotAllowed(httpMethod);
      }
    }
  }
}
