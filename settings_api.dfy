/**
 * The settings endpoint (`/api/settings`): the stored submission endpoint,
 * read with a default on first use and overwritten by a POST whose
 * `endpoint` is a string.
 */
module SettingsApi {
  import opened Wrappers
  import opened Json

  datatype Settings = Settings(endpoint: string)

  /** The settings written and returned when none are stored yet. */
  const DefaultSettings := Settings("")

  datatype SettingsResponse =
    | Current(settings: Settings)
    | Saved(settings: Settings)
    | InvalidEndpoint
    | ServerError
    | MethodNotAllowed(httpMethod: string)

  function SettingsStatus(r: SettingsResponse): int
  {
    match r
    case Current(_) => 200
    case Saved(_) => 200
    case InvalidEndpoint => 400
    case ServerError => 500
    case MethodNotAllowed(_) => 405
  }

  /** The response and the new stored settings of one request. */
  datatype Outcome = Outcome(response: SettingsResponse, stored: Option<Settings>)

  /** The handler on the stored settings (`None` when the file does not exist yet). */
  function Handle(stored: Option<Settings>, httpMethod: string, body: Json): (out: Outcome)
    ensures out.response.Current? || out.response.Saved? ==> out.stored == Some(out.response.settings)
  {
    if httpMethod == "GET" then
      match stored
      case None => Outcome(Current(DefaultSettings), Some(DefaultSettings))
      case Some(settings) => Outcome(Current(settings), stored)
    else if httpMethod == "POST" then
      match Property(body, "endpoint")
      case None => Outcome(ServerError, stored)
      case Some(Str(endpoint)) => Outcome(Saved(Settings(endpoint)), Some(Settings(endpoint)))
      case Some(_) => Outcome(InvalidEndpoint, stored)
    else
      Outcome(MethodNotAllowed(httpMethod), stored)
  }

  /** The store changes only on a GET that finds nothing (the default is written) and on an accepted POST. */
  lemma StoreChangesOnlyWhen(stored: Option<Settings>, httpMethod: string, body: Json)
    ensures Handle(stored, httpMethod, body).stored != stored <==>
              (httpMethod == "GET" && stored.None?)
              || (httpMethod == "POST" && Handle(stored, httpMethod, body).response.Saved?
                  && stored != Some(Handle(stored, httpMethod, body).response.settings))
  {
  }

  /**
   * A GET with no settings stored yet writes and returns the empty endpoint,
   * which a client reads as "no endpoint configured".
   */
  lemma FirstGetWritesDefault(body: Json)
    ensures Handle(None, "GET", body) == Outcome(Current(Settings("")), Some(Settings("")))
    ensures SettingsStatus(Handle(None, "GET", body).response) == 200
  {
  }

  /** A POST is accepted exactly when `endpoint` is a string, the empty string included, and then it is stored as sent. */
  lemma PostAcceptsStrings(stored: Option<Settings>, body: Json)
    ensures Handle(stored, "POST", body).response.Saved?
            <==> body.Obj? && "endpoint" in body.fields && body.fields["endpoint"].Str?
    ensures body.Obj? && "endpoint" in body.fields && body.fields["endpoint"].Str? ==>
              var saved := Settings(body.fields["endpoint"].s);
              Handle(stored, "POST", body) == Outcome(Saved(saved), Some(saved))
  {
  }

  /** A body with a non-string `endpoint`, or none, is refused with 400 and nothing is stored. */
  lemma PostRejectsOthers(stored: Option<Settings>, body: Json)
    requires !body.Undefined? && !body.Null?
    requires !(body.Obj? && "endpoint" in body.fields && body.fields["endpoint"].Str?)
    ensures Handle(stored, "POST", body) == Outcome(InvalidEndpoint, stored)
  {
  }

  /** Whatever is stored, a GET returns what is stored afterwards, and a second GET changes nothing. */
  lemma GetIsIdempotent(stored: Option<Settings>, body1: Json, body2: Json)
    ensures var first := Handle(stored, "GET", body1);
            first.stored.Some? && first.response == Current(first.stored.value)
            && Handle(first.stored, "GET", body2) == first
  {
  }

  /** Any method other than GET and POST is refused with 405, naming the method, and nothing is stored. */
  lemma OtherMethodsRefused(stored: Option<Settings>, httpMethod: string, body: Json)
    requires httpMethod != "GET" && httpMethod != "POST"
    ensures Handle(stored, httpMethod, body) == Outcome(MethodNotAllowed(httpMethod), stored)
    ensures SettingsStatus(Handle(stored, httpMethod, body).response) == 405
  {
  }

  /** A GET always answers 200, and a POST answers 200, 400 or 500 as the body is a string `endpoint`, another value, or no object at all. */
  lemma StatusCodes(stored: Option<Settings>, httpMethod: string, body: Json)
    ensures httpMethod == "GET" ==> SettingsStatus(Handle(stored, httpMethod, body).response) == 200
    ensures httpMethod == "POST" ==>
              SettingsStatus(Handle(stored, httpMethod, body).response)
              == (if body.Undefined? || body.Null? then 500
                  else if body.Obj? && "endpoint" in body.fields && body.fields["endpoint"].Str? then 200
                  else 400)
  {
  }

  /** After a POST of `{endpoint: x}`, a GET returns `{endpoint: x}`. */
  lemma PostThenGet(stored: Option<Settings>, x: string, getBody: Json)
    ensures var posted := Handle(stored, "POST", Obj(map["endpoint" := Str(x)]));
            Handle(posted.stored, "GET", getBody).response == Current(Settings(x))
  {
  }

  /** The settings file. */
  class SettingsStore {
    var stored: Option<Settings>

    constructor()
      ensures stored.None?
    {
      stored := None;
    }

    /** The handler, writing the file where the source does. */
    method Serve(httpMethod: string, body: Json) returns (resp: SettingsResponse)
      modifies this
      ensures Outcome(resp, stored) == Handle(old(stored), httpMethod, body)
    {
      if httpMethod == "GET" {
        if stored.None? {
          stored := Some(DefaultSettings);
          return Current(DefaultSettings);
        }
        return Current(stored.value);
      } else if httpMethod == "POST" {
        var endpoint := Property(body, "endpoint");
        if endpoint.None? {
          return ServerError;
        }
        if !endpoint.value.Str? {
          return InvalidEndpoint;
        }
        var settings := Settings(endpoint.value.s);
        stored := Some(settings);
        return Saved(settings);
      } else {
        return MethodNotAllowed(httpMethod);
      }
    }
  }
}
