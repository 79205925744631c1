/**
 * The profile service's answer to a gamertag request, and how the
 * gamertag is extracted from it (getGamertagFromXUID in mpsd/friend.go).
 * Building the request and performing the HTTP exchange are I/O: the model
 * receives their outcome as an `Exchange` value.
 */
module Profile {
  import opened Wrappers

  /** The HTTP status code the profile service answers with on success. */
  const StatusOK: int := 200

  /** One entry of `settings`: the JSON object `{"value": ...}`. */
  datatype Setting = Setting(value: string)

  /** One entry of `profileUsers`. */
  datatype ProfileUser = ProfileUser(settings: seq<Setting>)

  /** The decoded body `{"profileUsers": [{"settings": [{"value": ...}]}]}`. */
  datatype SettingsResponse = SettingsResponse(profileUsers: seq<ProfileUser>)

  /** The response body as the JSON decoder sees it: decoded, or refused with a reason. */
  datatype Body = Decoded(response: SettingsResponse) | Undecodable(cause: string)

  datatype HttpResponse = HttpResponse(statusCode: int, body: Body)

  /** What happened to the request: never built, failed in transit, or answered. */
  datatype Exchange =
    | RequestNotCreated(cause: string)
    | RequestFailed(cause: string)
    | Answered(response: HttpResponse)

  /** The ways a gamertag lookup fails, one per error return of getGamertagFromXUID. */
  datatype LookupError =
    | CreateRequest(cause: string)
    | ExecuteRequest(cause: string)
    | UnexpectedStatus(statusCode: int)
    | DecodeResponse(cause: string)
    | GamertagNotFound(xuid: string)

  /** The decoded body has a first profile user with a first setting. */
  predicate HasGamertag(r: SettingsResponse)
  {
    |r.profileUsers| > 0 && |r.profileUsers[0].settings| > 0
  }

  /**
   * The gamertag carried by an HTTP answer about `xuid`: the status is
   * checked before the body, the body is decoded before it is searched, and
   * only the first setting of the first profile user is ever read.
   */
  function ExtractGamertag(xuid: string, resp: HttpResponse): (r: Result<string, LookupError>)
    ensures resp.statusCode != StatusOK ==> r == Err(UnexpectedStatus(resp.statusCode))
    ensures resp.statusCode == StatusOK && resp.body.Undecodable? ==> r == Err(DecodeResponse(resp.body.cause))
    ensures r.Ok? <==> resp.statusCode == StatusOK && resp.body.Decoded? && HasGamertag(resp.body.response)
    ensures r.Ok? ==> r.value == resp.body.response.profileUsers[0].settings[0].value
    ensures resp.statusCode == StatusOK && resp.body.Decoded? && !HasGamertag(resp.body.response) ==>
              r == Err(GamertagNotFound(xuid))
  {
    if resp.statusCode != StatusOK then
      Err(UnexpectedStatus(resp.statusCode))
    else
      match resp.body
      case Undecodable(cause) => Err(DecodeResponse(cause))
      case Decoded(response) =>
        if HasGamertag(response) then Ok(response.profileUsers[0].settings[0].value)
        else Err(GamertagNotFound(xuid))
  }

  /** The whole lookup: a request that was never built or never answered is an error of its own kind. */
  function GamertagFromXUID(xuid: string, exchange: Exchange): (r: Result<string, LookupError>)
    ensures exchange.RequestNotCreated? ==> r == Err(CreateRequest(exchange.cause))
    ensures exchange.RequestFailed? ==> r == Err(ExecuteRequest(exchange.cause))
    ensures exchange.Answered? ==> r == ExtractGamertag(xuid, exchange.response)
  {
    match exchange
    case RequestNotCreated(cause) => Err(CreateRequest(cause))
    case RequestFailed(cause) => Err(ExecuteRequest(cause))
    case Answered(resp) => ExtractGamertag(xuid, resp)
  }

  /**
   * The lookup function the friend listings are given, built from the
   * network's behaviour: `network(x)` is what happens to the request for `x`.
   */
  function ProfileLookup(network: string -> Exchange): (lookup: string -> Result<string, LookupError>)
  {
    x => GamertagFromXUID(x, network(x))
  }

  /** A non-200 answer is an error whatever its body holds, even a body that cannot be decoded. */
  lemma StatusCheckedBeforeBody(xuid: string, statusCode: int, b1: Body, b2: Body)
    requires statusCode != StatusOK
    ensures ExtractGamertag(xuid, HttpResponse(statusCode, b1)).Err?
    ensures ExtractGamertag(xuid, HttpResponse(statusCode, b1)) == ExtractGamertag(xuid, HttpResponse(statusCode, b2))
  {
  }

  /**
   * The first setting of the first profile user is returned verbatim; later
   * settings and later profile users are never looked at.
   */
  lemma FirstSettingWins(xuid: string, first: Setting, moreSettings: seq<Setting>, moreUsers: seq<ProfileUser>)
    ensures ExtractGamertag(xuid, HttpResponse(StatusOK, Decoded(SettingsResponse([ProfileUser([first] + moreSettings)] + moreUsers))))
            == Ok(first.value)
  {
  }

  /**
   * A first profile user without settings means "not found", even when a
   * later profile user does carry a setting.
   */
  lemma LaterUsersIgnored(xuid: string, moreUsers: seq<ProfileUser>)
    ensures ExtractGamertag(xuid, HttpResponse(StatusOK, Decoded(SettingsResponse([ProfileUser([])] + moreUsers))))
            == Err(GamertagNotFound(xuid))
  {
  }

  /** The XUID asked about shows only in the "not found" error; a found gamertag does not depend on it. */
  lemma XUIDOnlyNamesMissingGamertag(x1: string, x2: string, resp: HttpResponse)
    ensures ExtractGamertag(x1, resp).Ok? == ExtractGamertag(x2, resp).Ok?
    ensures ExtractGamertag(x1, resp).Ok? ==> ExtractGamertag(x1, resp) == ExtractGamertag(x2, resp)
    ensures ExtractGamertag(x1, resp) != ExtractGamertag(x2, resp) ==>
              ExtractGamertag(x1, resp) == Err(GamertagNotFound(x1)) && ExtractGamertag(x2, resp) == Err(GamertagNotFound(x2))
  {
  }
}
