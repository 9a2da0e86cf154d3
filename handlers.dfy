/** The top-level request handlers of lib/handlers.js: `ping`, `notFound`,
    the content type `public` chooses for a static asset, and the
    `users`, `tokens` and `checks` dispatchers that hand an accepted HTTP
    method to its sub-handler and answer 405 to any other. */
module Handlers {
  import opened JsValues
  import opened JsStrings
  import opened DataStore
  import opened Http
  import Validation
  import Config
  import Helpers
  import UsersApi
  import TokensApi
  import ChecksApi

  /** `handlers.ping`: always 200. */
  function Ping(data: Request): (reply: Reply)
    ensures HasStatus(reply, 200) && reply.payload == Undefined
  {
    StatusOnly(200)
  }

  /** `handlers.notFound`: always 404. */
  function NotFound(data: Request): (reply: Reply)
    ensures HasStatus(reply, 404) && reply.payload == Undefined
  {
    StatusOnly(404)
  }

  /** The asset a `public/...` path asks for: the first `public/` removed. */
  function AssetName(trimmedPath: string): string {
    ReplaceFirst(trimmedPath, "public/", "")
  }

  /** The content type `public` reports for an asset: `plain` unless the
      name mentions an image or stylesheet extension; when it mentions
      several, the later test in the source wins. */
  method ContentType(assetName: string) returns (contentType: string)
    ensures Includes(assetName, ".ico") ==> contentType == "favicon"
    ensures !Includes(assetName, ".ico") && Includes(assetName, ".jpg") ==> contentType == "jpg"
    ensures !Includes(assetName, ".ico") && !Includes(assetName, ".jpg") && Includes(assetName, ".png") ==>
      contentType == "png"
    ensures (!Includes(assetName, ".ico") && !Includes(assetName, ".jpg") && !Includes(assetName, ".png")
             && Includes(assetName, ".css")) ==> contentType == "css"
    ensures contentType == "plain" <==>
      !Includes(assetName, ".css") && !Includes(assetName, ".png")
      && !Includes(assetName, ".jpg") && !Includes(assetName, ".ico")
  {
    contentType := "plain";
    if Includes(assetName, ".css") {
      contentType := "css";
    }
    if Includes(assetName, ".png") {
      contentType := "png";
    }
    if Includes(assetName, ".jpg") {
      contentType := "jpg";
    }
    if Includes(assetName, ".ico") {
      contentType := "favicon";
    }
  }

  /** `acceptableMethods.indexOf(data.method) > -1` */
  predicate Acceptable(httpMethod: string) {
    httpMethod in Validation.Methods
  }

  /** What `handlers.users` does with a request: an accepted method is
      handed to the `_users` handler of that name, any other answers 405
      and changes nothing. */
  predicate UsersOutcome(before: map<Key, Record>, after: map<Key, Record>, cfg: Config.Environment,
                         hmac: (string, string) -> string, data: Request, now: int, reply: Reply) {
    match data.httpMethod
    case "post" => UsersApi.PostReply(before, after, cfg, hmac, data.payload, reply)
    case "get" => UsersApi.GetReply(before, data.query, data.headers, now, reply) && after == before
    case "put" => UsersApi.PutReply(before, after, cfg, hmac, data.payload, data.headers, now, reply)
    case "delete" => UsersApi.DeleteReply(before, after, data.query, data.headers, now, reply)
    case _ => reply == StatusOnly(405) && after == before
  }

  /** `handlers.users` */
  method Users(db: Store, cfg: Config.Environment, hmac: (string, string) -> string, data: Request, now: int)
    returns (reply: Reply)
    modifies db
    ensures UsersOutcome(old(db.records), db.records, cfg, hmac, data, now, reply)
  {
    match data.httpMethod
    case "post" => reply := UsersApi.Post(db, cfg, hmac, data.payload);
    case "get" => reply := UsersApi.Get(db, data.query, data.headers, now);
    case "put" => reply := UsersApi.Put(db, cfg, hmac, data.payload, data.headers, now);
    case "delete" => reply := UsersApi.Delete(db, data.query, data.headers, now);
    case _ => reply := StatusOnly(405);
  }

  /** What `handlers.tokens` does with a request: an accepted method is
      handed to the `_tokens` handler of that name, any other answers 405
      and changes nothing. */
  ghost predicate TokensOutcome(before: map<Key, Record>, after: map<Key, Record>, cfg: Config.Environment,
                                hmac: (string, string) -> string, data: Request, now: int, reply: Reply) {
    match data.httpMethod
    case "post" => TokensApi.PostReply(before, after, cfg, hmac, data.payload, now, reply)
    case "get" => TokensApi.GetReply(before, data.query, reply) && after == before
    case "put" => TokensApi.PutReply(before, after, data.payload, now, reply)
    case "delete" => TokensApi.DeleteReply(before, after, data.query, reply)
    case _ => reply == StatusOnly(405) && after == before
  }

  /** `handlers.tokens` */
  method Tokens(db: Store, cfg: Config.Environment, hmac: (string, string) -> string, data: Request, now: int)
    returns (reply: Reply)
    modifies db
    ensures TokensOutcome(old(db.records), db.records, cfg, hmac, data, now, reply)
  {
    match data.httpMethod
    case "post" => reply := TokensApi.Post(db, cfg, hmac, data.payload, now);
    case "get" => reply := TokensApi.Get(db, data.query);
    case "put" => reply := TokensApi.Put(db, data.payload, now);
    case "delete" => reply := TokensApi.Delete(db, data.query);
    case _ => reply := StatusOnly(405);
  }

  /** What `handlers.checks` does with a request: an accepted method is
      handed to the `_checks` handler of that name, any other answers 405
      and changes nothing. */
  ghost predicate ChecksOutcome(before: map<Key, Record>, after: map<Key, Record>, cfg: Config.Environment,
                                data: Request, now: int, resolves: (string, string) -> bool, reply: Reply) {
    match data.httpMethod
    case "post" => ChecksApi.PostReply(before, after, cfg, data.payload, data.headers, now, resolves, reply)
    case "get" => ChecksApi.GetReply(before, data.query, data.headers, now, reply) && after == before
    case "put" => ChecksApi.PutReply(before, after, data.payload, data.headers, now, reply)
    case "delete" => ChecksApi.DeleteReply(before, after, data.query, data.headers, now, reply)
    case _ => reply == StatusOnly(405) && after == before
  }

  /** `handlers.checks` */
  method Checks(db: Store, cfg: Config.Environment, data: Request, now: int,
                resolves: (string, string) -> bool) returns (reply: Reply)
    modifies db
    ensures ChecksOutcome(old(db.records), db.records, cfg, data, now, resolves, reply)
  {
    match data.httpMethod
    case "post" => reply := ChecksApi.Post(db, cfg, data.payload, data.headers, now, resolves);
    case "get" => reply := ChecksApi.Get(db, data.query, data.headers, now);
    case "put" => reply := ChecksApi.Put(db, data.payload, data.headers, now);
    case "delete" => reply := ChecksApi.Delete(db, data.query, data.headers, now);
    case _ => reply := StatusOnly(405);
  }
}
