/** The `_tokens` handlers of lib/handlers.js: log in (post), look up (get),
    extend (put), log out (delete), and `verifyToken`, the gate every user
    and check operation passes. `Date.now()` is the parameter `now`
    (milliseconds); each handler reads the clock once. */
module TokensApi {
  import opened JsValues
  import opened DataStore
  import opened Validation
  import opened Http
  import Helpers
  import Config

  /** One hour, in milliseconds. */
  const TokenLifetime: int := 1000 * 60 * 60

  /** A 20-character id drawn from the random-string alphabet. */
  predicate IsRandomId(s: string) {
    |s| == 20 && forall i :: 0 <= i < |s| ==> s[i] in Helpers.PossibleCharacters
  }

  /** `{ id, expires, phone }` as the login handler stores it. */
  function TokenRecord(id: string, phone: string, expires: int): Record {
    map["id" := Str(id), "expires" := Int(expires), "phone" := Str(phone)]
  }

  /** `tokenData.expires > now`. Only a numeric `expires` is compared. */
  predicate NotExpired(expires: Value, now: int) {
    expires.Num? && expires.n > now as real
  }

  /** `_tokens.verifyToken(id, phone)`: never an error, always a verdict. */
  function VerifyToken(records: map<Key, Record>, id: string, phone: Value, now: int): (valid: bool)
    ensures id == "" || !Truthy(phone) || (Tokens, id) !in records ==> !valid
    ensures valid <==>
      && id != "" && Truthy(phone) && (Tokens, id) in records
      && Prop(records[(Tokens, id)], "phone") == phone
      && NotExpired(Prop(records[(Tokens, id)], "expires"), now)
  {
    if id == "" || !Truthy(phone) then false
    else if (Tokens, id) !in records then false
    else
      var t := records[(Tokens, id)];
      Prop(t, "phone") == phone && NotExpired(Prop(t, "expires"), now)
  }

  /** A token just issued for a phone verifies for that phone for exactly
      the next hour. */
  lemma IssuedTokenVerifiesForAnHour(records: map<Key, Record>, id: string, phone: string, issued: int, at: int)
    requires id != "" && phone != ""
    ensures var r := records[(Tokens, id) := TokenRecord(id, phone, issued + TokenLifetime)];
      VerifyToken(r, id, Str(phone), at) <==> at < issued + TokenLifetime
  {
  }

  /** A token verifies for one phone only. */
  lemma VerifiedOwnerIsUnique(records: map<Key, Record>, id: string, p: Value, q: Value, now: int, later: int)
    requires VerifyToken(records, id, p, now) && VerifyToken(records, id, q, later)
    ensures p == q
  {
  }

  /** A token that has expired stays expired. */
  lemma ExpiryIsPermanent(records: map<Key, Record>, id: string, phone: Value, now: int, later: int)
    requires now <= later && !VerifyToken(records, id, phone, now)
    ensures !VerifyToken(records, id, phone, later)
  {
  }

  /** The hash the login compares against the stored `hashedPassword`. */
  function PasswordMatches(records: map<Key, Record>, phone: string, password: string,
                           hmac: (string, string) -> string, secret: string): bool
    requires (Users, phone) in records
  {
    Str(Helpers.Hash(hmac, secret, Str(password))) == Prop(records[(Users, phone)], "hashedPassword")
  }

  /** The replies and store changes of `_tokens.post`. */
  ghost predicate PostReply(before: map<Key, Record>, after: map<Key, Record>, cfg: Config.Environment,
                           hmac: (string, string) -> string, payload: Record, now: int, reply: Reply) {
    var phone := TrimmedOfLength(Prop(payload, "phone"), 10);
    var password := TrimmedString(Prop(payload, "password"));
    && (phone == "" || password == "" ==>
          reply == ErrorReply(400, "Missing required field(s)"))
    && (phone != "" && password != "" && (Users, phone) !in before ==>
          reply == ErrorReply(400, "Could not find the specified user"))
    && (phone != "" && password != "" && (Users, phone) in before
        && !PasswordMatches(before, phone, password, hmac, cfg.hashingSecret) ==>
          reply == ErrorReply(401, "Password did not match the specified user's stored password"))
    && (phone != "" && password != "" && (Users, phone) in before
        && PasswordMatches(before, phone, password, hmac, cfg.hashingSecret) ==>
          HasStatus(reply, 200) || reply == ErrorReply(500, "Could not create the new token"))
    && (HasStatus(reply, 200) ==> TokenCreated(before, after, phone, now, reply))
    && (!HasStatus(reply, 200) ==> after == before)
  }

  /** `_tokens.post`: log in with phone and password. */
  method Post(db: Store, cfg: Config.Environment, hmac: (string, string) -> string,
              payload: Record, now: int) returns (reply: Reply)
    modifies db
    ensures PostReply(old(db.records), db.records, cfg, hmac, payload, now, reply)
  {
    var phone := TrimmedOfLength(Prop(payload, "phone"), 10);
    var password := TrimmedString(Prop(payload, "password"));
    if phone == "" || password == "" {
      return ErrorReply(400, "Missing required field(s)");
    }
    var userData := db.Read(Users, phone);
    if userData.None? {
      return ErrorReply(400, "Could not find the specified user");
    }
    var hashedPassword := Helpers.Hash(hmac, cfg.hashingSecret, Str(password));
    if Str(hashedPassword) != Prop(userData.value, "hashedPassword") {
      return ErrorReply(401, "Password did not match the specified user's stored password");
    }
    reply := CreateToken(db, phone, now);
  }

  /** A successful login: a fresh random id, the token stored under it
      and returned, valid for an hour from `now`. */
  ghost predicate TokenCreated(before: map<Key, Record>, after: map<Key, Record>, phone: string, now: int,
                               reply: Reply) {
    exists id :: IsRandomId(id) && (Tokens, id) !in before
      && reply.payload == Obj(TokenRecord(id, phone, now + TokenLifetime))
      && after == before[(Tokens, id) := TokenRecord(id, phone, now + TokenLifetime)]
  }

  /** The last step of `_tokens.post`: the token stored under a fresh id. */
  method CreateToken(db: Store, phone: string, now: int) returns (reply: Reply)
    modifies db
    ensures HasStatus(reply, 200) || reply == ErrorReply(500, "Could not create the new token")
    ensures HasStatus(reply, 200) ==> TokenCreated(old(db.records), db.records, phone, now, reply)
    ensures !HasStatus(reply, 200) ==> db.records == old(db.records)
  {
    var tokenId := Helpers.CreateRandomString(Int(20));
    var expires := now + TokenLifetime;
    var tokenObject := TokenRecord(tokenId, phone, expires);
    var err := db.Create(Tokens, tokenId, tokenObject);
    if err {
      reply := ErrorReply(500, "Could not create the new token");
    } else {
      assert IsRandomId(tokenId);
      reply := Reply(Int(200), Obj(tokenObject));
    }
  }

  /** The replies of `_tokens.get`. */
  predicate GetReply(records: map<Key, Record>, query: map<string, string>, reply: Reply) {
    var id := TrimmedOfLength(QueryParam(query, "id"), 20);
    && (id == "" ==> reply == ErrorReply(400, "Missing required field"))
    && (id != "" && (Tokens, id) !in records ==> reply == StatusOnly(404))
    && (id != "" && (Tokens, id) in records ==> reply == Reply(Int(200), Obj(records[(Tokens, id)])))
  }

  /** `_tokens.get`: the stored token, by the `id` query parameter. */
  method Get(db: Store, query: map<string, string>) returns (reply: Reply)
    ensures GetReply(db.records, query, reply)
  {
    var id := TrimmedOfLength(QueryParam(query, "id"), 20);
    if id == "" {
      return ErrorReply(400, "Missing required field");
    }
    var tokenData := db.Read(Tokens, id);
    if tokenData.None? {
      reply := StatusOnly(404);
    } else {
      reply := Reply(Int(200), Obj(tokenData.value));
    }
  }

  /** The token with its expiry moved to an hour after `now`. */
  function Extended(token: Record, now: int): (r: Record)
    ensures Prop(r, "expires") == Int(now + TokenLifetime)
    ensures forall k :: k != "expires" ==> Prop(r, k) == Prop(token, k)
  {
    SetProp(token, "expires", Int(now + TokenLifetime))
  }

  /** The replies and store changes of `_tokens.put`. */
  predicate PutReply(before: map<Key, Record>, after: map<Key, Record>, payload: Record, now: int, reply: Reply) {
    var id := TrimmedOfLength(Prop(payload, "id"), 20);
    var extend := Boolean(Prop(payload, "extend"));
    && (id == "" || !extend ==>
          reply == ErrorReply(400, "Missing required field(s) or field(s) are invalid")
          && after == before)
    && (id != "" && extend && (Tokens, id) !in before ==>
          reply == ErrorReply(400, "The specified token does not exist")
          && after == before)
    && (id != "" && extend && (Tokens, id) in before
        && !NotExpired(Prop(before[(Tokens, id)], "expires"), now) ==>
          reply == ErrorReply(400, "The token has expired, and cannot be extended")
          && after == before)
    && (id != "" && extend && (Tokens, id) in before
        && NotExpired(Prop(before[(Tokens, id)], "expires"), now) ==>
          reply == StatusOnly(200)
          && after == before[(Tokens, id) := Extended(before[(Tokens, id)], now)])
  }

  /** `_tokens.put`: extend a live token by an hour from now. */
  method Put(db: Store, payload: Record, now: int) returns (reply: Reply)
    modifies db
    ensures PutReply(old(db.records), db.records, payload, now, reply)
  {
    var id := TrimmedOfLength(Prop(payload, "id"), 20);
    var extend := Boolean(Prop(payload, "extend"));
    if id == "" || !extend {
      return ErrorReply(400, "Missing required field(s) or field(s) are invalid");
    }
    var tokenData := db.Read(Tokens, id);
    if tokenData.None? {
      return ErrorReply(400, "The specified token does not exist");
    }
    if !NotExpired(Prop(tokenData.value, "expires"), now) {
      return ErrorReply(400, "The token has expired, and cannot be extended");
    }
    var err := db.Update(Tokens, id, Extended(tokenData.value, now));
    if err {
      reply := ErrorReply(500, "Could not update the token's expiration");
    } else {
      reply := StatusOnly(200);
    }
  }

  /** An extended token verifies for its owner for the following hour. */
  lemma ExtendedTokenVerifies(records: map<Key, Record>, id: string, now: int, at: int)
    requires (Tokens, id) in records && id != ""
    requires Truthy(Prop(records[(Tokens, id)], "phone"))
    requires now <= at < now + TokenLifetime
    ensures var r := records[(Tokens, id) := Extended(records[(Tokens, id)], now)];
      VerifyToken(r, id, Prop(records[(Tokens, id)], "phone"), at)
  {
  }

  /** The replies and store changes of `_tokens.delete`. */
  predicate DeleteReply(before: map<Key, Record>, after: map<Key, Record>, query: map<string, string>, reply: Reply) {
    var id := TrimmedOfLength(QueryParam(query, "id"), 20);
    && (id == "" ==> reply == ErrorReply(400, "Missing required field") && after == before)
    && (id != "" && (Tokens, id) !in before ==>
          reply == ErrorReply(400, "Could not find the specified token") && after == before)
    && (id != "" && (Tokens, id) in before ==>
          reply == StatusOnly(200) && after == before - {(Tokens, id)})
  }

  /** `_tokens.delete`: log out, by the `id` query parameter. */
  method Delete(db: Store, query: map<string, string>) returns (reply: Reply)
    modifies db
    ensures DeleteReply(old(db.records), db.records, query, reply)
  {
    var id := TrimmedOfLength(QueryParam(query, "id"), 20);
    if id == "" {
      return ErrorReply(400, "Missing required field");
    }
    var tokenData := db.Read(Tokens, id);
    if tokenData.None? {
      return ErrorReply(400, "Could not find the specified token");
    }
    var err := db.Delete(Tokens, id);
    if err {
      reply := ErrorReply(500, "Could not delete the specified token");
    } else {
      reply := StatusOnly(200);
    }
  }
}
