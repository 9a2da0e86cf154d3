/** The `_checks` handlers of lib/handlers.js: create (post), read (get),
    partial update (put) and delete a check, the URL a user asks the
    workers to probe. Every operation but create is gated by a token that
    verifies for the check's `userPhone`; create is gated by a live token
    and the owner's quota. `dns.resolve` of the URL's hostname is the
    parameter `resolves`. */
module ChecksApi {
  import opened JsValues
  import opened DataStore
  import opened Validation
  import opened Http
  import opened JsStrings
  import Helpers
  import Config
  import TokensApi
  import UsersApi

  // ---- the fields of a check, validated ----

  function Protocol(payload: Record): string { OneOf(Prop(payload, "protocol"), Protocols) }
  function Url(payload: Record): string { TrimmedString(Prop(payload, "url")) }
  function CheckMethod(payload: Record): string { OneOf(Prop(payload, "method"), Methods) }
  function SuccessCodes(payload: Record): seq<Value> { NonEmptyArray(Prop(payload, "successCodes")) }
  function Timeout(payload: Record): int { TimeoutSeconds(Prop(payload, "timeoutSeconds")) }

  /** Every field a new check needs is present and valid. */
  predicate FieldsValid(payload: Record) {
    && Protocol(payload) != "" && Url(payload) != "" && CheckMethod(payload) != ""
    && |SuccessCodes(payload)| > 0 && Timeout(payload) != 0
  }

  /** At least one field of an update is present and valid. */
  predicate AnyFieldGiven(payload: Record) {
    || Protocol(payload) != "" || Url(payload) != "" || CheckMethod(payload) != ""
    || |SuccessCodes(payload)| > 0 || Timeout(payload) != 0
  }

  /** `{ id, userPhone, protocol, url, method, successCodes, timeoutSeconds }` */
  function CheckRecord(id: string, userPhone: string, payload: Record): (r: Record)
    requires FieldsValid(payload)
    ensures Prop(r, "id") == Str(id) && Prop(r, "userPhone") == Str(userPhone)
    ensures Prop(r, "protocol").Str? && Prop(r, "protocol").s in Protocols
    ensures Prop(r, "method").Str? && Prop(r, "method").s in Methods
    ensures Prop(r, "url").Str? && Prop(r, "url").s != ""
    ensures Prop(r, "successCodes").Arr? && Prop(r, "successCodes").items != []
    ensures exists t :: 1 <= t <= 5 && Prop(r, "timeoutSeconds") == Int(t)
  {
    map["id" := Str(id), "userPhone" := Str(userPhone), "protocol" := Str(Protocol(payload)),
        "url" := Str(Url(payload)), "method" := Str(CheckMethod(payload)),
        "successCodes" := Arr(SuccessCodes(payload)), "timeoutSeconds" := Int(Timeout(payload))]
  }

  // ---- who may act ----

  /** The stored, unexpired token of the `token` header. */
  predicate LiveToken(records: map<Key, Record>, token: string, now: int) {
    (Tokens, token) in records && TokensApi.NotExpired(Prop(records[(Tokens, token)], "expires"), now)
  }

  /** The token's `phone`, when it names a stored user. */
  predicate HasOwner(records: map<Key, Record>, token: string)
    requires (Tokens, token) in records
  {
    var phone := Prop(records[(Tokens, token)], "phone");
    phone.Str? && (Users, phone.s) in records
  }

  function OwnerPhone(records: map<Key, Record>, token: string): string
    requires (Tokens, token) in records && HasOwner(records, token)
  {
    Prop(records[(Tokens, token)], "phone").s
  }

  /** The owner's record after a check id is appended to its list. */
  function WithCheck(user: Record, id: string): (r: Record)
    ensures UsersApi.UserChecks(r) == UsersApi.UserChecks(user) + [Str(id)]
    ensures forall k :: k != "checks" ==> Prop(r, k) == Prop(user, k)
  {
    SetProp(user, "checks", Arr(UsersApi.UserChecks(user) + [Str(id)]))
  }

  const QuotaMessagePrefix: string := "The user already has the maximum number ("

  /** The replies and store changes of `_checks.post`. */
  ghost predicate PostReply(before: map<Key, Record>, after: map<Key, Record>, cfg: Config.Environment,
                            payload: Record, headers: map<string, string>, now: int,
                            resolves: (string, string) -> bool, reply: Reply) {
    && (!FieldsValid(payload) ==>
        reply == ErrorReply(400, "Missing required fields, or fields are invalid"))
    && (FieldsValid(payload) ==> OwnerReply(before, TokenHeader(headers), now, reply))
    && (FieldsValid(payload) && LiveToken(before, TokenHeader(headers), now)
        && HasOwner(before, TokenHeader(headers)) ==>
          var phone := OwnerPhone(before, TokenHeader(headers));
          CreateReply(before, after, cfg, phone, before[(Users, phone)], payload, resolves, reply))
    && (!HasStatus(reply, 200) ==> after == before)
  }

  /** `_checks.post`: creates a check for the token's owner, and lists its
      id on the owner's record, while the owner has fewer than
      `maxChecks` checks and the hostname resolves. */
  method Post(db: Store, cfg: Config.Environment, payload: Record, headers: map<string, string>,
              now: int, resolves: (string, string) -> bool) returns (reply: Reply)
    modifies db
    ensures PostReply(old(db.records), db.records, cfg, payload, headers, now, resolves, reply)
  {
    var protocol := Protocol(payload);
    var url := Url(payload);
    var checkMethod := CheckMethod(payload);
    var successCodes := SuccessCodes(payload);
    var timeoutSeconds := Timeout(payload);
    if !(protocol != "" && url != "" && checkMethod != "" && |successCodes| > 0 && timeoutSeconds != 0) {
      return ErrorReply(400, "Missing required fields, or fields are invalid");
    }
    reply := CreateWithToken(db, cfg, payload, TokenHeader(headers), now, resolves);
  }

  /** `checks.post` from the token's lookup on. */
  method CreateWithToken(db: Store, cfg: Config.Environment, payload: Record, token: string,
                         now: int, resolves: (string, string) -> bool) returns (reply: Reply)
    requires FieldsValid(payload)
    modifies db
    ensures OwnerReply(old(db.records), token, now, reply)
    ensures LiveToken(old(db.records), token, now) && HasOwner(old(db.records), token) ==>
      var phone := OwnerPhone(old(db.records), token);
      CreateReply(old(db.records), db.records, cfg, phone, old(db.records)[(Users, phone)], payload, resolves, reply)
    ensures !HasStatus(reply, 200) ==> db.records == old(db.records)
  {
    var tokenData := db.Read(Tokens, token);
    if tokenData.None? {
      return ErrorReply(403, "Missing or invalid token");
    }
    if !TokensApi.NotExpired(Prop(tokenData.value, "expires"), now) {
      return ErrorReply(403, "Token has expired");
    }
    var userPhone := Prop(tokenData.value, "phone");
    if !userPhone.Str? {
      return ErrorReply(403, "There is no user associated with the provided token");
    }
    var userData := db.Read(Users, userPhone.s);
    if userData.None? {
      return ErrorReply(403, "There is no user associated with the provided token");
    }
    reply := CreateForOwner(db, cfg, userPhone.s, userData.value, payload, resolves);
  }

  /** The replies of `checks.post` that the token and its owner decide. */
  predicate OwnerReply(records: map<Key, Record>, token: string, now: int, reply: Reply) {
    && ((Tokens, token) !in records ==> reply == ErrorReply(403, "Missing or invalid token"))
    && ((Tokens, token) in records && !LiveToken(records, token, now) ==>
          reply == ErrorReply(403, "Token has expired"))
    && (LiveToken(records, token, now) && !HasOwner(records, token) ==>
          reply == ErrorReply(403, "There is no user associated with the provided token"))
  }

  /** The replies of `checks.post` once the owner is known: the quota, the
      DNS preflight, and the new check. */
  ghost predicate CreateReply(before: map<Key, Record>, after: map<Key, Record>, cfg: Config.Environment,
                              phone: string, user: Record, payload: Record,
                              resolves: (string, string) -> bool, reply: Reply)
    requires FieldsValid(payload)
  {
    && (|UsersApi.UserChecks(user)| >= cfg.maxChecks ==>
          reply == ErrorReply(400, QuotaMessagePrefix + NatToString(cfg.maxChecks) + ") of checks"))
    && (|UsersApi.UserChecks(user)| < cfg.maxChecks && !resolves(Protocol(payload), Url(payload)) ==>
          reply == ErrorReply(400, "The hostname name of the url entered did not resolve to any DNS entries"))
    && (|UsersApi.UserChecks(user)| < cfg.maxChecks && resolves(Protocol(payload), Url(payload)) ==>
          HasStatus(reply, 200) || reply == ErrorReply(500, "Could not create the new check"))
    && (HasStatus(reply, 200) ==>
          |UsersApi.UserChecks(user)| < cfg.maxChecks && CheckAdded(before, after, phone, user, payload, reply))
  }

  /** `checks.post` from the owner's lookup on: the quota, the DNS
      preflight, and the new check. */
  method CreateForOwner(db: Store, cfg: Config.Environment, phone: string, user: Record, payload: Record,
                        resolves: (string, string) -> bool) returns (reply: Reply)
    requires FieldsValid(payload)
    requires (Users, phone) in db.records && db.records[(Users, phone)] == user
    modifies db
    ensures CreateReply(old(db.records), db.records, cfg, phone, user, payload, resolves, reply)
    ensures !HasStatus(reply, 200) ==> db.records == old(db.records)
  {
    var userChecks := UsersApi.UserChecks(user);
    if !(|userChecks| < cfg.maxChecks) {
      return ErrorReply(400, QuotaMessagePrefix + NatToString(cfg.maxChecks) + ") of checks");
    }
    if !resolves(Protocol(payload), Url(payload)) {
      return ErrorReply(400, "The hostname name of the url entered did not resolve to any DNS entries");
    }
    reply := StoreNewCheck(db, phone, user, payload);
  }

  /** A successful `checks.post`: a fresh random id, the check stored
      under it and returned, and the id appended to the owner's list. */
  ghost predicate CheckAdded(before: map<Key, Record>, after: map<Key, Record>, phone: string, user: Record,
                       payload: Record, reply: Reply)
    requires FieldsValid(payload)
  {
    exists id :: TokensApi.IsRandomId(id) && (Checks, id) !in before
                 && reply.payload == Obj(CheckRecord(id, phone, payload))
                 && after == before[(Checks, id) := CheckRecord(id, phone, payload)]
                                   [(Users, phone) := WithCheck(user, id)]
  }

  /** The last step of `checks.post`: the check stored under a fresh
      random id and that id appended to the owner's `checks`. The owner
      was just read, so the update of its record cannot fail. */
  method StoreNewCheck(db: Store, phone: string, user: Record, payload: Record) returns (reply: Reply)
    requires FieldsValid(payload)
    requires (Users, phone) in db.records && db.records[(Users, phone)] == user
    modifies db
    ensures HasStatus(reply, 200) || reply == ErrorReply(500, "Could not create the new check")
    ensures HasStatus(reply, 200) ==> CheckAdded(old(db.records), db.records, phone, user, payload, reply)
    ensures !HasStatus(reply, 200) ==> db.records == old(db.records)
  {
    var checkId := Helpers.CreateRandomString(Int(20));
    var checkObject := CheckRecord(checkId, phone, payload);
    var err := db.Create(Checks, checkId, checkObject);
    if err {
      return ErrorReply(500, "Could not create the new check");
    }
    var updateErr := db.Update(Users, phone, WithCheck(user, checkId));
    if updateErr {
      assert false;
      reply := ErrorReply(500, "Could not update the user with the new check");
    } else {
      assert TokensApi.IsRandomId(checkId);
      reply := Reply(Int(200), Obj(checkObject));
    }
  }

  // ---- get ----

  /** The `id` query parameter, validated. */
  function QueryId(query: map<string, string>): string {
    TrimmedOfLength(QueryParam(query, "id"), 20)
  }

  /** The token header verifies for the owner of the stored check `id`. */
  predicate OwnsCheck(records: map<Key, Record>, headers: map<string, string>, id: string, now: int)
    requires (Checks, id) in records
  {
    TokensApi.VerifyToken(records, TokenHeader(headers), Prop(records[(Checks, id)], "userPhone"), now)
  }

  /** The replies of `_checks.get`. */
  predicate GetReply(records: map<Key, Record>, query: map<string, string>, headers: map<string, string>,
                    now: int, reply: Reply) {
    var id := QueryId(query);
    && (id == "" ==> reply == ErrorReply(400, "Missing required field"))
    && (id != "" && (Checks, id) !in records ==> reply == StatusOnly(404))
    && (id != "" && (Checks, id) in records && !OwnsCheck(records, headers, id, now) ==>
          reply == ErrorReply(403, "Missing required token in header, or token is invalid"))
    && (id != "" && (Checks, id) in records && OwnsCheck(records, headers, id, now) ==>
          reply == Reply(Int(200), Obj(records[(Checks, id)])))
  }

  /** `_checks.get`: the stored check, to its owner. */
  method Get(db: Store, query: map<string, string>, headers: map<string, string>, now: int)
    returns (reply: Reply)
    ensures GetReply(db.records, query, headers, now, reply)
  {
    var id := QueryId(query);
    if id == "" {
      return ErrorReply(400, "Missing required field");
    }
    var checkData := db.Read(Checks, id);
    if checkData.None? {
      return StatusOnly(404);
    }
    var token := TokenHeader(headers);
    if TokensApi.VerifyToken(db.records, token, Prop(checkData.value, "userPhone"), now) {
      reply := Reply(Int(200), Obj(checkData.value));
    } else {
      reply := ErrorReply(403, "Missing required token in header, or token is invalid");
    }
  }

  // ---- put ----

  /** The fields a `_checks.put` may overwrite. */
  predicate Updatable(k: string) {
    k == "protocol" || k == "url" || k == "method" || k == "timeoutSeconds" || k == "successCodes"
  }

  /** The stored check with each supplied field overwritten; a field not
      supplied keeps its stored value and nothing else changes. */
  function MergedCheck(check: Record, payload: Record): (r: Record)
    ensures Prop(r, "protocol") == if Protocol(payload) != "" then Str(Protocol(payload)) else Prop(check, "protocol")
    ensures Prop(r, "url") == if Url(payload) != "" then Str(Url(payload)) else Prop(check, "url")
    ensures Prop(r, "method") == if CheckMethod(payload) != "" then Str(CheckMethod(payload)) else Prop(check, "method")
    ensures Prop(r, "timeoutSeconds") == if Timeout(payload) != 0 then Int(Timeout(payload)) else Prop(check, "timeoutSeconds")
    ensures Prop(r, "successCodes") ==
      if |SuccessCodes(payload)| > 0 then Arr(SuccessCodes(payload)) else Prop(check, "successCodes")
    ensures forall k :: !Updatable(k) ==> Prop(r, k) == Prop(check, k)
  {
    Merge(check, Protocol(payload), Url(payload), CheckMethod(payload), Timeout(payload), SuccessCodes(payload))
  }

  /** The assignments of `_checks.put`, on the validated fields. */
  function Merge(check: Record, protocol: string, url: string, checkMethod: string, timeoutSeconds: int,
                 successCodes: seq<Value>): (r: Record)
    ensures Prop(r, "protocol") == if protocol != "" then Str(protocol) else Prop(check, "protocol")
    ensures Prop(r, "url") == if url != "" then Str(url) else Prop(check, "url")
    ensures Prop(r, "method") == if checkMethod != "" then Str(checkMethod) else Prop(check, "method")
    ensures Prop(r, "timeoutSeconds") == if timeoutSeconds != 0 then Int(timeoutSeconds) else Prop(check, "timeoutSeconds")
    ensures Prop(r, "successCodes") == if |successCodes| > 0 then Arr(successCodes) else Prop(check, "successCodes")
    ensures forall k :: !Updatable(k) ==> Prop(r, k) == Prop(check, k)
  {
    var a := SetProp(check, "protocol", Or(Str(protocol), Prop(check, "protocol")));
    var b := SetProp(a, "url", Or(Str(url), Prop(check, "url")));
    var c := SetProp(b, "method", Or(Str(checkMethod), Prop(check, "method")));
    var d := SetProp(c, "timeoutSeconds", Or(Int(timeoutSeconds), Prop(check, "timeoutSeconds")));
    SetProp(d, "successCodes", if |successCodes| > 0 then Arr(successCodes) else Prop(check, "successCodes"))
  }

  /** An update never moves a check to another owner or renames it. */
  lemma MergeKeepsOwner(check: Record, payload: Record)
    ensures Prop(MergedCheck(check, payload), "userPhone") == Prop(check, "userPhone")
    ensures Prop(MergedCheck(check, payload), "id") == Prop(check, "id")
  {
    assert !Updatable("userPhone") && !Updatable("id");
  }

  /** A create stores the same value at every property a put cannot
      overwrite. */
  lemma SameOutsideUpdatable(id: string, phone: string, created: Record, payload: Record, k: string)
    requires FieldsValid(created) && FieldsValid(payload) && !Updatable(k)
    ensures Prop(CheckRecord(id, phone, created), k) == Prop(CheckRecord(id, phone, payload), k)
  {
    var c := CheckRecord(id, phone, created);
    var s := CheckRecord(id, phone, payload);
    if k == "id" {
      assert Prop(c, "id") == Str(id) == Prop(s, "id");
    } else if k == "userPhone" {
      assert Prop(c, "userPhone") == Str(phone) == Prop(s, "userPhone");
    } else {
      assert k !in c && k !in s;
    }
  }

  /** A put with a field supplied stores it as a create would. */
  lemma SameAtUpdatable(id: string, phone: string, check: Record, payload: Record, k: string)
    requires FieldsValid(payload) && Updatable(k)
    ensures Prop(MergedCheck(check, payload), k) == Prop(CheckRecord(id, phone, payload), k)
  {
    var r := MergedCheck(check, payload);
    var s := CheckRecord(id, phone, payload);
    if k == "protocol" {
      assert Prop(r, "protocol") == Str(Protocol(payload)) == Prop(s, "protocol");
    } else if k == "url" {
      assert Prop(r, "url") == Str(Url(payload)) == Prop(s, "url");
    } else if k == "method" {
      assert Prop(r, "method") == Str(CheckMethod(payload)) == Prop(s, "method");
    } else if k == "timeoutSeconds" {
      assert Prop(r, "timeoutSeconds") == Int(Timeout(payload)) == Prop(s, "timeoutSeconds");
    } else {
      assert Prop(r, "successCodes") == Arr(SuccessCodes(payload)) == Prop(s, "successCodes");
    }
  }

  /** Updating a check with every field supplied yields, property by
      property, the check a create with the same fields stores. */
  lemma FullUpdateMatchesCreate(id: string, phone: string, created: Record, payload: Record)
    requires FieldsValid(created) && FieldsValid(payload)
    ensures forall k :: Prop(MergedCheck(CheckRecord(id, phone, created), payload), k)
                     == Prop(CheckRecord(id, phone, payload), k)
  {
    forall k
      ensures Prop(MergedCheck(CheckRecord(id, phone, created), payload), k) == Prop(CheckRecord(id, phone, payload), k)
    {
      if Updatable(k) {
        SameAtUpdatable(id, phone, CheckRecord(id, phone, created), payload, k);
      } else {
        SameOutsideUpdatable(id, phone, created, payload, k);
      }
    }
  }

  /** The replies and store changes of `_checks.put`. */
  predicate PutReply(before: map<Key, Record>, after: map<Key, Record>, payload: Record,
                    headers: map<string, string>, now: int, reply: Reply) {
    var id := TrimmedOfLength(Prop(payload, "id"), 20);
    && (id == "" ==>
          reply == ErrorReply(400, "Missing required field") && after == before)
    && (id != "" && !AnyFieldGiven(payload) ==>
          reply == ErrorReply(400, "Missing fields to update") && after == before)
    && (id != "" && AnyFieldGiven(payload) ==> UpdateReply(before, after, id, payload, headers, now, reply))
  }

  /** `_checks.put`: partial update of a check by its owner. */
  method Put(db: Store, payload: Record, headers: map<string, string>, now: int) returns (reply: Reply)
    modifies db
    ensures PutReply(old(db.records), db.records, payload, headers, now, reply)
  {
    var id := TrimmedOfLength(Prop(payload, "id"), 20);
    if id == "" {
      return ErrorReply(400, "Missing required field");
    }
    if !(Protocol(payload) != "" || Url(payload) != "" || CheckMethod(payload) != ""
         || |SuccessCodes(payload)| > 0 || Timeout(payload) != 0) {
      return ErrorReply(400, "Missing fields to update");
    }
    reply := UpdateCheck(db, id, payload, headers, now);
  }

  /** The replies of `_checks.put` once the id and a field are given. */
  predicate UpdateReply(before: map<Key, Record>, after: map<Key, Record>, id: string, payload: Record,
                        headers: map<string, string>, now: int, reply: Reply) {
    && ((Checks, id) !in before ==>
          reply == ErrorReply(400, "Check does not exist") && after == before)
    && ((Checks, id) in before && !OwnsCheck(before, headers, id, now) ==>
          reply == ErrorReply(403, "Missing required token in header, or token is invalid") && after == before)
    && ((Checks, id) in before && OwnsCheck(before, headers, id, now) ==>
          reply == StatusOnly(200) && after == before[(Checks, id) := MergedCheck(before[(Checks, id)], payload)])
  }

  /** `_checks.put` from the check's lookup on. */
  method UpdateCheck(db: Store, id: string, payload: Record, headers: map<string, string>, now: int)
    returns (reply: Reply)
    modifies db
    ensures UpdateReply(old(db.records), db.records, id, payload, headers, now, reply)
  {
    var checkData := db.Read(Checks, id);
    if checkData.None? {
      return ErrorReply(400, "Check does not exist");
    }
    var token := TokenHeader(headers);
    if !TokensApi.VerifyToken(db.records, token, Prop(checkData.value, "userPhone"), now) {
      return ErrorReply(403, "Missing required token in header, or token is invalid");
    }
    var err := db.Update(Checks, id, MergedCheck(checkData.value, payload));
    if err {
      reply := ErrorReply(500, "Could not update the check");
    } else {
      reply := StatusOnly(200);
    }
  }

  // ---- delete ----

  /** `xs.indexOf(x)` for an `x` that occurs. */
  function FirstIndex(xs: seq<Value>, x: Value): (i: nat)
    requires x in xs
    ensures i < |xs| && xs[i] == x && x !in xs[..i]
  {
    if xs[0] == x then 0
    else
      var j := FirstIndex(xs[1..], x);
      assert xs[..1 + j] == [xs[0]] + xs[1..][..j];
      1 + j
  }

  /** `xs.splice(xs.indexOf(x), 1)` */
  function RemoveFirst(xs: seq<Value>, x: Value): (r: seq<Value>)
    requires x in xs
    ensures |r| == |xs| - 1
    ensures forall j :: 0 <= j < |r| ==> r[j] == if j < FirstIndex(xs, x) then xs[j] else xs[j + 1]
  {
    var i := FirstIndex(xs, x);
    xs[..i] + xs[i + 1..]
  }

  /** Removing an id takes exactly one of its occurrences out of the list
      and keeps everything else. */
  lemma RemoveFirstRemovesOne(xs: seq<Value>, x: Value)
    requires x in xs
    ensures multiset(RemoveFirst(xs, x)) == multiset(xs) - multiset{x}
    ensures x !in xs[FirstIndex(xs, x) + 1..] ==> x !in RemoveFirst(xs, x)
  {
    var i := FirstIndex(xs, x);
    assert xs == xs[..i] + [x] + xs[i + 1..];
    calc {
      multiset(xs);
      multiset(xs[..i]) + multiset{x} + multiset(xs[i + 1..]);
    }
  }

  /** The owner's record after the deleted check's id is removed. */
  function WithoutCheck(user: Record, id: string): (r: Record)
    requires Str(id) in UsersApi.UserChecks(user)
    ensures UsersApi.UserChecks(r) == RemoveFirst(UsersApi.UserChecks(user), Str(id))
    ensures forall k :: k != "checks" ==> Prop(r, k) == Prop(user, k)
  {
    SetProp(user, "checks", Arr(RemoveFirst(UsersApi.UserChecks(user), Str(id))))
  }

  const UserMissingMessage: string :=
    "Could not find the user who created the check, so could not remove the check from the list of checks on the user's object"

  /** The replies and store changes of `_checks.delete`. */
  predicate DeleteReply(before: map<Key, Record>, after: map<Key, Record>, query: map<string, string>,
                       headers: map<string, string>, now: int, reply: Reply) {
    && (var id := QueryId(query);
        && (id == "" ==>
              reply == ErrorReply(400, "Missing required field") && after == before)
        && (id != "" && (Checks, id) !in before ==>
              reply == ErrorReply(400, "The specified Check does not exist") && after == before)
        && (id != "" && (Checks, id) in before && !OwnsCheck(before, headers, id, now) ==>
              reply == ErrorReply(403, "Missing required token in header, or token is invalid")
              && after == before))
    && (var id := QueryId(query);
        id != "" && (Checks, id) in before && OwnsCheck(before, headers, id, now) ==>
          Unlisted(before - {(Checks, id)}, id, Prop(before[(Checks, id)], "userPhone"),
                   reply, after))
  }

  /** `_checks.delete`: deletes a check for its owner and takes its id off
      the owner's list. */
  method Delete(db: Store, query: map<string, string>, headers: map<string, string>, now: int)
    returns (reply: Reply)
    modifies db
    ensures DeleteReply(old(db.records), db.records, query, headers, now, reply)
  {
    var id := QueryId(query);
    if id == "" {
      return ErrorReply(400, "Missing required field");
    }
    var checkData := db.Read(Checks, id);
    if checkData.None? {
      return ErrorReply(400, "The specified Check does not exist");
    }
    var userPhone := Prop(checkData.value, "userPhone");
    var token := TokenHeader(headers);
    if !TokensApi.VerifyToken(db.records, token, userPhone, now) {
      return ErrorReply(403, "Missing required token in header, or token is invalid");
    }
    var err := db.Delete(Checks, id);
    if err {
      return ErrorReply(500, "Could not delete the check data");
    }
    reply := Unlist(db, id, userPhone);
  }

  /** The outcome of taking `id` off the list of the user `userPhone`
      names: a 500 that changes nothing when there is no such user or the id
      is not listed, and otherwise a 200 with the first occurrence of the id
      removed from that user's `checks`. */
  predicate Unlisted(before: map<Key, Record>, id: string, userPhone: Value, reply: Reply,
                     after: map<Key, Record>) {
    if !(userPhone.Str? && (Users, userPhone.s) in before) then
      reply == ErrorReply(500, UserMissingMessage) && after == before
    else
      var user := before[(Users, userPhone.s)];
      if Str(id) !in UsersApi.UserChecks(user) then
        reply == ErrorReply(500, "Could not find the check on the user's object, so could not remove it")
        && after == before
      else
        reply == StatusOnly(200) && after == before[(Users, userPhone.s) := WithoutCheck(user, id)]
  }

  /** The tail of `_checks.delete`, once the check itself is gone: takes
      `id` off the list of the user `userPhone` names. */
  method Unlist(db: Store, id: string, userPhone: Value) returns (reply: Reply)
    modifies db
    ensures Unlisted(old(db.records), id, userPhone, reply, db.records)
  {
    if !userPhone.Str? {
      return ErrorReply(500, UserMissingMessage);
    }
    var userData := db.Read(Users, userPhone.s);
    if userData.None? {
      return ErrorReply(500, UserMissingMessage);
    }
    var userChecks := UsersApi.UserChecks(userData.value);
    if Str(id) !in userChecks {
      return ErrorReply(500, "Could not find the check on the user's object, so could not remove it");
    }
    var updateErr := db.Update(Users, userPhone.s, WithoutCheck(userData.value, id));
    if updateErr {
      reply := ErrorReply(500, "Could not update the user");
    } else {
      reply := StatusOnly(200);
    }
  }
}
