/** The `_users` handlers of lib/handlers.js: sign up (post), read (get),
    partial update (put) and delete with its cascade over the user's
    checks. Reading, updating and deleting a user needs a token that
    verifies for that user's phone. */
module UsersApi {
  import opened JsValues
  import opened DataStore
  import opened Validation
  import opened Http
  import Helpers
  import Config
  import TokensApi

  // ---- post ----

  /** The signup fields after the handler's validation. */
  function Firstname(payload: Record): string { TrimmedString(Prop(payload, "firstname")) }
  function Lastname(payload: Record): string { TrimmedString(Prop(payload, "lastname")) }
  function Phone(payload: Record): string { TrimmedOfLength(Prop(payload, "phone"), 10) }
  function Password(payload: Record): string { TrimmedString(Prop(payload, "password")) }

  /** Every required signup field is present and valid. */
  predicate SignupComplete(payload: Record) {
    && Firstname(payload) != "" && Lastname(payload) != ""
    && Phone(payload) != "" && Password(payload) != ""
    && Boolean(Prop(payload, "tosAgreement"))
  }

  /** The stored user: the password is kept only as its hash, and the
      agreement is recorded as `true`. */
  function NewUser(firstname: string, lastname: string, phone: string, hashedPassword: string): (r: Record)
    ensures "password" !in r
    ensures Prop(r, "tosAgreement") == Bool(true)
    ensures Prop(r, "hashedPassword") == Str(hashedPassword)
    ensures Prop(r, "phone") == Str(phone)
  {
    map["firstname" := Str(firstname), "lastname" := Str(lastname), "phone" := Str(phone),
        "hashedPassword" := Str(hashedPassword), "tosAgreement" := Bool(true)]
  }

  /** The replies and store changes of `_users.post`. */
  predicate PostReply(before: map<Key, Record>, after: map<Key, Record>, cfg: Config.Environment,
                     hmac: (string, string) -> string, payload: Record, reply: Reply) {
    && (!SignupComplete(payload) ==>
        reply == ErrorReply(400, "Missing required fields") && after == before)
    && (SignupComplete(payload) && (Users, Phone(payload)) in before ==>
        reply == ErrorReply(400, "A user with that phone number already exists") && after == before)
    && (var hashed := Helpers.Hash(hmac, cfg.hashingSecret, Str(Password(payload)));
        SignupComplete(payload) && (Users, Phone(payload)) !in before ==>
          if hashed == "" then
            reply == ErrorReply(500, "Could not hash the user's password") && after == before
          else
            reply == StatusOnly(200)
            && after == before[(Users, Phone(payload)) :=
                 NewUser(Firstname(payload), Lastname(payload), Phone(payload), hashed)])
    && (HasStatus(reply, 200) ==> SignupComplete(payload))
  }

  /** `_users.post`: sign up. Only a complete signup for a phone not yet
      registered writes anything. */
  method Post(db: Store, cfg: Config.Environment, hmac: (string, string) -> string, payload: Record)
    returns (reply: Reply)
    modifies db
    ensures PostReply(old(db.records), db.records, cfg, hmac, payload, reply)
  {
    var firstname := Firstname(payload);
    var lastname := Lastname(payload);
    var phone := Phone(payload);
    var password := Password(payload);
    var tosAgreement := Boolean(Prop(payload, "tosAgreement"));
    if !(firstname != "" && lastname != "" && phone != "" && password != "" && tosAgreement) {
      return ErrorReply(400, "Missing required fields");
    }
    var existing := db.Read(Users, phone);
    if existing.Some? {
      return ErrorReply(400, "A user with that phone number already exists");
    }
    var hashedPassword := Helpers.Hash(hmac, cfg.hashingSecret, Str(password));
    if hashedPassword == "" {
      return ErrorReply(500, "Could not hash the user's password");
    }
    var err := db.Create(Users, phone, NewUser(firstname, lastname, phone, hashedPassword));
    if err {
      reply := ErrorReply(500, "Could not create the new user");
    } else {
      reply := StatusOnly(200);
    }
  }

  // ---- get ----

  /** The phone named by the query string, validated. */
  function QueryPhone(query: map<string, string>): string {
    TrimmedOfLength(QueryParam(query, "phone"), 10)
  }

  /** The token header verifies for the phone. */
  predicate Authorized(records: map<Key, Record>, headers: map<string, string>, phone: string, now: int) {
    TokensApi.VerifyToken(records, TokenHeader(headers), Str(phone), now)
  }

  /** The replies of `_users.get`. */
  predicate GetReply(records: map<Key, Record>, query: map<string, string>, headers: map<string, string>,
                    now: int, reply: Reply) {
    && (var phone := QueryPhone(query);
        && (phone == "" ==> reply == ErrorReply(400, "Missing required field"))
        && (phone != "" && !Authorized(records, headers, phone, now) ==>
              reply == ErrorReply(403, "Missing required token in header, or token is invalid"))
        && (phone != "" && Authorized(records, headers, phone, now) && (Users, phone) !in records ==>
              reply == StatusOnly(404))
        && (phone != "" && Authorized(records, headers, phone, now) && (Users, phone) in records ==>
              reply == Reply(Int(200), Obj(records[(Users, phone)] - {"hashedPassword"}))))
    && (reply.payload.Obj? ==> "hashedPassword" !in reply.payload.fields)
  }

  /** `_users.get`: the user's record without its password hash, to the
      holder of a valid token for that phone. */
  method Get(db: Store, query: map<string, string>, headers: map<string, string>, now: int)
    returns (reply: Reply)
    ensures GetReply(db.records, query, headers, now, reply)
  {
    var phone := QueryPhone(query);
    if phone == "" {
      return ErrorReply(400, "Missing required field");
    }
    var token := TokenHeader(headers);
    if !TokensApi.VerifyToken(db.records, token, Str(phone), now) {
      return ErrorReply(403, "Missing required token in header, or token is invalid");
    }
    var data := db.Read(Users, phone);
    if data.None? {
      reply := StatusOnly(404);
    } else {
      reply := Reply(Int(200), Obj(data.value - {"hashedPassword"}));
    }
  }

  // ---- put ----

  /** The stored user with each supplied field overwritten: a field left
      empty keeps its stored value, and nothing else changes. */
  function Merged(user: Record, firstname: string, lastname: string, hashedPassword: string): (r: Record)
    ensures Prop(r, "firstname") == if firstname != "" then Str(firstname) else Prop(user, "firstname")
    ensures Prop(r, "lastname") == if lastname != "" then Str(lastname) else Prop(user, "lastname")
    ensures Prop(r, "hashedPassword") ==
      if hashedPassword != "" then Str(hashedPassword) else Prop(user, "hashedPassword")
    ensures forall k :: k != "firstname" && k != "lastname" && k != "hashedPassword" ==>
      Prop(r, k) == Prop(user, k)
  {
    var a := SetProp(user, "firstname", Or(Str(firstname), Prop(user, "firstname")));
    var b := SetProp(a, "lastname", Or(Str(lastname), Prop(user, "lastname")));
    SetProp(b, "hashedPassword", Or(Str(hashedPassword), Prop(user, "hashedPassword")))
  }

  /** An update never changes the phone, the agreement or the checks. */
  lemma MergeKeepsIdentity(user: Record, firstname: string, lastname: string, hashedPassword: string)
    ensures var r := Merged(user, firstname, lastname, hashedPassword);
      && Prop(r, "phone") == Prop(user, "phone")
      && Prop(r, "checks") == Prop(user, "checks")
      && Prop(r, "tosAgreement") == Prop(user, "tosAgreement")
  {
  }

  /** The replies and store changes of `_users.put`. */
  predicate PutReply(before: map<Key, Record>, after: map<Key, Record>, cfg: Config.Environment,
                    hmac: (string, string) -> string, payload: Record, headers: map<string, string>, now: int,
                    reply: Reply) {
    var phone := Phone(payload);
    var firstname := Firstname(payload);
    var lastname := Lastname(payload);
    var password := Password(payload);
    && (phone == "" ==>
          reply == ErrorReply(400, "Missing required field") && after == before)
    && (phone != "" && !Authorized(before, headers, phone, now) ==>
          reply == ErrorReply(403, "Missing required token in header, or token is invalid")
          && after == before)
    && (phone != "" && Authorized(before, headers, phone, now)
        && firstname == "" && lastname == "" && password == "" ==>
          reply == ErrorReply(400, "Missing fields to update") && after == before)
    && (phone != "" && Authorized(before, headers, phone, now)
        && (firstname != "" || lastname != "" || password != "")
        && (Users, phone) !in before ==>
          reply == ErrorReply(400, "The specified user does not exist") && after == before)
    && (phone != "" && Authorized(before, headers, phone, now)
        && (firstname != "" || lastname != "" || password != "")
        && (Users, phone) in before ==>
          reply == StatusOnly(200)
          && after == before[(Users, phone) :=
               Merged(before[(Users, phone)], firstname, lastname,
                      Helpers.Hash(hmac, cfg.hashingSecret, Str(password)))])
  }

  /** `_users.put`: partial update by the holder of a valid token. */
  method Put(db: Store, cfg: Config.Environment, hmac: (string, string) -> string,
             payload: Record, headers: map<string, string>, now: int) returns (reply: Reply)
    modifies db
    ensures PutReply(old(db.records), db.records, cfg, hmac, payload, headers, now, reply)
  {
    var phone := Phone(payload);
    var firstname := Firstname(payload);
    var lastname := Lastname(payload);
    var password := Password(payload);
    if phone == "" {
      return ErrorReply(400, "Missing required field");
    }
    var token := TokenHeader(headers);
    if !TokensApi.VerifyToken(db.records, token, Str(phone), now) {
      return ErrorReply(403, "Missing required token in header, or token is invalid");
    }
    if firstname == "" && lastname == "" && password == "" {
      return ErrorReply(400, "Missing fields to update");
    }
    var userData := db.Read(Users, phone);
    if userData.None? {
      return ErrorReply(400, "The specified user does not exist");
    }
    var updated := Merged(userData.value, firstname, lastname, Helpers.Hash(hmac, cfg.hashingSecret, Str(password)));
    var err := db.Update(Users, phone, updated);
    if err {
      reply := ErrorReply(500, "Could not update the user");
    } else {
      reply := StatusOnly(200);
    }
  }

  // ---- delete ----

  /** `userData.checks instanceof Array ? userData.checks : []` */
  function UserChecks(user: Record): seq<Value> {
    if Prop(user, "checks").Arr? then Prop(user, "checks").items else []
  }

  /** The check records named by string ids in `ids`. */
  function CheckKeys(ids: seq<Value>): (keys: set<Key>)
    ensures forall s :: (Checks, s) in keys <==> Str(s) in ids
    ensures forall k :: k in keys ==> k.0 == Checks
  {
    set v | v in ids && v.Str? :: (Checks, v.s)
  }

  /** Deleting the `j`-th listed check fails: its id is not a string, no
      such check is stored, or an earlier entry already deleted it. */
  predicate DeletionFails(records: map<Key, Record>, ids: seq<Value>, j: nat)
    requires j < |ids|
  {
    !ids[j].Str? || (Checks, ids[j].s) !in records || ids[j] in ids[..j]
  }

  /** The replies and store changes of `_users.delete`. */
  predicate DeleteReply(before: map<Key, Record>, after: map<Key, Record>, query: map<string, string>,
                       headers: map<string, string>, now: int, reply: Reply) {
    var phone := QueryPhone(query);
    && (phone == "" ==>
          reply == ErrorReply(400, "Missing required field") && after == before)
    && (phone != "" && !Authorized(before, headers, phone, now) ==>
          reply == ErrorReply(403, "Missing required token in header, or token is invalid")
          && after == before)
    && (phone != "" && Authorized(before, headers, phone, now) && (Users, phone) !in before ==>
          reply == ErrorReply(400, "Could not find the specified user") && after == before)
    && (phone != "" && Authorized(before, headers, phone, now) && (Users, phone) in before ==>
    var ids := UserChecks(before[(Users, phone)]);
          && after == before - {(Users, phone)} - CheckKeys(ids)
          && (reply == StatusOnly(200) <==>
                forall j :: 0 <= j < |ids| ==> !DeletionFails(before, ids, j))
          && (reply == StatusOnly(200) || reply == ErrorReply(500, CascadeFailure)))
  }

  /** `_users.delete`: removes the user, then each of its checks; answers
      once every check deletion has completed, 500 if any failed. */
  method Delete(db: Store, query: map<string, string>, headers: map<string, string>, now: int)
    returns (reply: Reply)
    modifies db
    ensures DeleteReply(old(db.records), db.records, query, headers, now, reply)
  {
    var phone := QueryPhone(query);
    if phone == "" {
      return ErrorReply(400, "Missing required field");
    }
    var token := TokenHeader(headers);
    if !TokensApi.VerifyToken(db.records, token, Str(phone), now) {
      return ErrorReply(403, "Missing required token in header, or token is invalid");
    }
    var userData := db.Read(Users, phone);
    if userData.None? {
      return ErrorReply(400, "Could not find the specified user");
    }
    var err := db.Delete(Users, phone);
    if err {
      assert false;
      return ErrorReply(500, "Could not delete the specified user");
    }
    var userChecks := UserChecks(userData.value);
    CascadeIgnoresUsers(old(db.records), phone, userChecks);
    var deletionErrors := DeleteChecks(db, userChecks);
    if deletionErrors {
      reply := ErrorReply(500, CascadeFailure);
    } else {
      reply := StatusOnly(200);
    }
  }

  /** Removing a user leaves the outcome of every check deletion as it was. */
  lemma CascadeIgnoresUsers(records: map<Key, Record>, phone: string, ids: seq<Value>)
    ensures forall j :: 0 <= j < |ids| ==>
      DeletionFails(records - {(Users, phone)}, ids, j) == DeletionFails(records, ids, j)
  {
  }

  /** The cascade of `_users.delete`: deletes each listed check in turn and
      reports whether any deletion failed. */
  method DeleteChecks(db: Store, ids: seq<Value>) returns (deletionErrors: bool)
    modifies db
    ensures db.records == old(db.records) - CheckKeys(ids)
    ensures deletionErrors <==> exists j :: 0 <= j < |ids| && DeletionFails(old(db.records), ids, j)
  {
    deletionErrors := false;
    var checksDeleted := 0;
    while checksDeleted < |ids|
      invariant 0 <= checksDeleted <= |ids|
      invariant db.records == old(db.records) - CheckKeys(ids[..checksDeleted])
      invariant deletionErrors <==> exists j :: 0 <= j < checksDeleted && DeletionFails(old(db.records), ids, j)
    {
      var checkId := ids[checksDeleted];
      assert ids[..checksDeleted + 1] == ids[..checksDeleted] + [checkId];
      if checkId.Str? {
        assert (Checks, checkId.s) in db.records <==>
          (Checks, checkId.s) in old(db.records) && checkId !in ids[..checksDeleted];
        var e := db.Delete(Checks, checkId.s);
        assert e == DeletionFails(old(db.records), ids, checksDeleted);
        if e {
          deletionErrors := true;
        }
      } else {
        deletionErrors := true;
      }
      assert deletionErrors <==>
        ((exists j :: 0 <= j < checksDeleted && DeletionFails(old(db.records), ids, j))
         || DeletionFails(old(db.records), ids, checksDeleted));
      checksDeleted := checksDeleted + 1;
    }
    assert ids[..|ids|] == ids;
  }

  const CascadeFailure: string :=
    "One or more errors encountered while attempting to delete user's checks. All of user's checks may not have been deleted from the system successfully"
}
