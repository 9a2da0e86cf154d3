/** The background workers of lib/workers.js: once a minute every stored
    check is re-validated, probed and its up/down state saved, with an SMS
    alert when the state changed; once a day every log is compressed and,
    only then, truncated. The http/https request is a sequence of events
    it fires, `Date.now()` is the parameter `now`, `JSON.stringify` the
    parameter `stringify`, and the Twilio request the reply it gets. */
module Workers {
  import opened JsValues
  import opened JsStrings
  import opened DataStore
  import opened Validation
  import Helpers
  import Logs

  // ---- validateCheckData ----

  /** A validated field or `false`. */
  function OrFalse(s: string): (v: Value)
    ensures Truthy(v) <==> s != ""
  {
    if s != "" then Str(s) else Bool(false)
  }

  const States: seq<string> := ["up", "down"]

  /** `id`: a string of 20 characters once trimmed. */
  function IdField(v: Value): (r: Value)
    ensures Truthy(r) <==> v.Str? && |Trim(v.s)| == 20
    ensures Truthy(r) ==> r == Str(Trim(v.s))
    ensures !Truthy(r) ==> r == Bool(false)
  {
    OrFalse(TrimmedOfLength(v, 20))
  }

  /** `userPhone`: a string of 10 characters once trimmed. */
  function PhoneField(v: Value): (r: Value)
    ensures Truthy(r) <==> v.Str? && |Trim(v.s)| == 10
    ensures Truthy(r) ==> r == Str(Trim(v.s))
    ensures !Truthy(r) ==> r == Bool(false)
  {
    OrFalse(TrimmedOfLength(v, 10))
  }

  /** `protocol`: `http` or `https`, untrimmed. */
  function ProtocolField(v: Value): (r: Value)
    ensures Truthy(r) <==> v.Str? && v.s in Protocols
    ensures Truthy(r) ==> r == v
    ensures !Truthy(r) ==> r == Bool(false)
  {
    OrFalse(OneOf(v, Protocols))
  }

  /** `url`: any string, trimmed; a blank url stays a (falsy) empty
      string. */
  function UrlField(v: Value): (r: Value)
    ensures Truthy(r) <==> v.Str? && Trim(v.s) != ""
    ensures v.Str? ==> r == Str(Trim(v.s))
    ensures !v.Str? ==> r == Bool(false)
  {
    if v.Str? then Str(Trim(v.s)) else Bool(false)
  }

  /** `method`: one of the four accepted methods, untrimmed. */
  function MethodField(v: Value): (r: Value)
    ensures Truthy(r) <==> v.Str? && v.s in Methods
    ensures Truthy(r) ==> r == v
    ensures !Truthy(r) ==> r == Bool(false)
  {
    OrFalse(OneOf(v, Methods))
  }

  /** `successCodes`: a non-empty array. */
  function SuccessCodesField(v: Value): (r: Value)
    ensures Truthy(r) <==> v.Arr? && v.items != []
    ensures Truthy(r) ==> r == v
    ensures !Truthy(r) ==> r == Bool(false)
  {
    var codes := NonEmptyArray(v);
    if codes != [] then Arr(codes) else Bool(false)
  }

  /** `timeoutSeconds`: a whole number of seconds from 1 to 5. */
  function TimeoutField(v: Value): (r: Value)
    ensures Truthy(r) <==> v.Num? && IsInteger(v.n) && 1.0 <= v.n <= 5.0
    ensures Truthy(r) ==> r == v
    ensures !Truthy(r) ==> r == Bool(false)
  {
    var t := TimeoutSeconds(v);
    if t != 0 then Int(t) else Bool(false)
  }

  /** `state` defaults to `'down'`. */
  function StateField(v: Value): (r: Value)
    ensures r == Str("up") || r == Str("down")
    ensures r == Str("up") <==> v == Str("up")
  {
    var s := OneOf(v, States);
    if s != "" then Str(s) else Str("down")
  }

  /** `lastChecked` is a positive number or `false`. */
  function LastCheckedField(v: Value): (r: Value)
    ensures r == Bool(false) || (r.Num? && r.n > 0.0)
    ensures r.Num? ==> r == v
  {
    if v.Num? && v.n > 0.0 then v else Bool(false)
  }

  /** The properties `validateCheckData` rewrites. */
  predicate Normalised(k: string) {
    || k == "id" || k == "userPhone" || k == "protocol" || k == "url" || k == "method"
    || k == "successCodes" || k == "timeoutSeconds" || k == "state" || k == "lastChecked"
  }

  /** A stored check once `validateCheckData` has rewritten it: the nine
      properties it normalises, and every other property as it was. */
  datatype CheckData = CheckData(
    id: Value, userPhone: Value, protocol: Value, url: Value, httpMethod: Value,
    successCodes: Value, timeoutSeconds: Value, state: Value, lastChecked: Value,
    others: Record)

  /** The properties of `o` that validation leaves alone. */
  function Others(o: Record): (r: Record)
    ensures forall k :: Normalised(k) ==> k !in r
    ensures forall k :: !Normalised(k) ==> (k in r <==> k in o)
    ensures forall k :: k in r ==> r[k] == o[k]
    ensures forall k :: !Normalised(k) ==> Prop(r, k) == Prop(o, k)
  {
    map k | k in o && !Normalised(k) :: o[k]
  }

  /** The check object as it is saved and logged. */
  function ToRecord(c: CheckData): (r: Record)
    ensures Prop(r, "lastChecked") == c.lastChecked && Prop(r, "state") == c.state
    ensures forall k :: !Normalised(k) ==> Prop(r, k) == Prop(c.others, k)
    ensures forall k :: !Normalised(k) ==> (k in r <==> k in c.others)
    ensures forall k :: k in c.others && !Normalised(k) ==> r[k] == c.others[k]
  {
    c.others["id" := c.id]["userPhone" := c.userPhone]["protocol" := c.protocol]
      ["url" := c.url]["method" := c.httpMethod]["successCodes" := c.successCodes]
      ["timeoutSeconds" := c.timeoutSeconds]["state" := c.state]["lastChecked" := c.lastChecked]
  }

  /** The gate in front of the probe: every validated field is truthy. */
  predicate Performable(c: CheckData) {
    && Truthy(c.id) && Truthy(c.userPhone) && Truthy(c.protocol) && Truthy(c.url)
    && Truthy(c.httpMethod) && Truthy(c.successCodes) && Truthy(c.timeoutSeconds)
  }

  /** A check the probe and the outcome processing can work on. */
  predicate WellFormed(c: CheckData) {
    && c.id.Str? && |c.id.s| == 20
    && c.userPhone.Str? && |c.userPhone.s| == 10
    && c.protocol.Str? && c.protocol.s in Protocols
    && c.url.Str? && c.url.s != ""
    && c.httpMethod.Str? && c.httpMethod.s in Methods
    && c.successCodes.Arr? && c.successCodes.items != []
    && c.timeoutSeconds.Num? && IsInteger(c.timeoutSeconds.n) && 1.0 <= c.timeoutSeconds.n <= 5.0
    && (c.state == Str("up") || c.state == Str("down"))
  }

  /** What `validateCheckData` makes of a stored check. */
  function Validated(o: Record): (c: CheckData)
    ensures c.state == Str("up") || c.state == Str("down")
    ensures c.state == Str("up") <==> Prop(o, "state") == Str("up")
    ensures c.lastChecked == Bool(false) || (c.lastChecked.Num? && c.lastChecked.n > 0.0)
    ensures c.lastChecked.Num? ==> c.lastChecked == Prop(o, "lastChecked")
    ensures Performable(c) ==> WellFormed(c)
    ensures forall k :: Normalised(k) ==> k !in c.others
    ensures forall k :: !Normalised(k) ==> Prop(c.others, k) == Prop(o, k)
  {
    CheckData(
      IdField(Prop(o, "id")), PhoneField(Prop(o, "userPhone")), ProtocolField(Prop(o, "protocol")),
      UrlField(Prop(o, "url")), MethodField(Prop(o, "method")),
      SuccessCodesField(Prop(o, "successCodes")), TimeoutField(Prop(o, "timeoutSeconds")),
      StateField(Prop(o, "state")), LastCheckedField(Prop(o, "lastChecked")),
      Others(o))
  }

  /** The gate passes exactly when each stored field passes its own test. */
  lemma GateMeaning(o: Record)
    ensures Performable(Validated(o)) <==>
      && Prop(o, "id").Str? && |Trim(Prop(o, "id").s)| == 20
      && Prop(o, "userPhone").Str? && |Trim(Prop(o, "userPhone").s)| == 10
      && Prop(o, "protocol").Str? && Prop(o, "protocol").s in Protocols
      && Prop(o, "url").Str? && Trim(Prop(o, "url").s) != ""
      && Prop(o, "method").Str? && Prop(o, "method").s in Methods
      && Prop(o, "successCodes").Arr? && Prop(o, "successCodes").items != []
      && Prop(o, "timeoutSeconds").Num? && IsInteger(Prop(o, "timeoutSeconds").n)
      && 1.0 <= Prop(o, "timeoutSeconds").n <= 5.0
  {
  }

  /** `workers.validateCheckData`: rewrites the record field by field and
      reports whether it goes on to be probed. */
  method ValidateCheckData(originalCheckData: Record) returns (checkData: CheckData, performable: bool)
    ensures checkData == Validated(originalCheckData)
    ensures performable == Performable(checkData)
    ensures performable ==> WellFormed(checkData)
  {
    checkData := CheckData(Undefined, Undefined, Undefined, Undefined, Undefined,
                           Undefined, Undefined, Undefined, Undefined, Others(originalCheckData));
    checkData := checkData.(id := IdField(Prop(originalCheckData, "id")));
    checkData := checkData.(userPhone := PhoneField(Prop(originalCheckData, "userPhone")));
    checkData := checkData.(protocol := ProtocolField(Prop(originalCheckData, "protocol")));
    checkData := checkData.(url := UrlField(Prop(originalCheckData, "url")));
    checkData := checkData.(httpMethod := MethodField(Prop(originalCheckData, "method")));
    checkData := checkData.(successCodes := SuccessCodesField(Prop(originalCheckData, "successCodes")));
    checkData := checkData.(timeoutSeconds := TimeoutField(Prop(originalCheckData, "timeoutSeconds")));
    checkData := checkData.(state := StateField(Prop(originalCheckData, "state")));
    checkData := checkData.(lastChecked := LastCheckedField(Prop(originalCheckData, "lastChecked")));
    performable := && Truthy(checkData.id) && Truthy(checkData.userPhone) && Truthy(checkData.protocol)
                   && Truthy(checkData.url) && Truthy(checkData.httpMethod)
                   && Truthy(checkData.successCodes) && Truthy(checkData.timeoutSeconds);
  }

  // ---- performCheck ----

  /** `checkOutcome.error`: `false`, `{error: true, value: e}` for a request
      error, or `{error: true, value: 'timeout'}`. */
  datatype ProbeError = NoError | RequestFailed(e: Value) | TimedOut

  /** The `checkOutcome` object the probe fills in. */
  datatype Outcome = Outcome(error: ProbeError, responseCode: Value)

  const InitialOutcome := Outcome(NoError, Bool(false))

  /** What the request reports: a response with its status code, an
      `error` event, or a `timeout` event. Any of them may follow another. */
  datatype Event = Responded(status: int) | Errored(e: Value) | TimedOutEvent

  /** The outcome object once the handler of `ev` has updated it. */
  function Fired(outcome: Outcome, ev: Event): (r: Outcome)
    ensures ev.Responded? ==> r.responseCode == Int(ev.status) && r.error == outcome.error
    ensures !ev.Responded? ==> r.responseCode == outcome.responseCode && r.error != NoError
  {
    match ev
    case Responded(status) => outcome.(responseCode := Int(status))
    case Errored(e) => outcome.(error := RequestFailed(e))
    case TimedOutEvent => outcome.(error := TimedOut)
  }

  /** The state `performCheck` keeps between the request's callbacks:
      the shared outcome object, the `outcomeSent` flag, and the outcomes
      handed to `processCheckOutcome` so far. */
  class Probe {
    var outcome: Outcome
    var outcomeSent: bool
    var delivered: seq<Outcome>

    /** The outcome is handed on at most once, and `outcomeSent` records
        whether it has been. */
    ghost predicate Valid()
      reads this
    {
      |delivered| <= 1 && (outcomeSent <==> delivered != [])
    }

    constructor ()
      ensures Valid()
      ensures outcome == InitialOutcome && !outcomeSent && delivered == []
    {
      outcome := InitialOutcome;
      outcomeSent := false;
      delivered := [];
    }

    /** Hands the outcome on unless it already was. */
    method Deliver()
      requires Valid()
      modifies this
      ensures Valid() && outcomeSent && outcome == old(outcome)
      ensures delivered == if old(outcomeSent) then old(delivered) else [outcome]
    {
      if !outcomeSent {
        delivered := delivered + [outcome];
        outcomeSent := true;
      }
    }

    /** The response callback. */
    method OnResponse(status: int)
      requires Valid()
      modifies this
      ensures Valid() && outcomeSent
      ensures outcome == old(outcome).(responseCode := Int(status))
      ensures delivered == if old(outcomeSent) then old(delivered) else [outcome]
    {
      outcome := outcome.(responseCode := Int(status));
      Deliver();
    }

    /** The `error` handler. */
    method OnError(e: Value)
      requires Valid()
      modifies this
      ensures Valid() && outcomeSent
      ensures outcome == old(outcome).(error := RequestFailed(e))
      ensures delivered == if old(outcomeSent) then old(delivered) else [outcome]
    {
      outcome := outcome.(error := RequestFailed(e));
      Deliver();
    }

    /** The `timeout` handler. */
    method OnTimeout()
      requires Valid()
      modifies this
      ensures Valid() && outcomeSent
      ensures outcome == old(outcome).(error := TimedOut)
      ensures delivered == if old(outcomeSent) then old(delivered) else [outcome]
    {
      outcome := outcome.(error := TimedOut);
      Deliver();
    }
  }

  /** `performCheck` for a request that fires `events` in order: the outcome
      handed on is the one the first event produced, and later events do
      not hand on another. `None` when the request never calls back. */
  method RunProbe(events: seq<Event>) returns (delivered: Option<Outcome>)
    ensures events == [] <==> delivered.None?
    ensures events != [] ==> delivered == Some(Fired(InitialOutcome, events[0]))
  {
    var probe := new Probe();
    for i := 0 to |events|
      invariant probe.Valid()
      invariant probe.outcomeSent <==> i > 0
      invariant i > 0 ==> probe.delivered == [Fired(InitialOutcome, events[0])]
      invariant i == 0 ==> probe.outcome == InitialOutcome
    {
      match events[i] {
        case Responded(status) => probe.OnResponse(status);
        case Errored(e) => probe.OnError(e);
        case TimedOutEvent => probe.OnTimeout();
      }
    }
    delivered := if probe.delivered == [] then None else Some(probe.delivered[0]);
  }

  // ---- processCheckOutcome ----

  /** The state an outcome puts a check in: up only for a response, with
      a truthy status code that the check lists among its success codes,
      and no error recorded. */
  function NewState(c: CheckData, outcome: Outcome): (state: string)
    requires c.successCodes.Arr?
    ensures state == "up" || state == "down"
  {
    if outcome.error == NoError && Truthy(outcome.responseCode)
       && outcome.responseCode in c.successCodes.items
    then "up" else "down"
  }

  /** A request that errs or times out first leaves the check down. */
  lemma FailedRequestIsDown(c: CheckData, events: seq<Event>)
    requires c.successCodes.Arr? && events != [] && !events[0].Responded?
    ensures NewState(c, Fired(InitialOutcome, events[0])) == "down"
  {
  }

  /** A first response is up exactly when its (non-zero) status is one of
      the success codes. */
  lemma ResponseStateMeaning(c: CheckData, status: int)
    requires c.successCodes.Arr?
    ensures NewState(c, Fired(InitialOutcome, Responded(status))) == "up" <==>
      status != 0 && Int(status) in c.successCodes.items
  {
  }

  /** An alert goes out when the check was checked before and its state
      changes. */
  predicate AlertWarranted(c: CheckData, state: string) {
    Truthy(c.lastChecked) && c.state != Str(state)
  }

  /** A check the workers have never checked raises no alert, whatever
      its outcome. */
  lemma FirstCheckNeverAlerts(o: Record, state: string)
    requires !(Prop(o, "lastChecked").Num? && Prop(o, "lastChecked").n > 0.0)
    ensures !AlertWarranted(Validated(o), state)
  {
  }

  /** The check as saved: the new state and the time of the check. */
  function Processed(c: CheckData, outcome: Outcome, timeOfCheck: int): (r: CheckData)
    requires c.successCodes.Arr?
    ensures r.state == Str(NewState(c, outcome)) && r.lastChecked == Int(timeOfCheck)
    ensures r == c.(state := r.state, lastChecked := r.lastChecked)
  {
    c.(state := Str(NewState(c, outcome)), lastChecked := Int(timeOfCheck))
  }

  /** Once a state is saved, the same outcome again raises no alert. */
  lemma RepeatedOutcomeDoesNotAlert(c: CheckData, outcome: Outcome, timeOfCheck: int)
    requires c.successCodes.Arr?
    ensures !AlertWarranted(Processed(c, outcome, timeOfCheck),
                            NewState(Processed(c, outcome, timeOfCheck), outcome))
  {
  }

  /** A state change after an earlier check always raises an alert. */
  lemma ChangeAfterCheckAlerts(c: CheckData, outcome: Outcome, lastChecked: int, timeOfCheck: int)
    requires c.successCodes.Arr? && lastChecked > 0
    ensures var before := Processed(c, outcome, lastChecked);
      forall other :: NewState(before, other) != NewState(c, outcome) ==>
        AlertWarranted(before, NewState(before, other))
  {
  }

  const AlertPrefix := "Alert: Your check for "
  const StatePrefix := " is currently "

  /** `alertUserToStatusChange`'s message. */
  function AlertMessage(c: CheckData): (msg: string)
    requires WellFormed(c)
    ensures |msg| > |AlertPrefix| + |StatePrefix| + |c.state.s|
    ensures msg[..|AlertPrefix|] == AlertPrefix
    ensures msg[|msg| - |StatePrefix| - |c.state.s|..] == StatePrefix + c.state.s
  {
    AlertPrefix + ToUpperAscii(c.httpMethod.s) + " " + c.protocol.s + "://" + c.url.s
    + StatePrefix + c.state.s
  }

  /** The message tells an up check from a down one. */
  lemma AlertNamesTheState(c: CheckData, d: CheckData)
    requires WellFormed(c) && WellFormed(d) && c.state != d.state
    ensures AlertMessage(c) != AlertMessage(d)
  {
    var m, n := AlertMessage(c), AlertMessage(d);
    if c.state == Str("up") {
      assert m[|m| - 1] == 'p' && n[|n| - 1] == 'n';
    } else {
      assert m[|m| - 1] == 'n' && n[|n| - 1] == 'p';
    }
  }

  /** `checkOutcome.error` as it is logged. */
  function ErrorValue(error: ProbeError): (v: Value)
    ensures error == NoError <==> v == Bool(false)
  {
    match error
    case NoError => Bool(false)
    case RequestFailed(e) => Obj(map["error" := Bool(true), "value" := e])
    case TimedOut => Obj(map["error" := Bool(true), "value" := Str("timeout")])
  }

  /** The object `workers.log` stringifies. */
  function LogData(c: CheckData, outcome: Outcome, state: string, alert: bool, timeOfCheck: int): Value {
    Obj(map["check" := Obj(ToRecord(c)),
            "outcome" := Obj(map["error" := ErrorValue(outcome.error),
                                 "responseCode" := outcome.responseCode]),
            "state" := Str(state), "alert" := Bool(alert), "time" := Int(timeOfCheck)])
  }

  /** The line `workers.log` appends for an outcome. */
  function LogLine(stringify: Value -> string, c: CheckData, outcome: Outcome, timeOfCheck: int): string
    requires c.successCodes.Arr?
  {
    var state := NewState(c, outcome);
    stringify(LogData(c, outcome, state, AlertWarranted(c, state), timeOfCheck))
  }

  /** Every `.log` file keeps what it held: the workers only append. */
  ghost predicate AppendedOnly(before: map<string, string>, after: map<string, string>) {
    forall f :: f in before ==> f in after && before[f] <= after[f]
  }

  lemma AppendingKeepsContents(files: map<string, string>, f: string, extra: string)
    ensures AppendedOnly(files, files[f := (if f in files then files[f] else "") + extra])
  {
  }

  /** `workers.log`: appends the stringified outcome to `<id>.log`. */
  method Log(dir: Logs.LogDir, stringify: Value -> string, c: CheckData, outcome: Outcome,
             state: string, alertWarranted: bool, timeOfCheck: int)
    requires dir.Valid() && c.id.Str?
    modifies dir
    ensures dir.Valid() && dir.present == old(dir.present)
    ensures dir.files == if !old(dir.present) then old(dir.files)
                         else old(dir.files)[c.id.s + Logs.LogSuffix :=
                                             old(dir.Contents(c.id.s + Logs.LogSuffix))
                                             + stringify(LogData(c, outcome, state, alertWarranted, timeOfCheck))
                                             + "\n"]
    ensures AppendedOnly(old(dir.files), dir.files)
  {
    var logString := stringify(LogData(c, outcome, state, alertWarranted, timeOfCheck));
    var err := dir.Append(c.id.s, logString);
    AppendingKeepsContents(old(dir.files), c.id.s + Logs.LogSuffix, logString + "\n");
  }

  /** `alertUserToStatusChange`: the SMS about the new state, to the
      check's phone. */
  method AlertUserToStatusChange(newCheckData: CheckData, smsReply: Helpers.HttpReply)
    returns (result: Helpers.SmsResult)
    requires WellFormed(newCheckData)
    ensures result == Helpers.SendTwilioSms(newCheckData.userPhone, Str(AlertMessage(newCheckData)), smsReply)
  {
    var msg := AlertMessage(newCheckData);
    result := Helpers.SendTwilioSms(newCheckData.userPhone, Str(msg), smsReply);
  }

  /** The alert text has no white space to trim at either end. */
  lemma AlertMessageIsTrimmed(c: CheckData)
    requires WellFormed(c)
    ensures Trim(AlertMessage(c)) == AlertMessage(c)
  {
    var m := AlertMessage(c);
    assert m[0] == 'A';
    assert m[|m| - 1] == c.state.s[|c.state.s| - 1];
    TrimOfTrimmed(m);
  }

  /** For a validated check the SMS request is made exactly when the alert
      fits Twilio's 1600 characters; it then goes to the check's own
      phone with the alert text unchanged. */
  lemma AlertSentIffItFits(c: CheckData, smsReply: Helpers.HttpReply)
    requires WellFormed(c) && Settled(c)
    ensures var r := Helpers.SendTwilioSms(c.userPhone, Str(AlertMessage(c)), smsReply);
      && (r.request.Some? <==> |AlertMessage(c)| <= 1600)
      && (r.request.Some? ==> r.request.value == Helpers.SmsRequest("+1" + c.userPhone.s, AlertMessage(c)))
  {
    AlertMessageIsTrimmed(c);
  }

  /** A check whose url is longer than an SMS never alerts anyone: the
      helper refuses the message. */
  lemma LongUrlNeverAlerts(c: CheckData, smsReply: Helpers.HttpReply)
    requires WellFormed(c) && |c.url.s| > 1600
    ensures Helpers.SendTwilioSms(c.userPhone, Str(AlertMessage(c)), smsReply).error == Helpers.InvalidParameters
  {
    AlertMessageIsTrimmed(c);
  }

  /** `processCheckOutcome`: the log line appended to `<id>.log` (with the
      check as it was before this outcome), the check saved with its new
      state and time, and the SMS alert sent only when the save worked and
      the state changed after an earlier check. `smsReply` is what the SMS
      provider answers. */
  method ProcessCheckOutcome(db: Store, dir: Logs.LogDir, stringify: Value -> string,
                             c: CheckData, outcome: Outcome, timeOfCheck: int,
                             smsReply: Helpers.HttpReply)
    returns (alert: Option<Helpers.SmsResult>)
    requires WellFormed(c) && dir.Valid()
    modifies db, dir
    ensures dir.Valid() && dir.present == old(dir.present)
    ensures dir.files == if !old(dir.present) then old(dir.files)
                         else old(dir.files)[c.id.s + Logs.LogSuffix :=
                                             old(dir.Contents(c.id.s + Logs.LogSuffix))
                                             + LogLine(stringify, c, outcome, timeOfCheck) + "\n"]
    ensures AppendedOnly(old(dir.files), dir.files)
    ensures db.records == if (Checks, c.id.s) in old(db.records)
                          then old(db.records)[(Checks, c.id.s) := ToRecord(Processed(c, outcome, timeOfCheck))]
                          else old(db.records)
    ensures alert.Some? <==> (Checks, c.id.s) in old(db.records) && AlertWarranted(c, NewState(c, outcome))
    ensures alert.Some? ==>
      alert.value == Helpers.SendTwilioSms(c.userPhone, Str(AlertMessage(Processed(c, outcome, timeOfCheck))), smsReply)
  {
    var state := NewState(c, outcome);
    var alertWarranted := AlertWarranted(c, state);
    Log(dir, stringify, c, outcome, state, alertWarranted, timeOfCheck);
    var newCheckData := c.(state := Str(state), lastChecked := Int(timeOfCheck));
    var err := db.Update(Checks, c.id.s, ToRecord(newCheckData));
    alert := None;
    if !err && alertWarranted {
      var sent := AlertUserToStatusChange(newCheckData, smsReply);
      alert := Some(sent);
    }
  }

  // What `ToRecord` stores under each normalised property; `state` and
  // `lastChecked` are in its contract.

  lemma SavedId(c: CheckData)
    ensures Prop(ToRecord(c), "id") == c.id
  {
  }

  lemma SavedUserPhone(c: CheckData)
    ensures Prop(ToRecord(c), "userPhone") == c.userPhone
  {
  }

  lemma SavedProtocol(c: CheckData)
    ensures Prop(ToRecord(c), "protocol") == c.protocol
  {
  }

  lemma SavedUrl(c: CheckData)
    ensures Prop(ToRecord(c), "url") == c.url
  {
  }

  lemma SavedHttpMethod(c: CheckData)
    ensures Prop(ToRecord(c), "method") == c.httpMethod
  {
  }

  lemma SavedSuccessCodes(c: CheckData)
    ensures Prop(ToRecord(c), "successCodes") == c.successCodes
  {
  }

  lemma SavedTimeoutSeconds(c: CheckData)
    ensures Prop(ToRecord(c), "timeoutSeconds") == c.timeoutSeconds
  {
  }

  /** The properties validation leaves alone come back unchanged. */
  lemma SavedOthers(c: CheckData)
    requires forall k :: Normalised(k) ==> k !in c.others
    ensures Others(ToRecord(c)) == c.others
  {
    var r := ToRecord(c);
    assert forall k :: k in Others(r) <==> k in c.others;
  }

  /** A check that validation leaves as it is: every field already in its
      validated form, and no normalised property among the others. */
  predicate Settled(c: CheckData) {
    && IdField(c.id) == c.id && PhoneField(c.userPhone) == c.userPhone
    && ProtocolField(c.protocol) == c.protocol && UrlField(c.url) == c.url
    && MethodField(c.httpMethod) == c.httpMethod
    && SuccessCodesField(c.successCodes) == c.successCodes
    && TimeoutField(c.timeoutSeconds) == c.timeoutSeconds
    && StateField(c.state) == c.state && LastCheckedField(c.lastChecked) == c.lastChecked
    && (forall k :: Normalised(k) ==> k !in c.others)
  }

  /** Saving a settled check and validating it again gives it back. */
  lemma SettledRevalidates(c: CheckData)
    requires Settled(c)
    ensures Validated(ToRecord(c)) == c
  {
    var r := ToRecord(c);
    SavedId(c);
    SavedUserPhone(c);
    SavedProtocol(c);
    SavedUrl(c);
    SavedHttpMethod(c);
    SavedSuccessCodes(c);
    SavedTimeoutSeconds(c);
    SavedOthers(c);
  }

  // Each field function applied to its own result gives that result.

  lemma IdFieldSettles(v: Value)
    ensures IdField(IdField(v)) == IdField(v)
  {
    if v.Str? {
      TrimIdempotent(v.s);
    }
  }

  lemma PhoneFieldSettles(v: Value)
    ensures PhoneField(PhoneField(v)) == PhoneField(v)
  {
    if v.Str? {
      TrimIdempotent(v.s);
    }
  }

  lemma UrlFieldSettles(v: Value)
    ensures UrlField(UrlField(v)) == UrlField(v)
  {
    if v.Str? {
      TrimIdempotent(v.s);
    }
  }

  /** Whatever validation produces is settled. */
  lemma ValidatedIsSettled(o: Record)
    ensures Settled(Validated(o))
  {
    var c := Validated(o);
    IdFieldSettles(Prop(o, "id"));
    PhoneFieldSettles(Prop(o, "userPhone"));
    UrlFieldSettles(Prop(o, "url"));
    assert IdField(c.id) == c.id;
    assert PhoneField(c.userPhone) == c.userPhone;
    assert UrlField(c.url) == c.url;
    assert ProtocolField(c.protocol) == c.protocol;
    assert MethodField(c.httpMethod) == c.httpMethod;
    assert SuccessCodesField(c.successCodes) == c.successCodes;
    assert TimeoutField(c.timeoutSeconds) == c.timeoutSeconds;
    assert StateField(c.state) == c.state;
    assert LastCheckedField(c.lastChecked) == c.lastChecked;
  }

  /** Saving an outcome keeps a check settled. */
  lemma ProcessedIsSettled(c: CheckData, outcome: Outcome, timeOfCheck: int)
    requires Settled(c) && c.successCodes.Arr? && timeOfCheck > 0
    ensures Settled(Processed(c, outcome, timeOfCheck))
  {
  }

  /** Validation is idempotent: a validated check, saved as it stands,
      validates to itself. */
  lemma ValidationIdempotent(o: Record)
    ensures Validated(ToRecord(Validated(o))) == Validated(o)
  {
    ValidatedIsSettled(o);
    SettledRevalidates(Validated(o));
  }

  /** A saved check reads back as itself: the next sweep validates the
      stored record to exactly the check that was saved. */
  lemma SavedCheckRevalidates(o: Record, outcome: Outcome, timeOfCheck: int)
    requires Performable(Validated(o)) && timeOfCheck > 0
    ensures var p := Processed(Validated(o), outcome, timeOfCheck);
      Validated(ToRecord(p)) == p
  {
    ValidatedIsSettled(o);
    ProcessedIsSettled(Validated(o), outcome, timeOfCheck);
    SettledRevalidates(Processed(Validated(o), outcome, timeOfCheck));
  }

  // ---- gatherAllChecks ----

  /** Every record that differs from `before` carries the sweep's time
      and an up/down state. */
  ghost predicate Stamped(before: map<Key, Record>, after: map<Key, Record>, now: int)
    requires before.Keys <= after.Keys
  {
    forall k :: k in before && after[k] != before[k] ==>
      Prop(after[k], "lastChecked") == Int(now)
      && (Prop(after[k], "state") == Str("up") || Prop(after[k], "state") == Str("down"))
  }

  /** Where the outcome of `c` is saved: its own (validated) id, which
      need not be the id it was read under; `_data.update` fails and
      changes nothing when no such check is stored. */
  function Saved(records: map<Key, Record>, c: CheckData, outcome: Outcome, timeOfCheck: int)
    : (r: map<Key, Record>)
    requires WellFormed(c)
    ensures r.Keys == records.Keys
    ensures forall k :: k in records && k != (Checks, c.id.s) ==> r[k] == records[k]
    ensures Stamped(records, r, timeOfCheck)
  {
    if (Checks, c.id.s) in records
    then records[(Checks, c.id.s) := ToRecord(Processed(c, outcome, timeOfCheck))]
    else records
  }

  /** The store after the check stored under `id` has been read,
      validated, probed on `network` and its outcome processed. */
  function SweepOne(records: map<Key, Record>, id: string, network: CheckData -> seq<Event>, now: int)
    : (r: map<Key, Record>)
    ensures r.Keys == records.Keys
    ensures forall k :: k in records && k.0 != Checks ==> r[k] == records[k]
    ensures Stamped(records, r, now)
  {
    if (Checks, id) !in records then records
    else
      var c := Validated(records[(Checks, id)]);
      if !Performable(c) || network(c) == [] then records
      else Saved(records, c, Fired(InitialOutcome, network(c)[0]), now)
  }

  /** The store after a sweep over `ids`, one check after the other. */
  function Swept(records: map<Key, Record>, ids: seq<string>, network: CheckData -> seq<Event>, now: int)
    : (r: map<Key, Record>)
    ensures r.Keys == records.Keys
    ensures forall k :: k in records && k.0 != Checks ==> r[k] == records[k]
    ensures Stamped(records, r, now)
  {
    if ids == [] then records
    else SweepOne(Swept(records, ids[..|ids| - 1], network, now), ids[|ids| - 1], network, now)
  }

  /** The log directory after the check stored under `id` has had its
      turn: `<id>.log`, named by the validated id, gains the check's log
      line exactly when the check is read, passes the gate and its request
      fires; otherwise, and always without a directory, nothing is
      written. */
  function SweepOneLogs(records: map<Key, Record>, files: map<string, string>, present: bool, id: string,
                        stringify: Value -> string, network: CheckData -> seq<Event>, now: int)
    : (r: map<string, string>)
    ensures AppendedOnly(files, r)
    ensures !present ==> r == files
  {
    if (Checks, id) !in records then files
    else
      var c := Validated(records[(Checks, id)]);
      if !Performable(c) then files
      else CheckLogs(files, present, c, network(c), stringify, now)
  }

  /** The log directory after the validated check `c`, whose request fires
      `events`, has been processed. */
  function CheckLogs(files: map<string, string>, present: bool, c: CheckData, events: seq<Event>,
                     stringify: Value -> string, now: int): (r: map<string, string>)
    requires WellFormed(c)
    ensures AppendedOnly(files, r)
    ensures !present || events == [] ==> r == files
  {
    if !present || events == [] then files
    else
      var log := c.id.s + Logs.LogSuffix;
      var line := LogLine(stringify, c, Fired(InitialOutcome, events[0]), now);
      AppendingKeepsContents(files, log, line + "\n");
      files[log := (if log in files then files[log] else "") + line + "\n"]
  }

  /** The log directory after a sweep over `ids`: each id's turn as
      `SweepOneLogs` describes, on the store as the sweep has left it. */
  function SweptLogs(records: map<Key, Record>, files: map<string, string>, present: bool, ids: seq<string>,
                     stringify: Value -> string, network: CheckData -> seq<Event>, now: int)
    : (r: map<string, string>)
    ensures AppendedOnly(files, r)
  {
    if ids == [] then files
    else
      var before := ids[..|ids| - 1];
      var mid := SweptLogs(records, files, present, before, stringify, network, now);
      var r := SweepOneLogs(Swept(records, before, network, now), mid, present, ids[|ids| - 1],
                            stringify, network, now);
      AppendedOnlyTransitive(files, mid, r);
      r
  }

  /** Without a log directory a sweep writes no file at all. */
  lemma {:induction false} SweptLogsWithoutDirectory(records: map<Key, Record>, files: map<string, string>,
                                                     ids: seq<string>, stringify: Value -> string,
                                                     network: CheckData -> seq<Event>, now: int)
    ensures SweptLogs(records, files, false, ids, stringify, network, now) == files
  {
    if ids != [] {
      SweptLogsWithoutDirectory(records, files, ids[..|ids| - 1], stringify, network, now);
    }
  }

  lemma SweptLogsStep(records: map<Key, Record>, files: map<string, string>, present: bool, ids: seq<string>,
                      i: nat, stringify: Value -> string, network: CheckData -> seq<Event>, now: int)
    requires i < |ids|
    ensures SweptLogs(records, files, present, ids[..i + 1], stringify, network, now)
            == SweepOneLogs(Swept(records, ids[..i], network, now),
                            SweptLogs(records, files, present, ids[..i], stringify, network, now),
                            present, ids[i], stringify, network, now)
  {
    assert ids[..i + 1][..i] == ids[..i];
  }

  lemma AppendedOnlyTransitive(a: map<string, string>, b: map<string, string>, c: map<string, string>)
    requires AppendedOnly(a, b) && AppendedOnly(b, c)
    ensures AppendedOnly(a, c)
  {
  }

  lemma SweptStep(records: map<Key, Record>, ids: seq<string>, i: nat, network: CheckData -> seq<Event>, now: int)
    requires i < |ids|
    ensures Swept(records, ids[..i + 1], network, now)
            == SweepOne(Swept(records, ids[..i], network, now), ids[i], network, now)
  {
    assert ids[..i + 1][..i] == ids[..i];
  }

  /** The alert, if any, that processing the check stored under `id`
      sends: one exactly when the check is performable, its request fires,
      its validated id names a stored check (so the save works) and the
      new state differs from the state of an earlier check. */
  function SweepAlert(records: map<Key, Record>, id: string, network: CheckData -> seq<Event>,
                      smsReply: string -> Helpers.HttpReply, now: int): (alert: Option<Helpers.SmsResult>)
    ensures (Checks, id) !in records ==> alert.None?
    ensures (Checks, id) in records ==>
      var c := Validated(records[(Checks, id)]);
      && (alert.Some? <==>
            && Performable(c) && network(c) != [] && (Checks, c.id.s) in records
            && AlertWarranted(c, NewState(c, Fired(InitialOutcome, network(c)[0]))))
      && (alert.Some? ==>
            alert.value == Helpers.SendTwilioSms(c.userPhone,
                             Str(AlertMessage(Processed(c, Fired(InitialOutcome, network(c)[0]), now))),
                             smsReply(c.id.s)))
  {
    if (Checks, id) !in records then None
    else
      var c := Validated(records[(Checks, id)]);
      if !Performable(c) then None
      else CheckAlert(records, c, network(c), smsReply(c.id.s), now)
  }

  /** The alert processing the validated check `c` sends, when its
      request fires `events` and the SMS provider answers `smsReply`. */
  function CheckAlert(records: map<Key, Record>, c: CheckData, events: seq<Event>,
                      smsReply: Helpers.HttpReply, now: int): (alert: Option<Helpers.SmsResult>)
    requires Performable(c) ==> WellFormed(c)
    ensures alert.Some? <==>
      && Performable(c) && events != [] && (Checks, c.id.s) in records
      && AlertWarranted(c, NewState(c, Fired(InitialOutcome, events[0])))
    ensures alert.Some? ==>
      var outcome := Fired(InitialOutcome, events[0]);
      alert.value == Helpers.SendTwilioSms(c.userPhone, Str(AlertMessage(Processed(c, outcome, now))), smsReply)
  {
    if !Performable(c) || events == [] then None
    else
      var outcome := Fired(InitialOutcome, events[0]);
      if (Checks, c.id.s) in records && AlertWarranted(c, NewState(c, outcome))
      then Some(Helpers.SendTwilioSms(c.userPhone, Str(AlertMessage(Processed(c, outcome, now))), smsReply))
      else None
  }

  /** The alerts of a sweep over `ids`, in order: each id's alert as the
      store stands when its turn comes. */
  function SweepAlerts(records: map<Key, Record>, ids: seq<string>, network: CheckData -> seq<Event>,
                       smsReply: string -> Helpers.HttpReply, now: int): (alerts: seq<Helpers.SmsResult>)
    ensures |alerts| <= |ids|
  {
    if ids == [] then []
    else
      var before := ids[..|ids| - 1];
      var alert := SweepAlert(Swept(records, before, network, now), ids[|ids| - 1], network, smsReply, now);
      SweepAlerts(records, before, network, smsReply, now) + (if alert.Some? then [alert.value] else [])
  }

  /** Every stored check that passes the gate names itself: its
      validated `id` is the id it is stored under. */
  predicate SelfKeyed(records: map<Key, Record>) {
    forall k :: k in records && k.0 == Checks && Performable(Validated(records[k])) ==>
      Validated(records[k]).id == Str(k.1)
  }

  predicate Distinct(ids: seq<string>) {
    forall i, j :: 0 <= i < j < |ids| ==> ids[i] != ids[j]
  }

  /** Over self-keyed checks, a sweep over distinct ids leaves the record
      of every id it has not reached as it was. */
  lemma {:induction false} SweptKeepsUnreached(records: map<Key, Record>, ids: seq<string>, id: string,
                                               network: CheckData -> seq<Event>, now: int)
    requires SelfKeyed(records) && Distinct(ids) && id !in ids && (Checks, id) in records
    ensures Swept(records, ids, network, now)[(Checks, id)] == records[(Checks, id)]
  {
    if ids != [] {
      var before, last := ids[..|ids| - 1], ids[|ids| - 1];
      assert Distinct(before) && id !in before && last !in before;
      SweptKeepsUnreached(records, before, id, network, now);
      var mid := Swept(records, before, network, now);
      if (Checks, last) in records {
        SweptKeepsUnreached(records, before, last, network, now);
        assert mid[(Checks, last)] == records[(Checks, last)];
      }
    }
  }

  /** The first sweep over self-keyed checks none of which has been
      checked before sends no alert: every check is read as it was
      stored, and a check without an earlier time warrants no alert. */
  lemma {:induction false} NoAlertsForUncheckedStore(records: map<Key, Record>, ids: seq<string>,
                                                     network: CheckData -> seq<Event>,
                                                     smsReply: string -> Helpers.HttpReply, now: int)
    requires SelfKeyed(records) && Distinct(ids)
    requires forall k :: k in records && k.0 == Checks ==>
      !(Prop(records[k], "lastChecked").Num? && Prop(records[k], "lastChecked").n > 0.0)
    ensures SweepAlerts(records, ids, network, smsReply, now) == []
  {
    if ids != [] {
      var before, last := ids[..|ids| - 1], ids[|ids| - 1];
      assert Distinct(before) && last !in before;
      NoAlertsForUncheckedStore(records, before, network, smsReply, now);
      var mid := Swept(records, before, network, now);
      if (Checks, last) in records {
        SweptKeepsUnreached(records, before, last, network, now);
        var c := Validated(records[(Checks, last)]);
        if Performable(c) && network(c) != [] {
          FirstCheckNeverAlerts(records[(Checks, last)], NewState(c, Fired(InitialOutcome, network(c)[0])));
        }
      }
    }
  }

  lemma SweepAlertsStep(records: map<Key, Record>, ids: seq<string>, i: nat, network: CheckData -> seq<Event>,
                        smsReply: string -> Helpers.HttpReply, now: int)
    requires i < |ids|
    ensures var alert := SweepAlert(Swept(records, ids[..i], network, now), ids[i], network, smsReply, now);
      SweepAlerts(records, ids[..i + 1], network, smsReply, now)
      == SweepAlerts(records, ids[..i], network, smsReply, now) + (if alert.Some? then [alert.value] else [])
  {
    assert ids[..i + 1][..i] == ids[..i];
  }

  /** The body of the `forEach` in `gatherAllChecks`, for one listed id. */
  method CheckOne(db: Store, dir: Logs.LogDir, stringify: Value -> string,
                  network: CheckData -> seq<Event>, smsReply: string -> Helpers.HttpReply,
                  now: int, id: string)
    returns (alert: Option<Helpers.SmsResult>)
    requires dir.Valid()
    modifies db, dir
    ensures db.records == SweepOne(old(db.records), id, network, now)
    ensures dir.Valid() && dir.present == old(dir.present)
    ensures dir.files == SweepOneLogs(old(db.records), old(dir.files), old(dir.present), id, stringify, network, now)
    ensures AppendedOnly(old(dir.files), dir.files)
    ensures alert == SweepAlert(old(db.records), id, network, smsReply, now)
  {
    alert := None;
    var originalCheckData := db.Read(Checks, id);
    if originalCheckData.None? {
      return;
    }
    var checkData, performable := ValidateCheckData(originalCheckData.value);
    if !performable {
      return;
    }
    var outcome := RunProbe(network(checkData));
    if outcome.None? {
      return;
    }
    ghost var log := checkData.id.s + Logs.LogSuffix;
    assert dir.Contents(log) == if log in old(dir.files) then old(dir.files)[log] else "";
    alert := ProcessCheckOutcome(db, dir, stringify, checkData, outcome.value, now,
                                 smsReply(checkData.id.s));
  }

  /** `gatherAllChecks`: every stored check once, in the listed order.
      `network` says which events the request for a check fires,
      `smsReply` what the SMS provider answers for a check's alert. */
  method GatherAllChecks(db: Store, dir: Logs.LogDir, stringify: Value -> string,
                         network: CheckData -> seq<Event>, smsReply: string -> Helpers.HttpReply,
                         now: int)
    returns (ids: seq<string>, alerts: seq<Helpers.SmsResult>)
    requires dir.Valid()
    modifies db, dir
    ensures Distinct(ids)
    ensures forall id :: id in ids <==> (Checks, id) in old(db.records)
    ensures db.records == Swept(old(db.records), ids, network, now)
    ensures dir.Valid() && dir.present == old(dir.present)
    ensures dir.files == SweptLogs(old(db.records), old(dir.files), old(dir.present), ids, stringify, network, now)
    ensures AppendedOnly(old(dir.files), dir.files)
    ensures alerts == SweepAlerts(old(db.records), ids, network, smsReply, now)
  {
    ids := db.List(Checks);
    alerts := [];
    if |ids| == 0 {
      return;
    }
    for i := 0 to |ids|
      invariant db.records == Swept(old(db.records), ids[..i], network, now)
      invariant dir.Valid() && dir.present == old(dir.present)
      invariant dir.files == SweptLogs(old(db.records), old(dir.files), old(dir.present), ids[..i],
                                       stringify, network, now)
      invariant AppendedOnly(old(dir.files), dir.files)
      invariant alerts == SweepAlerts(old(db.records), ids[..i], network, smsReply, now)
    {
      ghost var files := dir.files;
      SweepAlertsStep(old(db.records), ids, i, network, smsReply, now);
      SweptLogsStep(old(db.records), old(dir.files), old(dir.present), ids, i, stringify, network, now);
      var alert := CheckOne(db, dir, stringify, network, smsReply, now, ids[i]);
      if alert.Some? {
        alerts := alerts + [alert.value];
      }
      AppendedOnlyTransitive(old(dir.files), files, dir.files);
      SweptStep(old(db.records), ids, i, network, now);
    }
    assert ids[..|ids|] == ids;
  }

  // ---- rotateLogs ----

  /** `logId + '-' + Date.now()`: the name of a log's snapshot. */
  function SnapshotId(logId: string, now: nat): string {
    logId + "-" + NatToString(now)
  }

  /** A snapshot file is never a `.log` file: the two suffixes end in
      different characters. */
  lemma SnapshotIsNotALog(snapshotId: string, logId: string)
    ensures snapshotId + Logs.CompressedSuffix != logId + Logs.LogSuffix
  {
    var a, b := snapshotId + Logs.CompressedSuffix, logId + Logs.LogSuffix;
    assert a[|a| - 1] == '4' && b[|b| - 1] == 'g';
  }

  /** The `logId` of a listed name: its first `.log` removed. */
  function RotatedId(logName: string): (logId: string)
    ensures !Includes(logName, Logs.LogSuffix) ==> logId == logName
    ensures Includes(logName, Logs.LogSuffix) ==> |logId| == |logName| - |Logs.LogSuffix|
  {
    ReplaceFirst(logName, Logs.LogSuffix, "")
  }

  /** Compressing the named log fails: it is missing or does not pack. */
  predicate RotationFails(files: map<string, string>, logName: string, codec: Logs.Codec) {
    var log := RotatedId(logName) + Logs.LogSuffix;
    log !in files || codec.pack(files[log]).None?
  }

  /** The log files after one listed name has been rotated: its log
      compressed to a fresh snapshot and then emptied, or nothing at all
      changed when the log is missing or compression fails. */
  function RotateOne(files: map<string, string>, logName: string, codec: Logs.Codec, now: nat)
    : (r: map<string, string>)
    ensures files.Keys <= r.Keys
    ensures RotationFails(files, logName, codec) ==> r == files
    ensures !RotationFails(files, logName, codec) ==>
      var log := RotatedId(logName) + Logs.LogSuffix;
      var snapshot := SnapshotId(RotatedId(logName), now) + Logs.CompressedSuffix;
      && r.Keys == files.Keys + {snapshot}
      && r[log] == "" && r[snapshot] == codec.pack(files[log]).value
      && forall f :: f in files && f != log && f != snapshot ==> r[f] == files[f]
  {
    var logId := RotatedId(logName);
    var log := logId + Logs.LogSuffix;
    if log !in files || codec.pack(files[log]).None? then files
    else
      SnapshotIsNotALog(SnapshotId(logId, now), logId);
      files[SnapshotId(logId, now) + Logs.CompressedSuffix := codec.pack(files[log]).value][log := ""]
  }

  /** A log is only emptied once a snapshot it can be recovered from has
      been written. */
  lemma RotationKeepsContents(files: map<string, string>, logName: string, codec: Logs.Codec, now: nat)
    requires Logs.RoundTrips(codec)
    ensures var logId := ReplaceFirst(logName, Logs.LogSuffix, "");
      var log := logId + Logs.LogSuffix;
      var snapshot := SnapshotId(logId, now) + Logs.CompressedSuffix;
      var r := RotateOne(files, logName, codec, now);
      || r == files
      || (&& log in files && r[log] == ""
          && snapshot in r && codec.unpack(r[snapshot]) == Some(files[log]))
  {
    var logId := ReplaceFirst(logName, Logs.LogSuffix, "");
    SnapshotIsNotALog(SnapshotId(logId, now), logId);
  }

  /** Rotating every listed name in order. */
  function Rotations(files: map<string, string>, names: seq<string>, codec: Logs.Codec, now: nat)
    : (r: map<string, string>)
    ensures files.Keys <= r.Keys
  {
    if names == [] then files
    else RotateOne(Rotations(files, names[..|names| - 1], codec, now), names[|names| - 1], codec, now)
  }

  /** A failure on one log does not stop the others: a name whose
      rotation fails, when its turn comes, leaves the files exactly as if
      it had not been listed, so every later name is rotated as before. */
  lemma FailedRotationIsSkipped(files: map<string, string>, names: seq<string>, i: nat,
                                codec: Logs.Codec, now: nat)
    requires i < |names|
    requires RotationFails(Rotations(files, names[..i], codec, now), names[i], codec)
    ensures Rotations(files, names, codec, now) == Rotations(files, names[..i] + names[i + 1..], codec, now)
  {
    var upTo, before, after := names[..i + 1], names[..i], names[i + 1..];
    assert upTo[..i] == before;
    RotationsStep(files, upTo, codec, now);
    assert names == upTo + after;
    SameStartSameRotations(files, upTo, before, after, codec, now);
  }

  /** Two lists of names that leave the files alike stay alike when the
      same names follow both. */
  lemma {:induction false} SameStartSameRotations(files: map<string, string>, a: seq<string>, b: seq<string>,
                                                  tail: seq<string>, codec: Logs.Codec, now: nat)
    requires Rotations(files, a, codec, now) == Rotations(files, b, codec, now)
    ensures Rotations(files, a + tail, codec, now) == Rotations(files, b + tail, codec, now)
    decreases |tail|
  {
    if tail == [] {
      assert a + tail == a && b + tail == b;
    } else {
      var init, last := tail[..|tail| - 1], tail[|tail| - 1];
      SameStartSameRotations(files, a, b, init, codec, now);
      assert a + tail == (a + init) + [last];
      assert b + tail == (b + init) + [last];
      RotationsAppend(files, a + init, last, codec, now);
      RotationsAppend(files, b + init, last, codec, now);
    }
  }

  lemma RotationsAppend(files: map<string, string>, names: seq<string>, name: string, codec: Logs.Codec, now: nat)
    ensures Rotations(files, names + [name], codec, now) == RotateOne(Rotations(files, names, codec, now), name, codec, now)
  {
    assert (names + [name])[..|names|] == names;
  }

  lemma RotationsStep(files: map<string, string>, names: seq<string>, codec: Logs.Codec, now: nat)
    requires names != []
    ensures Rotations(files, names, codec, now)
         == RotateOne(Rotations(files, names[..|names| - 1], codec, now), names[|names| - 1], codec, now)
  {
  }

  /** `rotateLogs`: lists the uncompressed logs and rotates each. */
  method RotateLogs(dir: Logs.LogDir, codec: Logs.Codec, now: nat)
    returns (listing: Logs.ListOutcome, ghost entries: seq<string>)
    requires dir.Valid()
    modifies dir
    ensures dir.Valid() && dir.present == old(dir.present)
    ensures forall f :: f in entries <==> f in old(dir.files)
    ensures !old(dir.present) ==> listing == Logs.ReaddirError
    ensures old(dir.present) && old(dir.files) == map[] ==> listing == Logs.EmptyDirectory
    ensures old(dir.present) && old(dir.files) != map[] ==>
      listing == Logs.Listed(Logs.TrimmedFilenames(entries, false))
    ensures dir.files == if listing.Listed? then Rotations(old(dir.files), listing.names, codec, now)
                         else old(dir.files)
  {
    listing, entries := dir.List(false);
    if !listing.Listed? || |listing.names| == 0 {
      return;
    }
    var logs := listing.names;
    for i := 0 to |logs|
      invariant dir.Valid() && dir.present == old(dir.present)
      invariant dir.files == Rotations(old(dir.files), logs[..i], codec, now)
    {
      ghost var before := dir.files;
      var logId := RotatedId(logs[i]);
      var newFileId := SnapshotId(logId, now);
      var err := dir.Compress(logId, newFileId, codec);
      if !err {
        SnapshotIsNotALog(newFileId, logId);
        var truncateErr := dir.Truncate(logId);
      }
      assert dir.files == RotateOne(before, logs[i], codec, now);
      assert logs[..i + 1][..i] == logs[..i];
      RotationsStep(old(dir.files), logs[..i + 1], codec, now);
    }
    assert logs[..|logs|] == logs;
  }
}
