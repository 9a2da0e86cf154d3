/** The environment tables and the choice among them by `NODE_ENV`
    (lib/config.js). The Twilio credentials and the page template globals
    come from the process environment or only feed the HTML pages, and are
    not part of this model. */
module Config {
  import opened JsValues
  import opened JsStrings

  datatype Environment = Environment(
    httpPort: nat,
    httpsPort: nat,
    envName: string,
    hashingSecret: string,
    maxChecks: nat
  )

  const Staging := Environment(3000, 3001, "staging", "thisIsAStagingSecret", 5)
  const Testing := Environment(4000, 4001, "testing", "thisIsATestingSecret", 5)
  const Production := Environment(5000, 5001, "production", "thisIsAProductionSecret", 5)

  /** The own properties of the `environments` object. */
  function Table(name: string): Option<Environment> {
    if name == "staging" then Some(Staging)
    else if name == "testing" then Some(Testing)
    else if name == "production" then Some(Production)
    else None
  }

  /** `NODE_ENV` lower-cased, or `''` when it is not set. */
  function CurrentEnvironmentName(nodeEnv: Option<string>): (r: string)
    ensures nodeEnv.None? ==> r == ""
    ensures forall i :: 0 <= i < |r| ==> !('A' <= r[i] <= 'Z')
  {
    match nodeEnv
    case None => ""
    case Some(s) => ToLowerAscii(s)
  }

  /** The exported configuration: the table entry named by `NODE_ENV`,
      staging otherwise. Every environment allows five checks per user and
      serves HTTPS on the port after the HTTP one. */
  function Select(nodeEnv: Option<string>): (r: Environment)
    ensures r == Staging || r == Testing || r == Production
    ensures r.maxChecks == 5
    ensures r.httpsPort == r.httpPort + 1
    ensures r.envName == CurrentEnvironmentName(nodeEnv) || r == Staging
  {
    match Table(CurrentEnvironmentName(nodeEnv))
    case Some(e) => e
    case None => Staging
  }

  lemma MissingSelectsStaging()
    ensures Select(None) == Staging
  {
  }

  lemma UnknownSelectsStaging(s: string)
    requires Table(ToLowerAscii(s)).None?
    ensures Select(Some(s)) == Staging
  {
  }

  /** Selection ignores the case of `NODE_ENV`. */
  lemma SelectIgnoresCase(s: string)
    ensures Select(Some(s)) == Select(Some(ToLowerAscii(s)))
  {
    LowerIdempotent(s);
  }

  /** Two spellings that differ only in ASCII case select the same table. */
  lemma SelectCaseInsensitive(s: string, t: string)
    requires ToLowerAscii(s) == ToLowerAscii(t)
    ensures Select(Some(s)) == Select(Some(t))
  {
  }

  lemma EachNameSelectsItsTable(s: string)
    requires ToLowerAscii(s) in {"staging", "testing", "production"}
    ensures Select(Some(s)).envName == ToLowerAscii(s)
  {
  }

  // ---- The lookup as written: `environments[name]` on an object literal ----

  /** The members every object literal inherits from `Object.prototype`,
      under their JavaScript names. */
  const PrototypeMembers: set<string> := {
    "constructor", "__proto__", "toString", "toLocaleString", "valueOf",
    "hasOwnProperty", "isPrototypeOf", "propertyIsEnumerable",
    "__defineGetter__", "__defineSetter__", "__lookupGetter__", "__lookupSetter__"
  }

  /** What `environments[currentEnvironment] || environments.staging`
      exports: an inherited member is truthy, so it wins over the
      fallback. */
  datatype Exported = Env(env: Environment) | InheritedMember(name: string)

  function SelectAsWritten(nodeEnv: Option<string>): (r: Exported)
    ensures r.Env? ==> r.env == Select(nodeEnv)
  {
    var name := CurrentEnvironmentName(nodeEnv);
    match Table(name)
    case Some(e) => Env(e)
    case None => if name in PrototypeMembers then InheritedMember(name) else Env(Staging)
  }

  /** `NODE_ENV=CONSTRUCTOR` (or `constructor`, `__proto__`) exports a
      function or `Object.prototype` instead of an environment, so
      `config.httpPort` and `config.maxChecks` are `undefined`. */
  lemma ConstructorExportsNoEnvironment()
    ensures SelectAsWritten(Some("CONSTRUCTOR")) == InheritedMember("constructor")
    ensures SelectAsWritten(Some("__proto__")) == InheritedMember("__proto__")
  {
    assert ToLowerAscii("CONSTRUCTOR") == "constructor";
    assert ToLowerAscii("__proto__") == "__proto__";
  }

  /** The corrected lookup agrees with the written one on every name that is
      not an inherited member. */
  lemma AsWrittenAgreesOffPrototype(nodeEnv: Option<string>)
    requires CurrentEnvironmentName(nodeEnv) !in PrototypeMembers
    ensures SelectAsWritten(nodeEnv) == Env(Select(nodeEnv))
  {
  }
}
