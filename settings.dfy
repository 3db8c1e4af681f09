/**
 * The HTTP bindings the server listens on: their default, the check
 * `save_http_bindings` applies, and the settings store they are persisted in
 * (the store's `httpBindings` entry holds the JSON serde writes for them).
 */
module Settings {
  import opened Wrappers
  import opened Text
  import opened Json

  /** A TCP port as Rust's `u16`. */
  type Port = p: int | 0 <= p < 0x1_0000

  datatype HttpSettings = HttpSettings(bindAddress: string, port: Port)

  /** `HttpSettings::default`: loopback only, on port 60766. */
  function DefaultHttpSettings(): HttpSettings {
    HttpSettings("127.0.0.1", 60766)
  }

  const BLANK_ADDRESS := "Bind address cannot be empty"
  const PORT_OUT_OF_RANGE := "Port must be between 1 and 65535"

  /** `validate_http_settings` */
  function ValidateHttpSettings(s: HttpSettings): Result<(), string> {
    if Trim(s.bindAddress) == [] then Failure(BLANK_ADDRESS)
    else if s.port == 0 then Failure(PORT_OUT_OF_RANGE)
    else Success(())
  }

  /**
   * Settings are accepted exactly when the address is not blank and the
   * port lies in 1..65535; a blank address is reported first, then the port.
   */
  lemma {:induction false} ValidateHttpSettingsSpec(s: HttpSettings)
    ensures ValidateHttpSettings(s).Success? <==> !Blank(s.bindAddress) && 1 <= s.port <= 65535
    ensures Blank(s.bindAddress) ==> ValidateHttpSettings(s) == Failure(BLANK_ADDRESS)
    ensures !Blank(s.bindAddress) && s.port == 0 ==> ValidateHttpSettings(s) == Failure(PORT_OUT_OF_RANGE)
  {
    TrimSpec(s.bindAddress);
  }

  /** The default bindings pass the check, so a fresh install can save them unchanged. */
  lemma {:induction false} DefaultIsValid()
    ensures ValidateHttpSettings(DefaultHttpSettings()).Success?
    ensures DefaultHttpSettings().port == 60766
  {
    var addr := DefaultHttpSettings().bindAddress;
    assert !IsWhitespace(addr[0]);
    ValidateHttpSettingsSpec(DefaultHttpSettings());
  }

  // ---------------------------------------------------------------------------
  // The settings store

  /** The JSON serde writes for the settings (field names as declared in Rust). */
  function SettingsJson(s: HttpSettings): Value {
    Object(map["bind_address" := Str(s.bindAddress), "port" := Number(s.port)])
  }

  /**
   * `serde_json::from_value::<HttpSettings>`. A derived struct accepts two
   * forms: an object whose `bind_address` and `port` members are present with
   * the right types (other members are ignored), or an array of exactly two
   * elements, the fields in declaration order. The port must fit a `u16`;
   * anything else is an error.
   */
  function ParseSettings(v: Value): Option<HttpSettings> {
    match v
    case Object(m) => SettingsFields(Member(m, "bind_address"), Member(m, "port"))
    case Array(items) => if |items| == 2 then SettingsFields(Some(items[0]), Some(items[1])) else None
    case _ => None
  }

  /** The two fields, each read as its Rust type. */
  function SettingsFields(address: Option<Value>, port: Option<Value>): Option<HttpSettings> {
    match (address, port)
    case (Some(Str(addr)), Some(Number(p))) =>
      if 0 <= p < 0x1_0000 then Some(HttpSettings(addr, p)) else None
    case _ => None
  }

  /** Parsing what was written gives the same settings back. */
  lemma {:induction false} ParseSettingsJson(s: HttpSettings)
    ensures ParseSettings(SettingsJson(s)) == Some(s)
  {
    assert Member(SettingsJson(s).members, "bind_address") == Some(Str(s.bindAddress));
    assert Member(SettingsJson(s).members, "port") == Some(Number(s.port));
  }

  /**
   * The sequence form: a pair of an address string and a port number parses
   * exactly when the port fits a `u16`, and an array of any other length does
   * not parse; a value that is neither an object nor an array never parses.
   */
  lemma {:induction false} ParseSettingsSequence(addr: string, p: int, items: seq<Value>)
    ensures ParseSettings(Array([Str(addr), Number(p)])).Some? <==> 0 <= p < 0x1_0000
    ensures 0 <= p < 0x1_0000 ==> ParseSettings(Array([Str(addr), Number(p)])) == Some(HttpSettings(addr, p))
    ensures |items| != 2 ==> ParseSettings(Array(items)).None?
    ensures ParseSettings(Str(addr)).None? && ParseSettings(Number(p)).None?
  {
  }

  /**
   * `load_http_settings`: the stored entry when the store opens and the
   * entry parses; the default when the store cannot be opened, the entry is
   * missing, or it does not parse. Stored settings are not validated.
   */
  function LoadHttpSettings(storeOpens: bool, entry: Option<Value>): (r: HttpSettings)
    ensures !storeOpens || entry.None? ==> r == DefaultHttpSettings()
    ensures storeOpens && entry.Some? && ParseSettings(entry.value).None? ==> r == DefaultHttpSettings()
    ensures storeOpens && entry.Some? && ParseSettings(entry.value).Some? ==> r == ParseSettings(entry.value).value
  {
    if !storeOpens || entry.None? then DefaultHttpSettings()
    else ParseSettings(entry.value).GetOr(DefaultHttpSettings())
  }

  /** What was persisted is what the next start loads. */
  lemma {:induction false} LoadAfterPersist(s: HttpSettings)
    ensures LoadHttpSettings(true, Some(SettingsJson(s))) == s
  {
    ParseSettingsJson(s);
  }

  /** How a write to the store ends: saved, or failing to open the store or to save it. */
  datatype StoreOutcome = Saved | OpenFailed(detail: string) | SaveFailed(detail: string)

  const OPEN_FAILED_PREFIX := "Failed to open settings store: "
  const SAVE_FAILED_PREFIX := "Failed to save HTTP settings: "

  /** The result `persist_http_settings` returns; serialising the two fields cannot fail. */
  function PersistResult(outcome: StoreOutcome): Result<(), string> {
    match outcome
    case Saved => Success(())
    case OpenFailed(detail) => Failure(OPEN_FAILED_PREFIX + detail)
    case SaveFailed(detail) => Failure(SAVE_FAILED_PREFIX + detail)
  }

  /**
   * Persisting succeeds exactly when the store saved, and the two failures
   * can always be told apart by their text, whatever the store's own error.
   */
  lemma {:induction false} PersistFailuresDiffer(o1: StoreOutcome, o2: StoreOutcome)
    ensures PersistResult(o1).Success? <==> o1.Saved?
    ensures o1.OpenFailed? && o2.SaveFailed? ==> PersistResult(o1) != PersistResult(o2)
  {
    if o1.OpenFailed? && o2.SaveFailed? {
      var m1, m2 := PersistResult(o1).error, PersistResult(o2).error;
      assert m1[10] == OPEN_FAILED_PREFIX[10] != SAVE_FAILED_PREFIX[10] == m2[10];
    }
  }

  /** The store's `httpBindings` entry, as it is on disk. */
  class SettingsStore {
    var entry: Option<Value>

    constructor (entry: Option<Value>)
      ensures this.entry == entry
    {
      this.entry := entry;
    }

    /**
     * `persist_http_settings`: the entry is written only when the store
     * opens and saves; on either failure the entry on disk stays as it was.
     */
    method Persist(s: HttpSettings, outcome: StoreOutcome) returns (r: Result<(), string>)
      modifies this
      ensures r == PersistResult(outcome)
      ensures entry == if outcome.Saved? then Some(SettingsJson(s)) else old(entry)
    {
      match outcome
      case OpenFailed(detail) =>
        r := Failure(OPEN_FAILED_PREFIX + detail);
      case SaveFailed(detail) =>
        r := Failure(SAVE_FAILED_PREFIX + detail);
      case Saved =>
        entry := Some(SettingsJson(s));
        r := Success(());
    }
  }
}
