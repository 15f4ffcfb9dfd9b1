/** Resolution of one raw webhook configuration into a `WebhookConfig`: plain values are copied,
    class names are checked against the class table and, where the resolved config holds an
    object, instantiated; any bad value makes the constructor throw `InvalidConfig`. */
module WebhookConfigs {
  import opened Wrappers
  import opened PhpClasses

  /** A value of the raw configuration array: a string or PHP's null. */
  datatype RawValue = Null | Str(s: string)

  /** The raw configuration array, keyed by the snake_case option names. */
  type RawConfig = map<string, RawValue>

  const NameKey := "name"
  const SigningSecretKey := "signing_secret"
  const SignatureHeaderNameKey := "signature_header_name"
  const SignatureValidatorKey := "signature_validator"
  const WebhookProfileKey := "webhook_profile"
  const WebhookResponseKey := "webhook_response"
  const WebhookModelKey := "webhook_model"
  const ProcessWebhookJobKey := "process_webhook_job"

  /** Every option the constructor reads. */
  const Keys: set<string> := {
    NameKey, SigningSecretKey, SignatureHeaderNameKey, SignatureValidatorKey,
    WebhookProfileKey, WebhookResponseKey, WebhookModelKey, ProcessWebhookJobKey
  }

  /** The response class used when `webhook_response` is null or absent. */
  const DefaultRespondsTo: ClassName := "Spatie\\WebhookClient\\WebhookResponse\\DefaultRespondsTo"

  /** An object built from a class name. */
  datatype Instance = Instance(className: ClassName)

  /** Why a value was refused. */
  datatype Reason =
    | MissingValue
    | UnknownClass(name: ClassName)
    | NotASubclass(name: ClassName, required: Capability)

  /** The `InvalidConfig` exception: the option that was refused, and why. */
  datatype InvalidConfig = InvalidConfig(key: string, reason: Reason)

  /** A resolved configuration; its fields are set once by the constructor. */
  datatype WebhookConfig = WebhookConfig(
    name: string,
    signingSecret: string,
    signatureHeaderName: string,
    signatureValidator: Instance,
    webhookProfile: Instance,
    webhookResponse: Instance,
    webhookModel: string,
    processWebhookJobClass: string
  )

  /** Reading an option; PHP reads a missing array key as null. */
  function Get(raw: RawConfig, key: string): RawValue {
    if key in raw then raw[key] else Null
  }

  /** The framework type each class-valued option must descend from. */
  function CapabilityOf(key: string): Option<Capability> {
    if key == SignatureValidatorKey then Some(SignatureValidator)
    else if key == WebhookProfileKey then Some(WebhookProfile)
    else if key == WebhookResponseKey then Some(RespondsToWebhook)
    else if key == ProcessWebhookJobKey then Some(ProcessWebhookJob)
    else None
  }

  /** Whether the constructor accepts value `v` under option `key` (reference definition, one
      option at a time). Plain options need a string; `webhook_model` is taken as given; the
      class-valued options need a subclass of their framework type, except that
      `webhook_response` may also be null. */
  ghost predicate Accepts(t: ClassTable, key: string, v: RawValue) {
    if key == WebhookResponseKey && v == Null then true
    else match CapabilityOf(key)
      case None => v.Str?
      case Some(c) => v.Str? && IsSubclassOf(t, v.s, c)
  }

  /** A configuration every option of which is accepted. */
  ghost predicate ValidConfig(t: ClassTable, raw: RawConfig) {
    forall key | key in Keys :: Accepts(t, key, Get(raw, key))
  }

  /** A plain string option. */
  function ResolveString(raw: RawConfig, key: string): (r: Result<string, InvalidConfig>)
    ensures r.Success? <==> Get(raw, key).Str?
    ensures r.Success? ==> r.value == Get(raw, key).s
    ensures r.Failure? ==> r.error == InvalidConfig(key, MissingValue)
  {
    match Get(raw, key)
    case Null => Failure(InvalidConfig(key, MissingValue))
    case Str(s) => Success(s)
  }

  /** A class-name option that must name a subclass of `c`. */
  function ResolveClass(t: ClassTable, raw: RawConfig, key: string, c: Capability): (r: Result<ClassName, InvalidConfig>)
    ensures r.Success? <==> Get(raw, key).Str? && IsSubclassOf(t, Get(raw, key).s, c)
    ensures r.Success? ==> r.value == Get(raw, key).s
    ensures r.Failure? ==> r.error.key == key
  {
    match Get(raw, key)
    case Null => Failure(InvalidConfig(key, MissingValue))
    case Str(n) =>
      if n !in t then Failure(InvalidConfig(key, UnknownClass(n)))
      else if !IsSubclassOf(t, n, c) then Failure(InvalidConfig(key, NotASubclass(n, c)))
      else Success(n)
  }

  /** The `webhook_response` option, which falls back to the default responder when null. */
  function ResolveResponse(t: ClassTable, raw: RawConfig): (r: Result<ClassName, InvalidConfig>)
    ensures Get(raw, WebhookResponseKey) == Null ==> r == Success(DefaultRespondsTo)
    ensures r.Success? <==> Accepts(t, WebhookResponseKey, Get(raw, WebhookResponseKey))
    ensures r.Failure? ==> r.error.key == WebhookResponseKey
  {
    if Get(raw, WebhookResponseKey) == Null then Success(DefaultRespondsTo)
    else ResolveClass(t, raw, WebhookResponseKey, RespondsToWebhook)
  }

  /** `new WebhookConfig($properties)`: the options are read in the order the configuration
      lists them, and the first refused one is reported. It succeeds exactly for the
      configurations every option of which is accepted; the plain options, the model and the
      job class are then kept as given, the validator, the profile and the responder are
      instances of the classes named (the default responder when none is named), and each
      named class descends from its framework type. A failure names a refused option. */
  function Resolve(t: ClassTable, raw: RawConfig): (r: Result<WebhookConfig, InvalidConfig>)
    ensures r.Success? <==> ValidConfig(t, raw)
    ensures r.Success? ==>
      && Get(raw, NameKey) == Str(r.value.name)
      && Get(raw, SigningSecretKey) == Str(r.value.signingSecret)
      && Get(raw, SignatureHeaderNameKey) == Str(r.value.signatureHeaderName)
      && Get(raw, WebhookModelKey) == Str(r.value.webhookModel)
      && Get(raw, ProcessWebhookJobKey) == Str(r.value.processWebhookJobClass)
      && IsSubclassOf(t, r.value.processWebhookJobClass, ProcessWebhookJob)
    ensures r.Success? ==>
      && Get(raw, SignatureValidatorKey) == Str(r.value.signatureValidator.className)
      && IsSubclassOf(t, r.value.signatureValidator.className, SignatureValidator)
      && Get(raw, WebhookProfileKey) == Str(r.value.webhookProfile.className)
      && IsSubclassOf(t, r.value.webhookProfile.className, WebhookProfile)
    ensures r.Success? ==>
      if Get(raw, WebhookResponseKey) == Null then r.value.webhookResponse == Instance(DefaultRespondsTo)
      else
        && Get(raw, WebhookResponseKey) == Str(r.value.webhookResponse.className)
        && IsSubclassOf(t, r.value.webhookResponse.className, RespondsToWebhook)
    ensures r.Failure? ==>
      && r.error.key in Keys
      && !Accepts(t, r.error.key, Get(raw, r.error.key))
      && (r.error.reason.UnknownClass? ==> Get(raw, r.error.key) == Str(r.error.reason.name) && r.error.reason.name !in t)
      && (r.error.reason.NotASubclass? ==> Get(raw, r.error.key) == Str(r.error.reason.name) && r.error.reason.name in t)
      && (r.error.reason.MissingValue? ==> Get(raw, r.error.key) == Null)
  {
    var name :- ResolveString(raw, NameKey);
    var secret :- ResolveString(raw, SigningSecretKey);
    var header :- ResolveString(raw, SignatureHeaderNameKey);
    var validator :- ResolveClass(t, raw, SignatureValidatorKey, SignatureValidator);
    var profile :- ResolveClass(t, raw, WebhookProfileKey, WebhookProfile);
    var response :- ResolveResponse(t, raw);
    var model :- ResolveString(raw, WebhookModelKey);
    var job :- ResolveClass(t, raw, ProcessWebhookJobKey, ProcessWebhookJob);
    Success(WebhookConfig(name, secret, header, Instance(validator), Instance(profile), Instance(response), model, job))
  }

  /** Changing one option of a valid configuration: resolution succeeds exactly when the new
      value is accepted, and otherwise fails reporting that option. */
  lemma ReplaceOneOption(t: ClassTable, raw: RawConfig, key: string, v: RawValue)
    requires ValidConfig(t, raw)
    requires key in Keys
    ensures Resolve(t, raw[key := v]).Success? <==> Accepts(t, key, v)
    ensures Resolve(t, raw[key := v]).Failure? ==> Resolve(t, raw[key := v]).error.key == key
  {
  }

  /** A valid configuration with `webhook_response` set to null still resolves, to the same
      configuration except that the responder is the default one. */
  lemma NullResponseFallsBackToDefault(t: ClassTable, raw: RawConfig)
    requires ValidConfig(t, raw)
    ensures Resolve(t, raw[WebhookResponseKey := Null]) ==
      Success(Resolve(t, raw).value.(webhookResponse := Instance(DefaultRespondsTo)))
  {
  }

  /** `webhook_model` is not checked: in a valid configuration any string may stand there, and
      it is stored as given. */
  lemma ModelNameNotChecked(t: ClassTable, raw: RawConfig, model: string)
    requires ValidConfig(t, raw)
    ensures Resolve(t, raw[WebhookModelKey := Str(model)]) ==
      Success(Resolve(t, raw).value.(webhookModel := model))
  {
  }
}
