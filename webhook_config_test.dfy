/** The configuration the test suite starts from, the classes it names, and one lemma per test:
    each test changes a single option of the fixture and states the outcome. */
module WebhookConfigTest {
  import opened Wrappers
  import opened PhpClasses
  import opened WebhookConfigs

  const DefaultSignatureValidatorClass: ClassName := "Spatie\\WebhookClient\\SignatureValidator\\DefaultSignatureValidator"
  const ProcessEverythingWebhookProfileClass: ClassName := "Spatie\\WebhookClient\\WebhookProfile\\ProcessEverythingWebhookProfile"
  const WebhookCallClass: ClassName := "Spatie\\WebhookClient\\Models\\WebhookCall"
  const ProcessWebhookJobTestClass: ClassName := "Spatie\\WebhookClient\\Tests\\TestClasses\\ProcessWebhookJobTestClass"

  /** The classes loaded when the tests run, each with the framework type it extends or
      implements. */
  const LoadedClasses: ClassTable := map[
    DefaultSignatureValidatorClass := ClassDecl(None, {SignatureValidator}),
    ProcessEverythingWebhookProfileClass := ClassDecl(None, {WebhookProfile}),
    DefaultRespondsTo := ClassDecl(None, {RespondsToWebhook}),
    WebhookCallClass := ClassDecl(None, {Model}),
    ProcessWebhookJobTestClass := ClassDecl(None, {ProcessWebhookJob})
  ]

  /** `getValidConfig()`. */
  const ValidConfigFixture: RawConfig := map[
    NameKey := Str("default"),
    SigningSecretKey := Str("my-secret"),
    SignatureHeaderNameKey := Str("Signature"),
    SignatureValidatorKey := Str(DefaultSignatureValidatorClass),
    WebhookProfileKey := Str(ProcessEverythingWebhookProfileClass),
    WebhookResponseKey := Str(DefaultRespondsTo),
    WebhookModelKey := Str(WebhookCallClass),
    ProcessWebhookJobKey := Str(ProcessWebhookJobTestClass)
  ]

  /** The fixture is accepted, with every option kept or instantiated as named. */
  lemma ItCanHandleAValidConfiguration()
    ensures ValidConfig(LoadedClasses, ValidConfigFixture)
    ensures Resolve(LoadedClasses, ValidConfigFixture) == Success(WebhookConfig(
      "default", "my-secret", "Signature",
      Instance(DefaultSignatureValidatorClass), Instance(ProcessEverythingWebhookProfileClass),
      Instance(DefaultRespondsTo), WebhookCallClass, ProcessWebhookJobTestClass))
  {
  }

  lemma ItValidatesTheSignatureValidator()
    ensures Resolve(LoadedClasses, ValidConfigFixture[SignatureValidatorKey := Str("invalid-signature-validator")])
      == Failure(InvalidConfig(SignatureValidatorKey, UnknownClass("invalid-signature-validator")))
  {
  }

  lemma ItValidatesTheWebhookProfile()
    ensures Resolve(LoadedClasses, ValidConfigFixture[WebhookProfileKey := Str("invalid-webhook-profile")])
      == Failure(InvalidConfig(WebhookProfileKey, UnknownClass("invalid-webhook-profile")))
  {
  }

  /** A loaded class of the wrong kind is refused as well as an unknown one. */
  lemma ItRejectsAProfileOfTheWrongKind()
    ensures Resolve(LoadedClasses, ValidConfigFixture[WebhookProfileKey := Str(DefaultSignatureValidatorClass)])
      == Failure(InvalidConfig(WebhookProfileKey, NotASubclass(DefaultSignatureValidatorClass, WebhookProfile)))
  {
  }

  lemma ItValidatesTheWebhookResponse()
    ensures Resolve(LoadedClasses, ValidConfigFixture[WebhookResponseKey := Str("invalid-webhook-response")])
      == Failure(InvalidConfig(WebhookResponseKey, UnknownClass("invalid-webhook-response")))
  {
  }

  lemma ItUsesTheDefaultWebhookResponseIfNoneProvided()
    ensures Resolve(LoadedClasses, ValidConfigFixture[WebhookResponseKey := Null]).Success?
    ensures Resolve(LoadedClasses, ValidConfigFixture[WebhookResponseKey := Null]).value.webhookResponse
      == Instance(DefaultRespondsTo)
  {
  }

  lemma ItValidatesTheProcessWebhookJob()
    ensures Resolve(LoadedClasses, ValidConfigFixture[ProcessWebhookJobKey := Str("invalid-process-webhook-job")])
      == Failure(InvalidConfig(ProcessWebhookJobKey, UnknownClass("invalid-process-webhook-job")))
  {
  }
}
