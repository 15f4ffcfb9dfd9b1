# Webhook configuration resolution

A model of how the webhook client turns one raw configuration array into a `WebhookConfig`.
The array has eight options: `name`, `signing_secret`, `signature_header_name`,
`signature_validator`, `webhook_profile`, `webhook_response`, `webhook_model` and
`process_webhook_job`. The constructor either returns a resolved configuration or throws
`InvalidConfig`. The resolved configuration works like this:

- the three plain strings are copied through unchanged;
- the signature validator and the webhook profile become instances of the classes they name;
- `webhook_model` and `process_webhook_job` are kept as class names;
- the responder is an instance of the class named by `webhook_response`, or of
  `DefaultRespondsTo` when that option is null.

PHP's class loading and its `is_subclass_of` check are modelled as a class table. The table
maps each loadable class name to its parent class and to the framework types the class directly
extends or implements. Those framework types are `SignatureValidator`, `WebhookProfile`,
`RespondsToWebhook`, `ProcessWebhookJob` and the Eloquent `Model`. A class is a subclass of a
framework type when it, or one of its ancestors, names that type.

Files:

- `wrappers.dfy`: `Option` and `Result`.
- `php_classes.dfy` (module `PhpClasses`): the class table, the ancestor chain (`Lineage`), the
  subclass check (`IsSubclassOf`) and its properties.
- `webhook_config.dfy` (module `WebhookConfigs`): raw values, the resolved configuration,
  `InvalidConfig`, the per-option reference definition `Accepts`, `ValidConfig`, `Resolve` and
  the lemmas that change one option at a time.
- `webhook_config_test.dfy` (module `WebhookConfigTest`): the fixture of
  `tests/WebhookConfigTest.php` (`getValidConfig()` and the classes it names) and one lemma per
  test.

Modelling decisions:

- Reading an option that is absent gives null, as reading a missing array key does in PHP.
- `webhook_model` is never checked against the class table, because no test rejects a model.
  It only has to be a string.
- A null or absent plain option (`name`, `signing_secret`, `signature_header_name`,
  `webhook_model`) is reported as `InvalidConfig` with reason `MissingValue`.
- `InvalidConfig` carries the refused option and a reason: missing value, unknown class, or a
  known class of the wrong kind. The tests check only the exception class. `Resolve` reads the
  options in the fixture's order and reports the first one it refuses. The lemmas prove only
  that the reported option is one whose value is refused. For a configuration where exactly one
  option is bad, they prove it is that option.
- The default responder is built in. A null `webhook_response` resolves to `DefaultRespondsTo`
  without a table lookup.
- `webhook_model` and `process_webhook_job` are stored as the class names given (test lines
  27-28). Nothing is built from them.

## Model

| member | source | states |
|---|---|---|
| `WebhookConfigs.Resolve` | tests/WebhookConfigTest.php:16-28 | Succeeds exactly when every option is accepted (`ValidConfig`). On success: name, secret, header name, model and job class equal the input strings. The validator, profile and responder are instances of exactly the classes named. Every class named under a class-valued option, the job class included, is a subclass of its framework type. When `webhook_response` is null the responder is the built-in `DefaultRespondsTo`, taken without a table lookup, so no subclass fact is proved for it. On failure: the reported option is one the constructor reads and refuses. The reason matches the input: a missing value is null, an unknown class is not loaded, and a class of the wrong kind is loaded. |
| `WebhookConfigs.ResolveString` | tests/WebhookConfigTest.php:22-24 | A plain option succeeds exactly when it is a string and then yields that string. Otherwise it fails with `MissingValue` for that option. |
| `WebhookConfigs.ResolveClass` | tests/WebhookConfigTest.php:32-40 | A class-valued option succeeds exactly when it names a subclass of the required framework type, and then yields that name. Every failure reports that option. |
| `WebhookConfigs.ResolveResponse` | tests/WebhookConfigTest.php:54-71 | A null `webhook_response` yields `DefaultRespondsTo`. A non-null one succeeds exactly when it names a `RespondsToWebhook` subclass. Failures report `webhook_response`. |
| `WebhookConfigs.ReplaceOneOption` | tests/WebhookConfigTest.php:32-82 | Changing one option of a valid configuration: resolution succeeds exactly when the new value is accepted for that option. Otherwise it fails, reporting that option. This is the general form of the four rejection tests. |
| `WebhookConfigs.NullResponseFallsBackToDefault` | tests/WebhookConfigTest.php:65-71 | Setting `webhook_response` of a valid configuration to null gives the same resolved configuration except that the responder is `DefaultRespondsTo`. |
| `WebhookConfigs.ModelNameNotChecked` | tests/WebhookConfigTest.php:27 | Any string under `webhook_model` of a valid configuration is accepted and stored unchanged. Nothing else changes. |
| `PhpClasses.Lineage` | tests/WebhookConfigTest.php:32-82 | The ancestor chain of a class: empty exactly for an unknown class. Otherwise it starts at the class, holds only loaded classes, links each class to its declared parent, and never repeats a class. |
| `PhpClasses.LineageRunsToEnd` | tests/WebhookConfigTest.php:32-82 | The lineage runs to the end of the parent chain: its last class has no parent, or a parent that is not loaded or is already in the lineage. With the clauses of `Lineage`, this pins the lineage down as the whole ancestor chain. |
| `PhpClasses.IsSubclassOf` | tests/WebhookConfigTest.php:32-82 | Only a loaded class can be a subclass. A loaded class that names the framework type itself is one. |
| `PhpClasses.IsSubclassOfIffAncestorImplements` | tests/WebhookConfigTest.php:32-82 | The parent-chain walk agrees with its reference definition: some class in the lineage names the framework type. |
| `PhpClasses.RemoveOffLineage` | tests/WebhookConfigTest.php:32-82 | Loading or dropping a class outside a class's lineage changes neither its lineage nor its subclass relations. |
| `PhpClasses.SubclassInheritsFromParent` | tests/WebhookConfigTest.php:32-82 | For a class that is not its own ancestor (PHP refuses cyclic inheritance), the class is a subclass of a framework type exactly when it names that type or its parent is such a subclass. |
| `WebhookConfigTest.ItCanHandleAValidConfiguration` | tests/WebhookConfigTest.php:16-29 | The fixture is valid. It resolves to name `default`, secret `my-secret`, header `Signature`, instances of the named validator, profile and responder, and the named model and job classes. |
| `WebhookConfigTest.ItValidatesTheSignatureValidator` | tests/WebhookConfigTest.php:32-40 | `invalid-signature-validator` under `signature_validator` fails with `InvalidConfig` for that option, reason unknown class. |
| `WebhookConfigTest.ItValidatesTheWebhookProfile` | tests/WebhookConfigTest.php:43-51 | `invalid-webhook-profile` under `webhook_profile` fails with `InvalidConfig` for that option, reason unknown class. |
| `WebhookConfigTest.ItRejectsAProfileOfTheWrongKind` | tests/WebhookConfigTest.php:43-51 | The loaded `DefaultSignatureValidator` under `webhook_profile` fails with `InvalidConfig`, reason not a `WebhookProfile` subclass. |
| `WebhookConfigTest.ItValidatesTheWebhookResponse` | tests/WebhookConfigTest.php:54-62 | `invalid-webhook-response` under `webhook_response` fails with `InvalidConfig` for that option. |
| `WebhookConfigTest.ItUsesTheDefaultWebhookResponseIfNoneProvided` | tests/WebhookConfigTest.php:65-71 | With `webhook_response` null, the fixture resolves and the responder is an instance of `DefaultRespondsTo`. |
| `WebhookConfigTest.ItValidatesTheProcessWebhookJob` | tests/WebhookConfigTest.php:74-82 | `invalid-process-webhook-job` under `process_webhook_job` fails with `InvalidConfig` for that option. |

## Left out

- `src/WebhookConfig.php` is not part of this model. Its behaviour is modelled from what the tests assert.
- Instantiation through Laravel's service container is modelled as an `Instance` that records
  only the class it was built from. Constructor arguments and container bindings are not modelled.
- Only null and strings are modelled as raw values. Other PHP values (arrays, objects, numbers) are not.
- The class table has no interfaces extending other interfaces and does not tell abstract
  classes from concrete ones. Every listed class counts as loadable and instantiable.
- `WebhookConfigs.ResolveString`: a null plain option is reported as `InvalidConfig`. PHP's typed
  properties would raise a type error instead, which the model does not tell apart.
- Class names are compared exactly, letter for letter. PHP looks class names up without regard
  to letter case, so a name that differs from a loaded class only in case is accepted by PHP
  but refused by the model as an unknown class.
- The wording of the `InvalidConfig` messages is not modelled. Only the option and the reason are kept.
- Signature verification (HMAC over the body), the admission pipeline, storing `WebhookCall`
  records, HTTP responses and job dispatch are not modelled. They are I/O, cryptography and
  queue plumbing whose source is not part of this model.
- Concurrency and request handling belong to the framework and are not modelled.
