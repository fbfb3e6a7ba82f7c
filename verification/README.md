# spring-kafka: retry-topic configurer lookup, JAAS login settings and listener adapters

A Dafny model of five pieces of spring-kafka, the Spring integration layer over the Apache Kafka client:

- **RetryTopicConfigurerProvider** (`retry_topic_configurer_provider.dfy`, module `RetryTopicProvider`).
  It decides how a listener method gets its retry-topic configuration.
  A method annotated `@RetryableTopic` gets a configuration built from the annotation: a backoff policy chosen from `@Backoff`, the first `@DltHandler` method of its class, and a Kafka template looked up by name.
  Any other method gets the first registered `RetryTopicConfigurer` bean that handles its topics.
  All of this is pure functions over abstract inputs.
  The bean factory is a record of its capabilities and beans.
  The declaring class is the sequence of its declared methods.
  SpEL evaluation is a pair of functions from expression text to a value.
- **KafkaJaasLoginModuleInitializer** (`kafka_jaas_login_module_initializer.dfy`, module `Jaas`).
  A class holding the login module name, the control flag and a mutable options map (`StringMap`, standing for the `HashMap` the Java class owns and hands out).
  It also builds the single-entry JAAS configuration installed after the container starts.
  The string-to-flag parser is a pure function.
- **HandlerAdapter** (`handler_adapter.dfy`, module `HandlerAdapters`).
  A class with constant fields holding exactly one of two handler kinds.
  `Invoke` reports the call it makes; in the default-handler case it builds, by a copy loop, the array "payload followed by the provided arguments".
- **DeduplicatingMessageListenerAdapter** (`deduplicating_listener.dfy`, module `Deduplication`).
  A filter in front of a delegate listener.
  The delegate records what it receives, and the class invariant ties that to the function `Forwarded` of the records offered so far.
- **KafkaExceptionLogLevelAware** (`kafka_exception_log_level_aware.dfy`, module `LogLevels`).
  A one-field cell holding a log level, ERROR by default.

`support.dfy` (module `Support`) holds nullable references (`Option`), the Java exceptions thrown (`JavaException`, `Result`, `Outcome`) and the model of `stream().filter(p).findFirst()`.

Inputs the model takes as parameters:
- the value of the `java.security.auth.login.config` system property at construction;
- the bean factory's beans and its placeholder resolution;
- SpEL evaluation;
- the declared methods and annotations that reflection would find;
- the identity hash code of the topics array;
- the de-duplication strategy.

The provider raises no error for any multiplier value.
Any multiplier above 0 selects an exponential policy and goes to `setMultiplier` unchanged; Spring Retry's own setter adjustments are listed under "## Left out".
A multiplier of 0 or less selects a uniform-random or a fixed policy.

## Model

| member | source | states |
|---|---|---|
| `Support.FirstIndex` | spring-kafka/src/main/java/org/springframework/kafka/retrytopic/RetryTopicConfigurerProvider.java:106-112 | findFirst over an ordered stream: None iff no element matches; otherwise the index of a matching element with no match before it |
| `Support.FindFirst` | spring-kafka/src/main/java/org/springframework/kafka/retrytopic/RetryTopicConfigurerProvider.java:186-190 | the element found is the first match in order; None iff nothing matches |
| `RetryTopicProvider.HasText` | spring-kafka/src/main/java/org/springframework/kafka/retrytopic/RetryTopicConfigurerProvider.java:194 | a string has text iff one of its characters is not Java whitespace |
| `RetryTopicProvider.Resolve` | spring-kafka/src/main/java/org/springframework/kafka/retrytopic/RetryTopicConfigurerProvider.java:177-182 | a configurable bean factory resolves placeholders in the expression text; any other leaves it unchanged |
| `RetryTopicProvider.CreateBackoffFromAnnotation` | spring-kafka/src/main/java/org/springframework/kafka/retrytopic/RetryTopicConfigurerProvider.java:132-175 | null bean factory is rejected. Otherwise: exponential iff the effective multiplier is positive (random variant iff `random`), with initial interval min and max interval max when max > min, else 30000. With multiplier <= 0: uniform-random on [min, max] iff max > min, else fixed at min |
| `RetryTopicProvider.BaseDelayFromLiterals` | spring-kafka/src/main/java/org/springframework/kafka/retrytopic/RetryTopicConfigurerProvider.java:138 | without a delay expression the base delay of every policy kind (exponential initial interval, uniform-random minimum, fixed period) is `delay` when non-zero, otherwise `value` |
| `RetryTopicProvider.DefaultBackoffIsFixedOneSecond` | spring-kafka/src/main/java/org/springframework/kafka/retrytopic/RetryTopicConfigurerProvider.java:138-174 | an annotation at its defaults yields a fixed policy of 1000 ms |
| `RetryTopicProvider.DelayExpressionOverridesLiterals` | spring-kafka/src/main/java/org/springframework/kafka/retrytopic/RetryTopicConfigurerProvider.java:138-142 | once the delay expression has text, `delay` and `value` no longer affect the policy |
| `RetryTopicProvider.MaxDelayExpressionOverridesLiteral` | spring-kafka/src/main/java/org/springframework/kafka/retrytopic/RetryTopicConfigurerProvider.java:143-147 | once the max-delay expression has text, `maxDelay` no longer affects the policy |
| `RetryTopicProvider.MultiplierExpressionOverridesLiteral` | spring-kafka/src/main/java/org/springframework/kafka/retrytopic/RetryTopicConfigurerProvider.java:148-152 | once the multiplier expression has text, `multiplier` no longer affects the policy |
| `RetryTopicProvider.BlankExpressionsAreNotEvaluated` | spring-kafka/src/main/java/org/springframework/kafka/retrytopic/RetryTopicConfigurerProvider.java:139-152 | with all expressions blank the policy is independent of SpEL evaluation and placeholder resolution |
| `RetryTopicProvider.RandomIgnoredWithoutMultiplier` | spring-kafka/src/main/java/org/springframework/kafka/retrytopic/RetryTopicConfigurerProvider.java:153-174 | with multiplier <= 0, flipping `random` does not change the policy |
| `RetryTopicProvider.ExponentialMaxBelowInitialOnlyPastDefault` | spring-kafka/src/main/java/org/springframework/kafka/retrytopic/RetryTopicConfigurerProvider.java:157-160 | an exponential policy's max interval is below its initial interval iff max <= min and min exceeds the 30000 ms default |
| `RetryTopicProvider.MaybeGetFromBeanFactory` | spring-kafka/src/main/java/org/springframework/kafka/retrytopic/RetryTopicConfigurerProvider.java:99-113 | a null or non-listable factory gives null. Otherwise the result is the first registered configurer whose shouldHandleTopics holds, and null iff none does |
| `RetryTopicProvider.GetDltProcessor` | spring-kafka/src/main/java/org/springframework/kafka/retrytopic/RetryTopicConfigurerProvider.java:184-191 | the first declared @DltHandler method bound to the bean; the default DLT handler iff no method carries the annotation |
| `RetryTopicProvider.GetKafkaTemplate` | spring-kafka/src/main/java/org/springframework/kafka/retrytopic/RetryTopicConfigurerProvider.java:193-210 | a named template is returned iff that bean exists. Otherwise BeanInitializationException, with the message as written, which shows the topics array as `[Ljava.lang.String;@<hash>`. A null factory gives IllegalStateException. A blank name looks up `retryKafkaTemplate` the same way, and a null factory gives a NullPointerException |
| `RetryTopicProvider.MissingTemplateErrorOmitsTopicNames` | spring-kafka/src/main/java/org/springframework/kafka/retrytopic/RetryTopicConfigurerProvider.java:197-201 | for a missing named template, the exception is the same whatever the topic names, given the same array identity hash |
| `RetryTopicProvider.AsWrittenMessageOmitsTopicNames` | spring-kafka/src/main/java/org/springframework/kafka/retrytopic/RetryTopicConfigurerProvider.java:200-201 | the message as written is the same for topics ["orders"] and ["payments"] with equal array hashes; the corrected message tells them apart |
| `RetryTopicProvider.MissingTemplateMessageNamesTopics` | spring-kafka/src/main/java/org/springframework/kafka/retrytopic/RetryTopicConfigurerProvider.java:200-201 | the corrected message contains every topic name as a substring |
| `RetryTopicProvider.BuildFromAnnotation` | spring-kafka/src/main/java/org/springframework/kafka/retrytopic/RetryTopicConfigurerProvider.java:115-130 | succeeds iff the backoff and the template can both be obtained. A backoff failure takes precedence; otherwise a template failure's exception is passed on unchanged. On success every annotation field is copied to the matching builder field, along with the DLT handler and the topics |
| `RetryTopicProvider.MaybeGet` | spring-kafka/src/main/java/org/springframework/kafka/retrytopic/RetryTopicConfigurerProvider.java:87-93 | an annotated method gets the configuration built from its annotation, or that build's exception; any other method gets the bean-factory lookup and never throws |
| `RetryTopicProvider.NoConfigurerWithoutListableFactory` | spring-kafka/src/main/java/org/springframework/kafka/retrytopic/RetryTopicConfigurerProvider.java:99-103 | without the annotation, a null or non-listable bean factory provides nothing |
| `RetryTopicProvider.AnnotationTakesPrecedence` | spring-kafka/src/main/java/org/springframework/kafka/retrytopic/RetryTopicConfigurerProvider.java:89-92 | an annotated method's result does not depend on the registered configurers or on listability |
| `Jaas.ToUpperCase` | spring-kafka/src/main/java/org/springframework/kafka/security/jaas/KafkaJaasLoginModuleInitializer.java:77 | the upper-cased string has the same length and each character upper-cased |
| `Jaas.ParseControlFlag` | spring-kafka/src/main/java/org/springframework/kafka/security/jaas/KafkaJaasLoginModuleInitializer.java:75-92 | null is rejected. A string is accepted iff its upper-case form is a flag name, and it yields the flag of that name. Otherwise IllegalArgumentException "<s> is not a supported control flag" |
| `Jaas.ParseAcceptsAnyLetterCase` | spring-kafka/src/main/java/org/springframework/kafka/security/jaas/KafkaJaasLoginModuleInitializer.java:77-89 | OPTIONAL, REQUIRED, REQUISITE, SUFFICIENT in any letter case select the matching flag |
| `Jaas.ParseAcceptsOnlyFlagNames` | spring-kafka/src/main/java/org/springframework/kafka/security/jaas/KafkaJaasLoginModuleInitializer.java:77-91 | a string is accepted iff it equals one of the four names up to letter case |
| `Jaas.ControlFlagStringIsRejected` | spring-kafka/src/main/java/org/springframework/kafka/security/jaas/KafkaJaasLoginModuleInitializer.java:71-73 | the string getControlFlag returns is not accepted by setControlFlag |
| `Jaas.InternalConfiguration.GetAppConfigurationEntry` | spring-kafka/src/main/java/org/springframework/kafka/security/jaas/KafkaJaasLoginModuleInitializer.java:148-151 | the entries of a registered name; null iff the name is not registered |
| `Jaas.NewInternalConfiguration` | spring-kafka/src/main/java/org/springframework/kafka/security/jaas/KafkaJaasLoginModuleInitializer.java:142-146 | a null or empty entry map is rejected with IllegalArgumentException; any other map is kept as given |
| `Jaas.StringMap.PutAll` | spring-kafka/src/main/java/org/springframework/kafka/security/jaas/KafkaJaasLoginModuleInitializer.java:105 | the entries become the old entries overridden by the source's |
| `Jaas.KafkaJaasLoginModuleInitializer.constructor` | spring-kafka/src/main/java/org/springframework/kafka/security/jaas/KafkaJaasLoginModuleInitializer.java:44-60 | fresh empty options, the Krb5 login module, REQUIRED, and the system property ignored iff it was unset |
| `Jaas.KafkaJaasLoginModuleInitializer.GetLoginModule` | spring-kafka/src/main/java/org/springframework/kafka/security/jaas/KafkaJaasLoginModuleInitializer.java:62-64 | returns the module last set |
| `Jaas.KafkaJaasLoginModuleInitializer.SetLoginModule` | spring-kafka/src/main/java/org/springframework/kafka/security/jaas/KafkaJaasLoginModuleInitializer.java:66-69 | null is rejected with IllegalArgumentException and the module is unchanged; otherwise the module becomes the argument |
| `Jaas.KafkaJaasLoginModuleInitializer.GetControlFlag` | spring-kafka/src/main/java/org/springframework/kafka/security/jaas/KafkaJaasLoginModuleInitializer.java:71-73 | returns the flag's toString, which setControlFlag rejects |
| `Jaas.KafkaJaasLoginModuleInitializer.SetControlFlag` | spring-kafka/src/main/java/org/springframework/kafka/security/jaas/KafkaJaasLoginModuleInitializer.java:75-93 | an accepted string sets the parsed flag; null or any other string throws and leaves the flag unchanged |
| `Jaas.KafkaJaasLoginModuleInitializer.GetControlFlagValue` | spring-kafka/src/main/java/org/springframework/kafka/security/jaas/KafkaJaasLoginModuleInitializer.java:95-97 | returns the flag last set |
| `Jaas.KafkaJaasLoginModuleInitializer.GetOptions` | spring-kafka/src/main/java/org/springframework/kafka/security/jaas/KafkaJaasLoginModuleInitializer.java:99-101 | returns the initializer's own options map object |
| `Jaas.KafkaJaasLoginModuleInitializer.SetOptions` | spring-kafka/src/main/java/org/springframework/kafka/security/jaas/KafkaJaasLoginModuleInitializer.java:103-106 | afterwards the options hold exactly the source's entries, with no prior entry kept. A null source throws NullPointerException after the clear, leaving the options empty. Passing the options map itself returns normally and also leaves it empty |
| `Jaas.KafkaJaasLoginModuleInitializer.AfterSingletonsInstantiated` | spring-kafka/src/main/java/org/springframework/kafka/security/jaas/KafkaJaasLoginModuleInitializer.java:108-119 | a configuration is built iff the system property was unset at construction. Its only key is KafkaClient, which maps to one entry of the current module, flag and options; any other name gives null |
| `HandlerAdapters.HandlerAdapter.ForHandlerMethod` | spring-kafka/src/main/java/org/springframework/kafka/listener/adapter/HandlerAdapter.java:43-47 | holds the method and no delegating handler; async replies follow the method's return type |
| `HandlerAdapters.HandlerAdapter.ForDelegatingHandler` | spring-kafka/src/main/java/org/springframework/kafka/listener/adapter/HandlerAdapter.java:53-57 | holds the delegating handler and no method; async replies as the handler reports them |
| `HandlerAdapters.HandlerAdapter.IsAsyncReplies` | spring-kafka/src/main/java/org/springframework/kafka/listener/adapter/HandlerAdapter.java:64-66 | returns the value fixed at construction |
| `HandlerAdapters.HandlerAdapter.Invoke` | spring-kafka/src/main/java/org/springframework/kafka/listener/adapter/HandlerAdapter.java:68-82 | a method handler gets message and provided array unchanged. A delegating handler with a default handler gets a fresh array of length n+1: args[0] is the payload and args[i+1] is providedArgs[i]. Without a default handler it gets the provided array unchanged |
| `HandlerAdapters.HandlerAdapter.GetMethodAsString` | spring-kafka/src/main/java/org/springframework/kafka/listener/adapter/HandlerAdapter.java:84-91 | the held method's generic signature, or the delegating handler's method name for the payload |
| `HandlerAdapters.HandlerAdapter.GetBean` | spring-kafka/src/main/java/org/springframework/kafka/listener/adapter/HandlerAdapter.java:93-100 | the bean of whichever handler is held |
| `HandlerAdapters.HandlerAdapter.GetInvocationResultFor` | spring-kafka/src/main/java/org/springframework/kafka/listener/adapter/HandlerAdapter.java:102-108 | null unless a delegating handler is held and the inbound payload is non-null; then that handler's answer |
| `Deduplication.ForwardedAppend` | spring-kafka/src/main/java/org/springframework/kafka/listener/adapter/DeduplicatingMessageListenerAdapter.java:41-46 | one more arriving record extends the forwarded sequence by that record iff it is not a duplicate of what came before |
| `Deduplication.ForwardedAllWhenNoDuplicates` | spring-kafka/src/main/java/org/springframework/kafka/listener/adapter/DeduplicatingMessageListenerAdapter.java:43-44 | when no record is a duplicate, the delegate sees every record in arrival order |
| `Deduplication.NothingForwardedWhenAllDuplicates` | spring-kafka/src/main/java/org/springframework/kafka/listener/adapter/DeduplicatingMessageListenerAdapter.java:43-45 | when every record is a duplicate, the delegate sees nothing |
| `Deduplication.ForwardedIsSubMultiset` | spring-kafka/src/main/java/org/springframework/kafka/listener/adapter/DeduplicatingMessageListenerAdapter.java:44 | only offered records are forwarded, none more often than offered |
| `Deduplication.DeduplicatingMessageListenerAdapter.constructor` | spring-kafka/src/main/java/org/springframework/kafka/listener/adapter/DeduplicatingMessageListenerAdapter.java:35-39 | the strategy and the delegate are fixed, and the invariant holds with nothing offered yet |
| `Deduplication.DeduplicatingMessageListenerAdapter.OnMessage` | spring-kafka/src/main/java/org/springframework/kafka/listener/adapter/DeduplicatingMessageListenerAdapter.java:41-46 | the delegate receives the unchanged record iff it is not a duplicate, and nothing otherwise. The invariant "delegate received = earlier records + Forwarded(history)" is kept whenever it held before the call |
| `LogLevels.SetLogLevelIdempotent` | spring-kafka/src/main/java/org/springframework/kafka/listener/KafkaExceptionLogLevelAware.java:38-41 | setting the same level twice equals setting it once |
| `LogLevels.LastSetWins` | spring-kafka/src/main/java/org/springframework/kafka/listener/KafkaExceptionLogLevelAware.java:38-41 | after two sets the later non-null level is in effect |
| `LogLevels.KafkaExceptionLogLevelAware.constructor` | spring-kafka/src/main/java/org/springframework/kafka/listener/KafkaExceptionLogLevelAware.java:32 | the initial level is ERROR |
| `LogLevels.KafkaExceptionLogLevelAware.SetLogLevel` | spring-kafka/src/main/java/org/springframework/kafka/listener/KafkaExceptionLogLevelAware.java:38-41 | null is rejected with IllegalArgumentException and the level is kept; otherwise the level becomes the argument |
| `LogLevels.KafkaExceptionLogLevelAware.GetLogLevel` | spring-kafka/src/main/java/org/springframework/kafka/listener/KafkaExceptionLogLevelAware.java:47-49 | returns the level last set |

## Left out

- The retry routing engine is not modelled: the destination resolver, the topic topology builder and the fatal-exception classifier.
- The invocation counts of the class-level exception routing integration test. They are end-to-end outcomes of code not part of this model, running on an embedded broker.
- SpEL parsing and evaluation: modelled as given functions to a Long or Double. A parse failure, an evaluation exception and a null result are not modelled.
- Java `double` for `multiplier`: it is a `real`. NaN and infinities are not modelled; only the comparison with 0 is used.
- The warning `maybeGetFromBeanFactory` logs when there is no listable bean factory: logging is not modelled.
- Spring Retry policy objects: their setters' own adjustments (minimum intervals, multiplier at least 1, default periods), sleeping and random draws. The model records the values the provider passes to the setters.
- `setBeanFactory` calls on the chosen configurer and on the built one. The result does not record the bean factory handed over.
- `getBean` finding a bean of the wrong type (BeanNotOfRequiredTypeException): the model's template map holds only KafkaOperations beans.
- Reflection and annotation lookup: each declared method carries its `@RetryableTopic` and `@DltHandler` as plain fields; meta-annotations and class-level annotations are not modelled.
- The RetryTopicConfigurer builder and `create` are not part of this model; `BuildFromAnnotation` returns the values handed to them.
- JAAS global effects: installing the `Configuration`, setting and clearing the system property, the placeholder temp file and `destroy`.
- Null keys and null values in the options `HashMap`: the model's `map<string, string>` cannot hold them.
- The JDK `AppConfigurationEntry` constructor's own checks (e.g. an empty module name). The entry holds a snapshot of the options, not a read-only view of the live map.
- `Jaas.ToUpperCase`: ASCII case mapping only. Locale-dependent mapping (the Turkish dotted capital I) and non-ASCII mappings are not modelled, such as the dotless i or the long s becoming ASCII letters, or ligatures expanding to several letters.
- `Jaas.KafkaJaasLoginModuleInitializer.GetControlFlag`: assumes the English resource text "LoginModuleControlFlag: " of the JDK's `LoginModuleControlFlag.toString`.
- Character width: Java strings are UTF-16 code units, while the model's `char` is a Unicode scalar value. `HasText` follows `Character.isWhitespace` of current JDKs.
- HandlerAdapter: the reflective invocation itself, its result and the exceptions it throws. `AdapterUtils.isAsyncReply` is a flag of the handler method. Null constructor arguments (NullPointerException) are not modelled. A null varargs array is not modelled either: the default-handler branch would throw NullPointerException reading its length, while the other two branches pass the null array on unchanged.
- The de-duplication strategy's internals: `isDuplicate` is an arbitrary predicate of the records offered before and the new record. Exceptions thrown by the delegate are not modelled.
- Embedded-broker test listeners, the consumer/producer strategy and the header-mapper tests: they start brokers, build real clients, or test a mapper not part of this model.

## Findings

| source | as written | input that shows it | evidently intended | confidence | as-written member | corrected member |
|---|---|---|---|---|---|---|
| spring-kafka/src/main/java/org/springframework/kafka/retrytopic/RetryTopicConfigurerProvider.java:200-201 | the message concatenates the `String[] topics`, which renders as `[Ljava.lang.String;@<hash>` | a `@RetryableTopic(kafkaTemplate = "t")` listener on topic `orders` with no bean `t`: the message names no topic | list the topic names, as `Arrays.toString(topics)` would | high, not executed | `RetryTopicProvider.GetKafkaTemplate` | `RetryTopicProvider.MissingTemplateMessageNamesTopics` |
