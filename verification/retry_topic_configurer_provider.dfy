/**
 * RetryTopicConfigurerProvider: finds the retry-topic configuration of a
 * listener method, either built from its @RetryableTopic annotation or taken
 * from the RetryTopicConfigurer beans registered in the bean factory.
 *
 * The collaborators are abstracted as values: the bean factory is a record of
 * its capabilities and its beans, reflection over the declaring class is the
 * sequence of its declared methods, and SpEL evaluation of an (already
 * placeholder-resolved) expression is a pair of functions.
 */
module RetryTopicProvider {
  import opened Support

  /** Java's `long`. */
  newtype i64 = x: int | -0x8000_0000_0000_0000 <= x < 0x8000_0000_0000_0000

  /** ExponentialBackOffPolicy.DEFAULT_MAX_INTERVAL of Spring Retry, in milliseconds. */
  const DEFAULT_MAX_INTERVAL: i64 := 30000

  /** The bean name looked up when the annotation names no template. */
  const DEFAULT_KAFKA_TEMPLATE_BEAN_NAME := "retryKafkaTemplate"

  /** Spring Retry's @Backoff annotation. `multiplier` is a Java double; only its sign is used. */
  datatype Backoff = Backoff(
    value: i64,
    delay: i64,
    maxDelay: i64,
    multiplier: real,
    delayExpression: string,
    maxDelayExpression: string,
    multiplierExpression: string,
    random: bool)

  /** @Backoff with every attribute at its declared default. */
  const DefaultBackoff := Backoff(1000, 0, 0, 0.0, "", "", "", false)

  /** The backoff policies the provider can build, with the values it passes to their setters. */
  datatype BackOffPolicy =
    | Exponential(initialInterval: i64, multiplier: real, maxInterval: i64)
    | ExponentialRandom(initialInterval: i64, multiplier: real, maxInterval: i64)
    | UniformRandom(minBackOffPeriod: i64, maxBackOffPeriod: i64)
    | Fixed(backOffPeriod: i64)
  {
    predicate IsExponential() { Exponential? || ExponentialRandom? }
  }

  /** Evaluation of a SpEL template expression to a Long or to a Double. */
  datatype SpelEvaluator = SpelEvaluator(asLong: string -> i64, asDouble: string -> real)

  /** A RetryTopicConfigurer bean registered in the container. */
  datatype ConfigurerBean = ConfigurerBean(beanName: string, shouldHandleTopics: seq<string> -> bool)

  /** A KafkaOperations bean (a KafkaTemplate). */
  datatype KafkaTemplate = KafkaTemplate(id: nat)

  /**
   * The container's bean factory: whether it is a ListableBeanFactory and a
   * ConfigurableBeanFactory, its KafkaOperations beans by name, its
   * RetryTopicConfigurer beans in registration order, and its placeholder
   * resolution.
   */
  datatype BeanFactory = BeanFactory(
    listable: bool,
    configurable: bool,
    kafkaOperations: map<string, KafkaTemplate>,
    retryTopicConfigurers: seq<ConfigurerBean>,
    resolveEmbeddedValue: string -> string)

  /** A bean instance, identified by name. */
  datatype Bean = Bean(name: string)

  /** The @RetryableTopic annotation. */
  datatype RetryableTopic = RetryableTopic(
    attempts: int,
    backoff: Backoff,
    retryTopicSuffix: string,
    dltTopicSuffix: string,
    listenerContainerFactory: string,
    autoCreateTopics: bool,
    numPartitions: int,
    replicationFactor: int,
    includeExceptions: seq<string>,
    excludeExceptions: seq<string>,
    traversingCauses: bool,
    kafkaTemplate: string)

  /** A method of the listener's class, with the annotations the provider looks for. */
  datatype ListenerMethod = ListenerMethod(name: string, retryableTopic: Option<RetryableTopic>, dltHandler: bool)

  /** A String[] of topic names; as a Java object it also has an identity hash code (hexadecimal). */
  datatype TopicArray = TopicArray(elements: seq<string>, identityHashHex: string)

  /** The method that consumes dead-lettered records. */
  datatype EndpointHandlerMethod = HandlerMethodOf(bean: Bean, methodName: string) | DefaultDltHandler

  /** The values the provider hands to RetryTopicConfigurer's builder. */
  datatype RetryTopicConfiguration = RetryTopicConfiguration(
    maxAttempts: int,
    customBackoff: BackOffPolicy,
    retryTopicSuffix: string,
    dltSuffix: string,
    dltHandlerMethod: EndpointHandlerMethod,
    includeTopics: seq<string>,
    listenerFactory: string,
    autoCreateTopics: bool,
    numPartitions: int,
    replicationFactor: int,
    retryOn: seq<string>,
    notRetryOn: seq<string>,
    traversingCauses: bool,
    template: KafkaTemplate)

  /** What `maybeGet` provides: a configurer built from the annotation, or a registered bean. */
  datatype ProvidedConfigurer = FromAnnotation(configuration: RetryTopicConfiguration) | FromBeanFactory(bean: ConfigurerBean)

  // ---------------------------------------------------------------------
  // StringUtils.hasText

  /** Character.isWhitespace: the Unicode space separators except the no-break ones, and the ASCII controls listed. */
  predicate IsWhitespace(c: char)
  {
    || c == ' ' || c == '\t' || c == '\n' || c == '\U{000B}' || c == '\U{000C}' || c == '\r'
    || ('\U{001C}' <= c <= '\U{001F}')
    || c == '\U{1680}'
    || ('\U{2000}' <= c <= '\U{2006}') || ('\U{2008}' <= c <= '\U{200A}')
    || c == '\U{2028}' || c == '\U{2029}' || c == '\U{205F}' || c == '\U{3000}'
  }

  /** StringUtils.hasText: some character of `s` is not whitespace. */
  function HasText(s: string): (b: bool)
    ensures b <==> exists i :: 0 <= i < |s| && !IsWhitespace(s[i])
  {
    if |s| == 0 then false
    else if !IsWhitespace(s[0]) then true
    else
      var rest := HasText(s[1..]);
      assert forall i :: 1 <= i < |s| ==> s[i] == s[1..][i - 1];
      rest
  }

  // ---------------------------------------------------------------------
  // createBackoffFromAnnotation

  /** `resolve`: placeholder resolution, applied only by a ConfigurableBeanFactory. */
  function Resolve(value: string, beanFactory: BeanFactory): (r: string)
    ensures !beanFactory.configurable ==> r == value
    ensures beanFactory.configurable ==> r == beanFactory.resolveEmbeddedValue(value)
  {
    if beanFactory.configurable then beanFactory.resolveEmbeddedValue(value) else value
  }

  /** The base delay of the annotation's literals: `delay`, unless it is zero, then `value`. */
  function LiteralMin(backoff: Backoff): i64
  {
    if backoff.delay == 0 then backoff.value else backoff.delay
  }

  /** The minimum delay in effect: the delay expression's value when it has text, else the literal. */
  function EffectiveMin(backoff: Backoff, beanFactory: BeanFactory, spel: SpelEvaluator): i64
  {
    if HasText(backoff.delayExpression)
    then spel.asLong(Resolve(backoff.delayExpression, beanFactory))
    else LiteralMin(backoff)
  }

  /** The maximum delay in effect: the max-delay expression's value when it has text, else `maxDelay`. */
  function EffectiveMax(backoff: Backoff, beanFactory: BeanFactory, spel: SpelEvaluator): i64
  {
    if HasText(backoff.maxDelayExpression)
    then spel.asLong(Resolve(backoff.maxDelayExpression, beanFactory))
    else backoff.maxDelay
  }

  /** The multiplier in effect: the multiplier expression's value when it has text, else `multiplier`. */
  function EffectiveMultiplier(backoff: Backoff, beanFactory: BeanFactory, spel: SpelEvaluator): real
  {
    if HasText(backoff.multiplierExpression)
    then spel.asDouble(Resolve(backoff.multiplierExpression, beanFactory))
    else backoff.multiplier
  }

  /**
   * `createBackoffFromAnnotation`. Building the SpEL evaluation context's bean
   * resolver (BeanFactoryResolver) rejects a null bean factory.
   */
  function CreateBackoffFromAnnotation(backoff: Backoff, beanFactory: Option<BeanFactory>, spel: SpelEvaluator): (r: Result<BackOffPolicy>)
    ensures beanFactory.None? <==> r.Err?
    ensures r.Err? ==> r.error == IllegalArgument("BeanFactory must not be null")
    ensures r.Ok? ==>
      var min, max := EffectiveMin(backoff, beanFactory.value, spel), EffectiveMax(backoff, beanFactory.value, spel);
      var multiplier := EffectiveMultiplier(backoff, beanFactory.value, spel);
      var p := r.value;
      && (p.IsExponential() <==> multiplier > 0.0)
      && (p.ExponentialRandom? <==> multiplier > 0.0 && backoff.random)
      && (p.IsExponential() ==> p.initialInterval == min && p.multiplier == multiplier)
      && (p.IsExponential() ==> p.maxInterval == (if max > min then max else DEFAULT_MAX_INTERVAL))
      && (p.UniformRandom? <==> multiplier <= 0.0 && max > min)
      && (p.UniformRandom? ==> p.minBackOffPeriod == min && p.maxBackOffPeriod == max)
      && (p.Fixed? <==> multiplier <= 0.0 && max <= min)
      && (p.Fixed? ==> p.backOffPeriod == min)
  {
    match beanFactory
    case None => Err(IllegalArgument("BeanFactory must not be null"))
    case Some(factory) =>
      var min := EffectiveMin(backoff, factory, spel);
      var max := EffectiveMax(backoff, factory, spel);
      var multiplier := EffectiveMultiplier(backoff, factory, spel);
      if multiplier > 0.0 then
        if backoff.random
        then Ok(ExponentialRandom(min, multiplier, if max > min then max else DEFAULT_MAX_INTERVAL))
        else Ok(Exponential(min, multiplier, if max > min then max else DEFAULT_MAX_INTERVAL))
      else if max > min then Ok(UniformRandom(min, max))
      else Ok(Fixed(min))
  }

  /**
   * Without a delay expression the base delay of every policy kind (the
   * exponential initial interval, the uniform-random minimum, the fixed period)
   * is `delay` when it is non-zero, otherwise `value`.
   */
  lemma BaseDelayFromLiterals(backoff: Backoff, factory: BeanFactory, spel: SpelEvaluator)
    requires !HasText(backoff.delayExpression)
    ensures var p := CreateBackoffFromAnnotation(backoff, Some(factory), spel).value;
      var base := if backoff.delay != 0 then backoff.delay else backoff.value;
      && (p.IsExponential() ==> p.initialInterval == base)
      && (p.UniformRandom? ==> p.minBackOffPeriod == base)
      && (p.Fixed? ==> p.backOffPeriod == base)
  {
  }

  /** An annotation left at its defaults gives a fixed one-second backoff. */
  lemma DefaultBackoffIsFixedOneSecond(factory: BeanFactory, spel: SpelEvaluator)
    ensures CreateBackoffFromAnnotation(DefaultBackoff, Some(factory), spel) == Ok(Fixed(1000))
  {
    assert !HasText("");
  }

  /** A delay expression with text replaces both `delay` and `value`: they no longer influence the policy. */
  lemma DelayExpressionOverridesLiterals(b1: Backoff, b2: Backoff, factory: BeanFactory, spel: SpelEvaluator)
    requires HasText(b1.delayExpression) && b2 == b1.(delay := b2.delay, value := b2.value)
    ensures CreateBackoffFromAnnotation(b1, Some(factory), spel) == CreateBackoffFromAnnotation(b2, Some(factory), spel)
  {
  }

  /** A max-delay expression with text replaces `maxDelay`. */
  lemma MaxDelayExpressionOverridesLiteral(b1: Backoff, b2: Backoff, factory: BeanFactory, spel: SpelEvaluator)
    requires HasText(b1.maxDelayExpression) && b2 == b1.(maxDelay := b2.maxDelay)
    ensures CreateBackoffFromAnnotation(b1, Some(factory), spel) == CreateBackoffFromAnnotation(b2, Some(factory), spel)
  {
  }

  /** A multiplier expression with text replaces `multiplier`. */
  lemma MultiplierExpressionOverridesLiteral(b1: Backoff, b2: Backoff, factory: BeanFactory, spel: SpelEvaluator)
    requires HasText(b1.multiplierExpression) && b2 == b1.(multiplier := b2.multiplier)
    ensures CreateBackoffFromAnnotation(b1, Some(factory), spel) == CreateBackoffFromAnnotation(b2, Some(factory), spel)
  {
  }

  /** Blank expressions are never evaluated: the policy does not depend on the evaluator or on placeholder resolution. */
  lemma BlankExpressionsAreNotEvaluated(backoff: Backoff, f1: BeanFactory, f2: BeanFactory, s1: SpelEvaluator, s2: SpelEvaluator)
    requires !HasText(backoff.delayExpression) && !HasText(backoff.maxDelayExpression)
    requires !HasText(backoff.multiplierExpression)
    ensures CreateBackoffFromAnnotation(backoff, Some(f1), s1) == CreateBackoffFromAnnotation(backoff, Some(f2), s2)
  {
  }

  /** With a non-positive multiplier the `random` attribute is ignored. */
  lemma RandomIgnoredWithoutMultiplier(backoff: Backoff, factory: BeanFactory, spel: SpelEvaluator)
    requires EffectiveMultiplier(backoff, factory, spel) <= 0.0
    ensures CreateBackoffFromAnnotation(backoff, Some(factory), spel)
         == CreateBackoffFromAnnotation(backoff.(random := !backoff.random), Some(factory), spel)
  {
  }

  /**
   * An exponential policy's maximum interval falls below its initial interval
   * exactly when no larger maximum was given and the base delay exceeds the
   * library's default maximum of 30 seconds.
   */
  lemma ExponentialMaxBelowInitialOnlyPastDefault(backoff: Backoff, factory: BeanFactory, spel: SpelEvaluator)
    requires EffectiveMultiplier(backoff, factory, spel) > 0.0
    ensures var p := CreateBackoffFromAnnotation(backoff, Some(factory), spel).value;
      var min, max := EffectiveMin(backoff, factory, spel), EffectiveMax(backoff, factory, spel);
      p.maxInterval < p.initialInterval <==> max <= min && min > DEFAULT_MAX_INTERVAL
  {
  }

  // ---------------------------------------------------------------------
  // Lookups

  /** `maybeGetFromBeanFactory`: the first registered configurer that handles the topics. */
  function MaybeGetFromBeanFactory(beanFactory: Option<BeanFactory>, topics: seq<string>): (r: Option<ConfigurerBean>)
    ensures (beanFactory.None? || !beanFactory.value.listable) ==> r.None?
    ensures beanFactory.Some? && beanFactory.value.listable ==>
      var cs := beanFactory.value.retryTopicConfigurers;
      && (r.None? <==> forall i :: 0 <= i < |cs| ==> !cs[i].shouldHandleTopics(topics))
      && (r.Some? ==> exists i: nat :: IsFirstMatch(cs, (c: ConfigurerBean) => c.shouldHandleTopics(topics), i) && cs[i] == r.value)
  {
    if beanFactory.None? || !beanFactory.value.listable then None
    else FindFirst(beanFactory.value.retryTopicConfigurers, (c: ConfigurerBean) => c.shouldHandleTopics(topics))
  }

  /** `getDltProcessor`: the first declared method annotated @DltHandler, bound to the bean, else the default DLT handler. */
  function GetDltProcessor(declaredMethods: seq<ListenerMethod>, bean: Bean): (r: EndpointHandlerMethod)
    ensures r.DefaultDltHandler? <==> forall i :: 0 <= i < |declaredMethods| ==> !declaredMethods[i].dltHandler
    ensures r.HandlerMethodOf? ==> r.bean == bean
    ensures r.HandlerMethodOf? ==>
      exists i: nat :: IsFirstMatch(declaredMethods, (m: ListenerMethod) => m.dltHandler, i) && declaredMethods[i].name == r.methodName
  {
    match FindFirst(declaredMethods, (m: ListenerMethod) => m.dltHandler)
    case None => DefaultDltHandler
    case Some(m) => HandlerMethodOf(bean, m.name)
  }

  /** How `"..." + topics` renders a String[]: Object.toString, the class name and the identity hash. */
  function ArrayObjectToString(topics: TopicArray): string
  {
    "[Ljava.lang.String;@" + topics.identityHashHex
  }

  /** The message for a missing named template, as the source builds it: the topics appear only by array identity. */
  function MissingTemplateMessageAsWritten(topics: TopicArray, kafkaTemplateName: string): string
  {
    "Could not register Kafka listener endpoint for topics " + ArrayObjectToString(topics)
      + ", no KafkaOperations with id '" + kafkaTemplateName + "' was found in the application context"
  }

  /**
   * Two listeners on different topics, whose topic arrays happen to share an
   * identity hash, get the same as-written message; listing the names tells them apart.
   */
  lemma AsWrittenMessageOmitsTopicNames(kafkaTemplateName: string)
    ensures MissingTemplateMessageAsWritten(TopicArray(["orders"], "1b6d3586"), kafkaTemplateName)
         == MissingTemplateMessageAsWritten(TopicArray(["payments"], "1b6d3586"), kafkaTemplateName)
    ensures MissingTemplateMessage(TopicArray(["orders"], "1b6d3586"), kafkaTemplateName)
         != MissingTemplateMessage(TopicArray(["payments"], "1b6d3586"), kafkaTemplateName)
  {
    var prefix := "Could not register Kafka listener endpoint for topics [";
    var m1 := MissingTemplateMessage(TopicArray(["orders"], "1b6d3586"), kafkaTemplateName);
    var m2 := MissingTemplateMessage(TopicArray(["payments"], "1b6d3586"), kafkaTemplateName);
    assert m1[|prefix|] == 'o' && m2[|prefix|] == 'p';
  }

  /** `t` occurs in `s` as a contiguous substring. */
  ghost predicate Contains(s: string, t: string)
  {
    exists k :: OccursAt(s, t, k)
  }

  /** `t` occurs in `s` starting at position `k`. */
  ghost predicate OccursAt(s: string, t: string, k: int)
  {
    0 <= k <= |s| - |t| && s[k..k + |t|] == t
  }

  /** The names joined with ", ", as Arrays.toString renders them between brackets. */
  function JoinNames(names: seq<string>): string
  {
    if |names| == 0 then ""
    else if |names| == 1 then names[0]
    else names[0] + ", " + JoinNames(names[1..])
  }

  /** Arrays.toString of a String[]. */
  function ArraysToString(names: seq<string>): string
  {
    "[" + JoinNames(names) + "]"
  }

  /** The message for a missing named template as evidently intended: the topic names listed, as Arrays.toString renders them. */
  function MissingTemplateMessage(topics: TopicArray, kafkaTemplateName: string): string
  {
    "Could not register Kafka listener endpoint for topics " + ArraysToString(topics.elements)
      + ", no KafkaOperations with id '" + kafkaTemplateName + "' was found in the application context"
  }

  lemma {:induction false} JoinNamesContainsEach(names: seq<string>, i: nat)
    requires i < |names|
    ensures Contains(JoinNames(names), names[i])
  {
    var t := names[i];
    if |names| == 1 {
      assert JoinNames(names)[0..|t|] == t;
      assert OccursAt(JoinNames(names), t, 0);
    } else if i == 0 {
      assert JoinNames(names)[0..|t|] == t;
      assert OccursAt(JoinNames(names), t, 0);
    } else {
      JoinNamesContainsEach(names[1..], i - 1);
      var rest := JoinNames(names[1..]);
      var k :| OccursAt(rest, t, k);
      var prefix := names[0] + ", ";
      assert JoinNames(names) == prefix + rest;
      assert JoinNames(names)[|prefix| + k..|prefix| + k + |t|] == rest[k..k + |t|];
      assert OccursAt(JoinNames(names), t, |prefix| + k);
    }
  }

  /** Every topic name appears in the corrected message. */
  lemma MissingTemplateMessageNamesTopics(topics: TopicArray, kafkaTemplateName: string, i: nat)
    requires i < |topics.elements|
    ensures Contains(MissingTemplateMessage(topics, kafkaTemplateName), topics.elements[i])
  {
    var t := topics.elements[i];
    JoinNamesContainsEach(topics.elements, i);
    var join := JoinNames(topics.elements);
    var k :| OccursAt(join, t, k);
    var prefix := "Could not register Kafka listener endpoint for topics [";
    var m := MissingTemplateMessage(topics, kafkaTemplateName);
    assert m == prefix + join + ("]" + ", no KafkaOperations with id '" + kafkaTemplateName + "' was found in the application context");
    assert m[|prefix| + k..|prefix| + k + |t|] == join[k..k + |t|];
    assert OccursAt(m, t, |prefix| + k);
  }

  /**
   * `getKafkaTemplate`: a template name with text must name a KafkaOperations
   * bean; a blank one falls back to the bean named `retryKafkaTemplate`.
   */
  function GetKafkaTemplate(beanFactory: Option<BeanFactory>, kafkaTemplateName: string, topics: TopicArray): (r: Result<KafkaTemplate>)
    ensures HasText(kafkaTemplateName) ==>
      match beanFactory
      case None => r == Err(IllegalState("BeanFactory must be set to obtain kafka template by bean name"))
      case Some(f) =>
        && (r.Ok? <==> kafkaTemplateName in f.kafkaOperations)
        && (r.Ok? ==> r.value == f.kafkaOperations[kafkaTemplateName])
        && (r.Err? ==> r.error == BeanInitialization(MissingTemplateMessageAsWritten(topics, kafkaTemplateName)))
    ensures !HasText(kafkaTemplateName) ==>
      match beanFactory
      case None => r == Err(NullPointer)
      case Some(f) =>
        && (r.Ok? <==> DEFAULT_KAFKA_TEMPLATE_BEAN_NAME in f.kafkaOperations)
        && (r.Ok? ==> r.value == f.kafkaOperations[DEFAULT_KAFKA_TEMPLATE_BEAN_NAME])
        && (r.Err? ==> r.error == BeanInitialization("Could not find a KafkaTemplate to configure the retry topics."))
  {
    if HasText(kafkaTemplateName) then
      if beanFactory.None? then Err(IllegalState("BeanFactory must be set to obtain kafka template by bean name"))
      else if kafkaTemplateName in beanFactory.value.kafkaOperations then Ok(beanFactory.value.kafkaOperations[kafkaTemplateName])
      else Err(BeanInitialization(MissingTemplateMessageAsWritten(topics, kafkaTemplateName)))
    else if beanFactory.None? then Err(NullPointer)
    else if DEFAULT_KAFKA_TEMPLATE_BEAN_NAME in beanFactory.value.kafkaOperations
    then Ok(beanFactory.value.kafkaOperations[DEFAULT_KAFKA_TEMPLATE_BEAN_NAME])
    else Err(BeanInitialization("Could not find a KafkaTemplate to configure the retry topics."))
  }

  /**
   * The exception `getKafkaTemplate` throws for a missing named template does
   * not depend on the topic names, only on the array's identity hash.
   */
  lemma MissingTemplateErrorOmitsTopicNames(factory: BeanFactory, kafkaTemplateName: string, names1: seq<string>, names2: seq<string>, hash: string)
    requires HasText(kafkaTemplateName) && kafkaTemplateName !in factory.kafkaOperations
    ensures GetKafkaTemplate(Some(factory), kafkaTemplateName, TopicArray(names1, hash))
         == GetKafkaTemplate(Some(factory), kafkaTemplateName, TopicArray(names2, hash))
    ensures GetKafkaTemplate(Some(factory), kafkaTemplateName, TopicArray(names1, hash)).Err?
  {
  }

  /**
   * `buildFromAnnotation`: the backoff is built first, then the DLT handler and
   * the template are looked up; the first failure is the result.
   */
  function BuildFromAnnotation(beanFactory: Option<BeanFactory>, spel: SpelEvaluator, topics: TopicArray,
                               declaredMethods: seq<ListenerMethod>, annotation: RetryableTopic, bean: Bean): (r: Result<RetryTopicConfiguration>)
    ensures CreateBackoffFromAnnotation(annotation.backoff, beanFactory, spel).Err? ==>
      r == Err(CreateBackoffFromAnnotation(annotation.backoff, beanFactory, spel).error)
    ensures (CreateBackoffFromAnnotation(annotation.backoff, beanFactory, spel).Ok?
             && GetKafkaTemplate(beanFactory, annotation.kafkaTemplate, topics).Err?) ==>
      r == Err(GetKafkaTemplate(beanFactory, annotation.kafkaTemplate, topics).error)
    ensures r.Ok? <==> (CreateBackoffFromAnnotation(annotation.backoff, beanFactory, spel).Ok?
                        && GetKafkaTemplate(beanFactory, annotation.kafkaTemplate, topics).Ok?)
    ensures r.Ok? ==>
      var c := r.value;
      && c.maxAttempts == annotation.attempts
      && c.customBackoff == CreateBackoffFromAnnotation(annotation.backoff, beanFactory, spel).value
      && c.retryTopicSuffix == annotation.retryTopicSuffix
      && c.dltSuffix == annotation.dltTopicSuffix
      && c.dltHandlerMethod == GetDltProcessor(declaredMethods, bean)
      && c.includeTopics == topics.elements
      && c.listenerFactory == annotation.listenerContainerFactory
      && c.autoCreateTopics == annotation.autoCreateTopics
      && c.numPartitions == annotation.numPartitions
      && c.replicationFactor == annotation.replicationFactor
      && c.retryOn == annotation.includeExceptions
      && c.notRetryOn == annotation.excludeExceptions
      && c.traversingCauses == annotation.traversingCauses
      && c.template == GetKafkaTemplate(beanFactory, annotation.kafkaTemplate, topics).value
  {
    match CreateBackoffFromAnnotation(annotation.backoff, beanFactory, spel)
    case Err(e) => Err(e)
    case Ok(policy) =>
      var dltHandler := GetDltProcessor(declaredMethods, bean);
      match GetKafkaTemplate(beanFactory, annotation.kafkaTemplate, topics)
      case Err(e) => Err(e)
      case Ok(template) =>
        Ok(RetryTopicConfiguration(
          annotation.attempts, policy, annotation.retryTopicSuffix, annotation.dltTopicSuffix,
          dltHandler, topics.elements, annotation.listenerContainerFactory,
          annotation.autoCreateTopics, annotation.numPartitions, annotation.replicationFactor,
          annotation.includeExceptions, annotation.excludeExceptions, annotation.traversingCauses, template))
  }

  /**
   * `maybeGet`: a method carrying @RetryableTopic gets a configurer built from
   * the annotation; any other method gets the first registered configurer that
   * handles its topics, or none.
   */
  function MaybeGet(beanFactory: Option<BeanFactory>, spel: SpelEvaluator, topics: TopicArray,
                    listenerMethod: ListenerMethod, declaredMethods: seq<ListenerMethod>, bean: Bean): (r: Result<Option<ProvidedConfigurer>>)
    ensures listenerMethod.retryableTopic.Some? ==>
      match BuildFromAnnotation(beanFactory, spel, topics, declaredMethods, listenerMethod.retryableTopic.value, bean)
      case Ok(c) => r == Ok(Some(FromAnnotation(c)))
      case Err(e) => r == Err(e)
    ensures listenerMethod.retryableTopic.None? ==>
      r.Ok? && (r.value.None? <==> MaybeGetFromBeanFactory(beanFactory, topics.elements).None?)
      && (r.value.Some? ==> r.value.value == FromBeanFactory(MaybeGetFromBeanFactory(beanFactory, topics.elements).value))
  {
    match listenerMethod.retryableTopic
    case Some(annotation) =>
      (match BuildFromAnnotation(beanFactory, spel, topics, declaredMethods, annotation, bean)
       case Ok(c) => Ok(Some(FromAnnotation(c)))
       case Err(e) => Err(e))
    case None =>
      (match MaybeGetFromBeanFactory(beanFactory, topics.elements)
       case None => Ok(None)
       case Some(c) => Ok(Some(FromBeanFactory(c))))
  }

  /** Without the annotation, a missing or non-listable bean factory provides nothing. */
  lemma NoConfigurerWithoutListableFactory(beanFactory: Option<BeanFactory>, spel: SpelEvaluator, topics: TopicArray,
                                           listenerMethod: ListenerMethod, declaredMethods: seq<ListenerMethod>, bean: Bean)
    requires listenerMethod.retryableTopic.None?
    requires beanFactory.None? || !beanFactory.value.listable
    ensures MaybeGet(beanFactory, spel, topics, listenerMethod, declaredMethods, bean) == Ok(None)
  {
  }

  /** An annotated listener never consults the registered configurers. */
  lemma AnnotationTakesPrecedence(f1: BeanFactory, f2: BeanFactory, spel: SpelEvaluator, topics: TopicArray,
                                  listenerMethod: ListenerMethod, declaredMethods: seq<ListenerMethod>, bean: Bean)
    requires listenerMethod.retryableTopic.Some?
    requires f2 == f1.(retryTopicConfigurers := f2.retryTopicConfigurers, listable := f2.listable)
    ensures MaybeGet(Some(f1), spel, topics, listenerMethod, declaredMethods, bean)
         == MaybeGet(Some(f2), spel, topics, listenerMethod, declaredMethods, bean)
  {
  }
}
