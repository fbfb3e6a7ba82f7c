/**
 * HandlerAdapter: wraps either an invocable handler method or a delegating
 * handler (a class-level listener with several handler methods) and forwards
 * every call to whichever one it holds.
 *
 * The handlers are uninterpreted: their answers are fields of the records
 * below, and `Invoke` reports the call it makes (which handler, with which
 * message and which argument array) instead of performing it.
 */
module HandlerAdapters {
  import opened Support

  /** Any Java object that reaches the adapter. */
  datatype Value = Value(id: nat)

  /** An element of an `Object[]`: a reference that may be null. */
  type Arg = Option<Value>

  /** A spring-messaging Message; its payload is never null. */
  datatype Message = Message(payload: Value, headers: map<string, Value>)

  /** What a delegating handler reports after a call. */
  datatype InvocationResult = InvocationResult(id: nat)

  /**
   * An InvocableHandlerMethod: its bean, its method's generic signature, and
   * whether the method's return type is an asynchronous reply type.
   */
  datatype InvocableHandlerMethod = InvocableHandlerMethod(bean: Value, genericString: string, asyncReturnType: bool)

  /** A DelegatingInvocableHandler, seen through the queries the adapter makes of it. */
  datatype DelegatingInvocableHandler = DelegatingInvocableHandler(
    bean: Value,
    hasDefaultHandler: bool,
    isAsyncReplies: bool,
    methodNameFor: Value -> string,
    invocationResultFor: (Arg, Value) -> Option<InvocationResult>)

  /** The call `invoke` makes: to the handler method or to the delegating handler. */
  datatype Dispatch =
    | ToHandlerMethod(handlerMethod: InvocableHandlerMethod, message: Message, args: array<Arg>)
    | ToDelegatingHandler(message: Message, args: array<Arg>)

  class HandlerAdapter {
    const invokerHandlerMethod: Option<InvocableHandlerMethod>
    const delegatingHandler: Option<DelegatingInvocableHandler>
    const asyncReplies: bool

    /** Exactly one of the two handlers is present. */
    ghost predicate Valid()
    {
      invokerHandlerMethod.Some? != delegatingHandler.Some?
    }

    /** Wraps a handler method; async replies follow the method's return type. */
    constructor ForHandlerMethod(handlerMethod: InvocableHandlerMethod)
      ensures Valid()
      ensures invokerHandlerMethod == Some(handlerMethod) && delegatingHandler.None?
      ensures asyncReplies == handlerMethod.asyncReturnType
    {
      invokerHandlerMethod := Some(handlerMethod);
      delegatingHandler := None;
      asyncReplies := handlerMethod.asyncReturnType;
    }

    /** Wraps a delegating handler; async replies are as the handler reports them. */
    constructor ForDelegatingHandler(handler: DelegatingInvocableHandler)
      ensures Valid()
      ensures invokerHandlerMethod.None? && delegatingHandler.Some?
      ensures delegatingHandler.value.bean == handler.bean
      ensures delegatingHandler.value.hasDefaultHandler == handler.hasDefaultHandler
      ensures delegatingHandler.value.methodNameFor == handler.methodNameFor
      ensures delegatingHandler.value.invocationResultFor == handler.invocationResultFor
      ensures asyncReplies == handler.isAsyncReplies
    {
      invokerHandlerMethod := None;
      delegatingHandler := Some(handler);
      asyncReplies := handler.isAsyncReplies;
    }

    function IsAsyncReplies(): (r: bool)
      ensures r == asyncReplies
    {
      asyncReplies
    }

    /**
     * `invoke`: a handler method receives the message and the provided
     * arguments untouched. A delegating handler with a default handler
     * receives a new array holding the payload followed by the provided
     * arguments; one without receives the provided arguments untouched.
     */
    method Invoke(message: Message, providedArgs: array<Arg>) returns (d: Dispatch)
      requires Valid()
      ensures invokerHandlerMethod.Some? ==> d == ToHandlerMethod(invokerHandlerMethod.value, message, providedArgs)
      ensures delegatingHandler.Some? && !delegatingHandler.value.hasDefaultHandler ==>
        d == ToDelegatingHandler(message, providedArgs)
      ensures delegatingHandler.Some? && delegatingHandler.value.hasDefaultHandler ==>
        && d.ToDelegatingHandler? && d.message == message
        && fresh(d.args)
        && d.args.Length == providedArgs.Length + 1
        && d.args[0] == Some(message.payload)
        && forall i :: 0 <= i < providedArgs.Length ==> d.args[i + 1] == providedArgs[i]
    {
      if invokerHandlerMethod.Some? {
        return ToHandlerMethod(invokerHandlerMethod.value, message, providedArgs);
      } else if delegatingHandler.value.hasDefaultHandler {
        var args := new Arg[providedArgs.Length + 1];
        args[0] := Some(message.payload);
        // copy the provided arguments after the payload
        var i := 0;
        while i < providedArgs.Length
          invariant 0 <= i <= providedArgs.Length
          invariant args[0] == Some(message.payload)
          invariant forall j :: 0 <= j < i ==> args[j + 1] == providedArgs[j]
        {
          args[i + 1] := providedArgs[i];
          i := i + 1;
        }
        return ToDelegatingHandler(message, args);
      } else {
        return ToDelegatingHandler(message, providedArgs);
      }
    }

    /** `getMethodAsString`: the handler method's signature, or the delegating handler's method name for the payload. */
    function GetMethodAsString(payload: Value): (s: string)
      requires Valid()
      ensures invokerHandlerMethod.Some? ==> s == invokerHandlerMethod.value.genericString
      ensures delegatingHandler.Some? ==> s == delegatingHandler.value.methodNameFor(payload)
    {
      if invokerHandlerMethod.Some? then invokerHandlerMethod.value.genericString
      else delegatingHandler.value.methodNameFor(payload)
    }

    /** `getBean`: the bean of whichever handler is held. */
    function GetBean(): (bean: Value)
      requires Valid()
      ensures invokerHandlerMethod.Some? ==> bean == invokerHandlerMethod.value.bean
      ensures delegatingHandler.Some? ==> bean == delegatingHandler.value.bean
    {
      if invokerHandlerMethod.Some? then invokerHandlerMethod.value.bean
      else delegatingHandler.value.bean
    }

    /**
     * `getInvocationResultFor`: null unless a delegating handler is held and the
     * inbound payload is not null; then whatever that handler reports.
     */
    function GetInvocationResultFor(result: Arg, inboundPayload: Option<Value>): (r: Option<InvocationResult>)
      ensures delegatingHandler.None? || inboundPayload.None? ==> r.None?
      ensures delegatingHandler.Some? && inboundPayload.Some? ==>
        r == delegatingHandler.value.invocationResultFor(result, inboundPayload.value)
    {
      if delegatingHandler.Some? && inboundPayload.Some?
      then delegatingHandler.value.invocationResultFor(result, inboundPayload.value)
      else None
    }
  }
}
