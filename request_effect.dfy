/** A request effect: an effect key and optional lifecycle callbacks, each
    method forwarding to the callback of the same name when it is present.
    A callback is identified by a handle; calling one is the returned Call
    record, so an absent callback is a returned None. */
module RequestEffects {
  import opened Values

  type Handle = nat

  /** The effect's options: its key and the callbacks it was given. */
  datatype Config = Config(
    effectKey: string,
    onTrigger: Option<Handle>,
    onStart: Option<Handle>,
    onSuccess: Option<Handle>,
    onError: Option<Handle>,
    onFinished: Option<Handle>)

  /** An argument passed to a callback. */
  datatype Arg<Req> = ResponseArg(response: Response) | RequestArg(request: Req)

  /** One invocation of a callback with its arguments, in order. */
  datatype Call<Req> = Call(callback: Handle, args: seq<Arg<Req>>)

  /** The five lifecycle stages, one per callback. */
  datatype Stage = Trigger | Start | Success | Error | Finished

  datatype RequestEffect = RequestEffect(config: Config) {

    /** getEffectKey: the key the effect was configured with. */
    function GetEffectKey(): (key: string)
      ensures key == config.effectKey
    {
      config.effectKey
    }

    /** The callback configured for a stage. */
    function CallbackFor(stage: Stage): Option<Handle> {
      match stage
      case Trigger => config.onTrigger
      case Start => config.onStart
      case Success => config.onSuccess
      case Error => config.onError
      case Finished => config.onFinished
    }

    /** `cb?.(request)`: the call of `cb` with the request, or none. */
    static function CallWithRequest<Req>(cb: Option<Handle>, request: Req): Option<Call<Req>> {
      if cb.Some? then Some(Call(cb.value, [RequestArg(request)])) else None
    }

    /** `cb?.(response, request)`. */
    static function CallWithResponse<Req>(cb: Option<Handle>, response: Response, request: Req): Option<Call<Req>> {
      if cb.Some? then Some(Call(cb.value, [ResponseArg(response), RequestArg(request)])) else None
    }

    function OnTrigger<Req>(request: Req): (c: Option<Call<Req>>)
      ensures c.None? <==> config.onTrigger.None?
      ensures c.Some? ==> c.value.callback == config.onTrigger.value && c.value.args == [RequestArg(request)]
    {
      CallWithRequest(config.onTrigger, request)
    }

    function OnStart<Req>(request: Req): (c: Option<Call<Req>>)
      ensures c.None? <==> config.onStart.None?
      ensures c.Some? ==> c.value.callback == config.onStart.value && c.value.args == [RequestArg(request)]
    {
      CallWithRequest(config.onStart, request)
    }

    function OnSuccess<Req>(response: Response, request: Req): (c: Option<Call<Req>>)
      ensures c.None? <==> config.onSuccess.None?
      ensures c.Some? ==> c.value.callback == config.onSuccess.value &&
                          c.value.args == [ResponseArg(response), RequestArg(request)]
    {
      CallWithResponse(config.onSuccess, response, request)
    }

    function OnError<Req>(response: Response, request: Req): (c: Option<Call<Req>>)
      ensures c.None? <==> config.onError.None?
      ensures c.Some? ==> c.value.callback == config.onError.value &&
                          c.value.args == [ResponseArg(response), RequestArg(request)]
    {
      CallWithResponse(config.onError, response, request)
    }

    function OnFinished<Req>(response: Response, request: Req): (c: Option<Call<Req>>)
      ensures c.None? <==> config.onFinished.None?
      ensures c.Some? ==> c.value.callback == config.onFinished.value &&
                          c.value.args == [ResponseArg(response), RequestArg(request)]
    {
      CallWithResponse(config.onFinished, response, request)
    }

    /** The lifecycle method of a stage, called with the stage's arguments
        (the response is ignored by the two stages that take only the request). */
    function Notify<Req>(stage: Stage, response: Response, request: Req): Option<Call<Req>> {
      match stage
      case Trigger => OnTrigger(request)
      case Start => OnStart(request)
      case Success => OnSuccess(response, request)
      case Error => OnError(response, request)
      case Finished => OnFinished(response, request)
    }

    /** No two stages share a callback handle. */
    predicate DistinctCallbacks() {
      forall s, t :: s != t && CallbackFor(s).Some? && CallbackFor(t).Some? ==>
        CallbackFor(s).value != CallbackFor(t).value
    }
  }

  /** Each stage reaches its own callback if and only if it is configured,
      calls it exactly with its arguments and, when the callbacks are
      distinct, reaches no other stage's callback. */
  lemma NotifyReachesOnlyItsCallback<Req>(e: RequestEffect, stage: Stage, response: Response, request: Req)
    ensures var c := e.Notify(stage, response, request);
      && (c.None? <==> e.CallbackFor(stage).None?)
      && (c.Some? ==> c.value.callback == e.CallbackFor(stage).value)
      && (c.Some? ==> c.value.args == if stage == Trigger || stage == Start then [RequestArg(request)]
                                      else [ResponseArg(response), RequestArg(request)])
      && (c.Some? && e.DistinctCallbacks() ==>
            forall t :: t != stage && e.CallbackFor(t).Some? ==> c.value.callback != e.CallbackFor(t).value)
  {
  }

  /** An effect without callbacks ignores every stage. */
  lemma EffectWithoutCallbacksIsSilent<Req>(key: string, stage: Stage, response: Response, request: Req)
    ensures RequestEffect(Config(key, None, None, None, None, None)).Notify(stage, response, request) == None
  {
  }
}
