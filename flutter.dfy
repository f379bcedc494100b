/**
 * The Flutter method-channel protocol as the native side sees it: an incoming
 * call with a method name and named arguments, and the `result` callback object
 * through which the handler answers.
 */
module Flutter {
  import opened Wrappers

  /**
   * A MethodCall: `name` is `call.method`. Arguments arrive as a map from name to value; a value the
   * Dart side sent as null is `None`.
   */
  datatype MethodCall = MethodCall(name: string, arguments: map<string, Option<string>>)

  /** `call.argument<String>(key)`: null both when the key is absent and when its value is null. */
  function Argument(call: MethodCall, key: string): (a: Option<string>)
    ensures a.Some? <==> key in call.arguments && call.arguments[key].Some?
    ensures a.Some? ==> call.arguments[key] == a
  {
    if key in call.arguments then call.arguments[key] else None
  }

  /**
   * The three answers a handler can give: `result.success(value)` (here the
   * value is null or a Boolean), `result.error(code, message, null)` and
   * `result.notImplemented()`.
   */
  datatype Reply = Success(value: Option<bool>) | Error(code: string, message: string) | NotImplemented

  /** MethodChannel.Result: records, in order, every answer given through it. */
  class MethodResult {
    var replies: seq<Reply>

    constructor ()
      ensures replies == []
    {
      replies := [];
    }

    method Success(value: Option<bool>)
      modifies this
      ensures replies == old(replies) + [Reply.Success(value)]
    {
      replies := replies + [Reply.Success(value)];
    }

    method Error(code: string, message: string)
      modifies this
      ensures replies == old(replies) + [Reply.Error(code, message)]
    {
      replies := replies + [Reply.Error(code, message)];
    }

    method NotImplemented()
      modifies this
      ensures replies == old(replies) + [Reply.NotImplemented]
    {
      replies := replies + [Reply.NotImplemented];
    }
  }
}
