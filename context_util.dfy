/** Request-scoped values carried in a Go `context.Context`, and the typed
    accessors the services use to read them. A context is an immutable chain:
    `WithValue` wraps a parent, and a lookup walks from the innermost link out. */
module ContextUtil {

  /** A context key. The accessors only use string keys; other packages also
      store values under keys of their own types, which never equal a string. */
  datatype Key = StringKey(name: string) | OtherKey(tag: nat)

  /** A stored value: `Nil` is Go's nil interface (also what a missing key
      yields); `Other` is a value of some non-string type. */
  datatype Value = Nil | Str(s: string) | Other(tag: nat)

  datatype Context = Background | WithValue(parent: Context, key: Key, val: Value)

  const RequestIdKey := "RequestId"
  const FlowIdKey := "FlowID"
  const RootTaskIdKey := "RootTaskID"
  const DebugKey := "debug"
  const EnvKey := "env"
  const ServiceNameKey := "ServiceName"
  const AwsTaskIdKey := "awsTaskId"
  const BotNameKey := "botname"

  /** `ctx.Value(key)`: the value of the innermost link whose key equals `key`,
      or `Nil` when no link has it. */
  function Lookup(ctx: Context, key: Key): (v: Value)
    ensures ctx.WithValue? && ctx.key == key ==> v == ctx.val
    ensures v != Nil ==> exists i :: 0 <= i < |Bindings(ctx)| && Bindings(ctx)[i] == (key, v)
  {
    match ctx
    case Background => Nil
    case WithValue(parent, k, v) =>
      if k == key then
        var bs := Bindings(ctx);
        assert bs[|bs| - 1] == (k, v);
        v
      else
        var found := Lookup(parent, key);
        assert found != Nil ==> exists i :: 0 <= i < |Bindings(ctx)| && Bindings(ctx)[i] == (key, found) by {
          if found != Nil {
            var i :| 0 <= i < |Bindings(parent)| && Bindings(parent)[i] == (key, found);
            assert Bindings(ctx)[i] == Bindings(parent)[i];
          }
        }
        found
  }

  /** Reference reading of a context: its links as a list, outermost first. */
  function Bindings(ctx: Context): seq<(Key, Value)> {
    match ctx
    case Background => []
    case WithValue(parent, k, v) => Bindings(parent) + [(k, v)]
  }

  /** The value of the last binding for `key` in `bs`, or `Nil`. */
  function LastBinding(bs: seq<(Key, Value)>, key: Key): Value {
    if bs == [] then Nil
    else if bs[|bs| - 1].0 == key then bs[|bs| - 1].1
    else LastBinding(bs[..|bs| - 1], key)
  }

  /** Lookup is innermost-first: the most recently added binding of a key wins. */
  lemma {:induction false} LookupIsLastBinding(ctx: Context, key: Key)
    ensures Lookup(ctx, key) == LastBinding(Bindings(ctx), key)
  {
    match ctx
    case Background =>
    case WithValue(parent, k, v) =>
      var bs := Bindings(ctx);
      assert bs[..|bs| - 1] == Bindings(parent);
      LookupIsLastBinding(parent, key);
  }

  /** `stringFromCtx`: the string stored under `key`, or "" when the key is
      absent or holds nil or a non-string value. */
  function StringFromCtx(ctx: Context, key: string): (r: string)
    ensures Lookup(ctx, StringKey(key)).Str? ==> r == Lookup(ctx, StringKey(key)).s
    ensures !Lookup(ctx, StringKey(key)).Str? ==> r == ""
  {
    match Lookup(ctx, StringKey(key))
    case Str(s) => s
    case _ => ""
  }

  function GetRequestID(ctx: Context): (r: string)
    ensures r == "" || Lookup(ctx, StringKey("RequestId")) == Str(r)
    ensures Lookup(ctx, StringKey("RequestId")).Str? ==> r == Lookup(ctx, StringKey("RequestId")).s
  {
    StringFromCtx(ctx, RequestIdKey)
  }

  function GetFlowID(ctx: Context): (r: string)
    ensures r == "" || Lookup(ctx, StringKey("FlowID")) == Str(r)
    ensures Lookup(ctx, StringKey("FlowID")).Str? ==> r == Lookup(ctx, StringKey("FlowID")).s
  {
    StringFromCtx(ctx, FlowIdKey)
  }

  function GetRootTaskID(ctx: Context): (r: string)
    ensures r == "" || Lookup(ctx, StringKey("RootTaskID")) == Str(r)
    ensures Lookup(ctx, StringKey("RootTaskID")).Str? ==> r == Lookup(ctx, StringKey("RootTaskID")).s
  {
    StringFromCtx(ctx, RootTaskIdKey)
  }

  function GetDebug(ctx: Context): (r: string)
    ensures r == "" || Lookup(ctx, StringKey("debug")) == Str(r)
    ensures Lookup(ctx, StringKey("debug")).Str? ==> r == Lookup(ctx, StringKey("debug")).s
  {
    StringFromCtx(ctx, DebugKey)
  }

  function GetEnv(ctx: Context): (r: string)
    ensures r == "" || Lookup(ctx, StringKey("env")) == Str(r)
    ensures Lookup(ctx, StringKey("env")).Str? ==> r == Lookup(ctx, StringKey("env")).s
  {
    StringFromCtx(ctx, EnvKey)
  }

  function GetServiceName(ctx: Context): (r: string)
    ensures r == "" || Lookup(ctx, StringKey("ServiceName")) == Str(r)
    ensures Lookup(ctx, StringKey("ServiceName")).Str? ==> r == Lookup(ctx, StringKey("ServiceName")).s
  {
    StringFromCtx(ctx, ServiceNameKey)
  }

  function GetAwsTaskID(ctx: Context): (r: string)
    ensures r == "" || Lookup(ctx, StringKey("awsTaskId")) == Str(r)
    ensures Lookup(ctx, StringKey("awsTaskId")).Str? ==> r == Lookup(ctx, StringKey("awsTaskId")).s
  {
    StringFromCtx(ctx, AwsTaskIdKey)
  }

  function GetBotName(ctx: Context): (r: string)
    ensures r == "" || Lookup(ctx, StringKey("botname")) == Str(r)
    ensures Lookup(ctx, StringKey("botname")).Str? ==> r == Lookup(ctx, StringKey("botname")).s
  {
    StringFromCtx(ctx, BotNameKey)
  }

  function IsProd(ctx: Context): (r: bool)
    ensures r <==> Lookup(ctx, StringKey("env")) == Str("prod")
  {
    GetEnv(ctx) == "prod"
  }

  function IsDebugOn(ctx: Context): (r: bool)
    ensures r <==> Lookup(ctx, StringKey("debug")) == Str("true") || Lookup(ctx, StringKey("env")) == Str("local")
  {
    GetDebug(ctx) == "true" || GetEnv(ctx) == "local"
  }

  /** Returns a child context whose `debug` value is "true"; every other key
      reads as before. */
  function SetDebugOn(ctx: Context): (r: Context)
    ensures Lookup(r, StringKey("debug")) == Str("true")
    ensures forall k :: k != StringKey("debug") ==> Lookup(r, k) == Lookup(ctx, k)
  {
    WithValue(ctx, StringKey(DebugKey), Str("true"))
  }

  /** A key set on a child shadows the parent's, even when the child's value
      is nil or not a string: the accessor then yields "" rather than the
      parent's string. */
  lemma ChildShadowsParent(ctx: Context, key: string, v: Value)
    ensures StringFromCtx(WithValue(ctx, StringKey(key), v), key) == (if v.Str? then v.s else "")
  {
  }

  /** Adding a value under one string key leaves every other accessor unchanged. */
  lemma OtherKeysUnaffected(ctx: Context, key: string, other: string, v: Value)
    requires key != other
    ensures StringFromCtx(WithValue(ctx, StringKey(key), v), other) == StringFromCtx(ctx, other)
  {
  }

  /** Each accessor reads its own fixed key, and only that key. */
  lemma AccessorKeys(ctx: Context, s: string)
    ensures GetRequestID(WithValue(ctx, StringKey("RequestId"), Str(s))) == s
    ensures GetFlowID(WithValue(ctx, StringKey("FlowID"), Str(s))) == s
    ensures GetRootTaskID(WithValue(ctx, StringKey("RootTaskID"), Str(s))) == s
    ensures GetDebug(WithValue(ctx, StringKey("debug"), Str(s))) == s
    ensures GetEnv(WithValue(ctx, StringKey("env"), Str(s))) == s
    ensures GetServiceName(WithValue(ctx, StringKey("ServiceName"), Str(s))) == s
    ensures GetAwsTaskID(WithValue(ctx, StringKey("awsTaskId"), Str(s))) == s
    ensures GetBotName(WithValue(ctx, StringKey("botname"), Str(s))) == s
    ensures GetRequestID(Background) == "" && GetFlowID(Background) == ""
    ensures GetRootTaskID(Background) == "" && GetDebug(Background) == ""
    ensures GetEnv(Background) == "" && GetServiceName(Background) == ""
    ensures GetAwsTaskID(Background) == "" && GetBotName(Background) == ""
  {
  }

  /** `IsProd` and `IsDebugOn` on the contexts the package's tests build. */
  lemma PredicateExamples()
    ensures IsProd(WithValue(Background, StringKey("env"), Str("prod")))
    ensures !IsProd(WithValue(Background, StringKey("env"), Str("dev")))
    ensures !IsProd(Background)
    ensures IsDebugOn(SetDebugOn(Background))
    ensures !IsDebugOn(WithValue(Background, StringKey("debug"), Str("false")))
    ensures !IsDebugOn(Background)
    ensures IsDebugOn(WithValue(Background, StringKey("env"), Str("local")))
  {
  }

  /** After `SetDebugOn`, debug reads "true", debugging is on, and every other
      accessor (and `IsProd`) answers exactly as on the original context. */
  lemma SetDebugOnEffect(ctx: Context)
    ensures GetDebug(SetDebugOn(ctx)) == "true" && IsDebugOn(SetDebugOn(ctx))
    ensures GetRequestID(SetDebugOn(ctx)) == GetRequestID(ctx)
    ensures GetFlowID(SetDebugOn(ctx)) == GetFlowID(ctx)
    ensures GetRootTaskID(SetDebugOn(ctx)) == GetRootTaskID(ctx)
    ensures GetEnv(SetDebugOn(ctx)) == GetEnv(ctx)
    ensures GetServiceName(SetDebugOn(ctx)) == GetServiceName(ctx)
    ensures GetAwsTaskID(SetDebugOn(ctx)) == GetAwsTaskID(ctx)
    ensures GetBotName(SetDebugOn(ctx)) == GetBotName(ctx)
    ensures IsProd(SetDebugOn(ctx)) == IsProd(ctx)
  {
  }
}
