/** Deciding whether a hook invocation is tracked at all: action
    classification, the action whitelist, the remote-only policy, the options
    forwarded to the store, and the process-wide recursion guard. */
module Gating {
  import opened JsValues
  import opened Config
  import opened Context

  /** The pending action's name (model-changes.js:169-177). */
  function ActionType(s: Settings, v: CtxView): string
  {
    if Truthy(v.isNewInstance) then s.actions.create
    else if Truthy(v.data) || v.instance.Some? then s.actions.update
    else s.actions.delete
  }

  /** With three distinct action names, the classification is exactly:
      create for a new instance, update when data or an instance is present,
      delete otherwise. */
  lemma ActionTypeCases(s: Settings, v: CtxView)
    requires s.actions.create != s.actions.update && s.actions.create != s.actions.delete
    requires s.actions.update != s.actions.delete
    ensures ActionType(s, v) == s.actions.create <==> Truthy(v.isNewInstance)
    ensures ActionType(s, v) == s.actions.update <==> !Truthy(v.isNewInstance) && (Truthy(v.data) || v.instance.Some?)
    ensures ActionType(s, v) == s.actions.delete <==> !Truthy(v.isNewInstance) && !Truthy(v.data) && v.instance.None?
  {
  }

  /** `opts[remoteCtx].method.name` inside a `try`, `null` when it throws
      (model-changes.js:160-167). */
  function RemoteMethodName(remoteCtx: string, opts: Record): Value
  {
    match Path(Get(opts, remoteCtx), ["method", "name"])
    case Some(name) => name
    case None => Null
  }

  /** The remote context under `key` is an object whose `method` is an object
      with a truthy `name`. */
  predicate HasRemoteMethod(key: string, opts: Record)
  {
    var rc := Get(opts, key);
    rc.Obj? && Get(rc.fields, "method").Obj? && Truthy(Get(Get(rc.fields, "method").fields, "name"))
  }

  /** A remote method name resolves only through objects: a primitive
      anywhere on the path yields no name rather than a truthy one. */
  lemma RemoteMethodNameResolves(key: string, opts: Record)
    ensures Truthy(RemoteMethodName(key, opts)) <==> HasRemoteMethod(key, opts)
    ensures HasRemoteMethod(key, opts) ==>
      RemoteMethodName(key, opts) == Get(Get(Get(opts, key).fields, "method").fields, "name")
  {
    var rc := Get(opts, key);
    assert Path(rc, ["method", "name"]) ==
      (match Prop(rc, "method")
       case None => None
       case Some(m) => Path(m, ["name"]));
    match Prop(rc, "method")
    case None =>
    case Some(m) =>
      assert Path(m, ["name"]) == (match Prop(m, "name") case None => None case Some(n) => Path(n, []));
  }

  /** Whether the hook skips this action (model-changes.js:146-158). */
  predicate ShouldFilter(s: Settings, v: CtxView)
  {
    if s.whitelistActions.Some? && ActionType(s, v) !in s.whitelistActions.value then true
    else s.remoteOnly && !Truthy(RemoteMethodName(s.remoteCtx, v.options))
  }

  /** An action passes the gate exactly when it is on the action whitelist
      (if there is one) and, under the remote-only policy, the options carry a
      remote context with a named method. */
  lemma ShouldFilterExactly(s: Settings, v: CtxView)
    ensures !ShouldFilter(s, v) <==>
      (s.whitelistActions.Some? ==> ActionType(s, v) in s.whitelistActions.value)
      && (s.remoteOnly ==> HasRemoteMethod(s.remoteCtx, v.options))
  {
    RemoteMethodNameResolves(s.remoteCtx, v.options);
  }

  /** The options forwarded to the store and the payload builder: the
      transaction and the remote context, each only when truthy
      (model-changes.js:291-303). */
  function CtxOpts(remoteCtx: string, options: Record): (opts: Record)
    ensures forall k :: k in opts <==> (k == "transaction" || k == remoteCtx) && Truthy(Get(options, k))
    ensures forall k :: k in opts ==> k in options && opts[k] == options[k]
  {
    var withTxn := if Truthy(Get(options, "transaction")) then map["transaction" := options["transaction"]] else map[];
    if Truthy(Get(options, remoteCtx)) then withTxn[remoteCtx := options[remoteCtx]] else withTxn
  }

  /** Copying the options loses no remote method name: the payload builder,
      which sees only the copy, resolves the same name the gate resolved. */
  lemma CtxOptsKeepsRemoteMethod(remoteCtx: string, options: Record)
    ensures RemoteMethodName(remoteCtx, CtxOpts(remoteCtx, options)) == RemoteMethodName(remoteCtx, options)
  {
    var opts := CtxOpts(remoteCtx, options);
    RemoteMethodNameResolves(remoteCtx, opts);
    RemoteMethodNameResolves(remoteCtx, options);
    if !Truthy(Get(options, remoteCtx)) {
      assert Get(opts, remoteCtx) == Undefined;
      var rc := Get(options, remoteCtx);
      assert Prop(rc, "method").None? || Prop(rc, "method") == Some(Undefined);
      assert Path(rc, ["method", "name"]) ==
        (match Prop(rc, "method") case None => None case Some(m) => Path(m, ["name"]));
      assert Path(Undefined, ["name"]) == None;
    }
  }

  /** The process-wide recursion guard: sink model name to tracked model name
      (model-changes.js:4, model-changes.js:17). */
  class Registry {
    var trackAgainst: map<string, string>

    constructor ()
      ensures trackAgainst == map[]
    {
      trackAgainst := map[];
    }

    method Register(sink: string, tracked: string)
      modifies this
      ensures trackAgainst == old(trackAgainst)[sink := tracked]
    {
      trackAgainst := trackAgainst[sink := tracked];
    }
  }

  /** `trackAgainst[name]` is truthy: `name` is some tracked model's sink
      (model-changes.js:64, model-changes.js:81). */
  predicate IsSink(trackAgainst: map<string, string>, name: string)
  {
    name in trackAgainst && trackAgainst[name] != ""
  }
}
