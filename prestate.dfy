/** Pre-state resolution, `findPrevious` (model-changes.js:262-289): which
    entity the before-hook reads before the mutation commits. */
module PreState {
  import opened JsValues
  import opened Config
  import opened Context
  import opened Gating

  /** The store read the before-hook issues. */
  datatype Lookup = NoLookup | ById(id: Value) | ByFilter(where: Value)

  /** The four id sources in the order they are tried, each read only when
      its guard holds (`null` otherwise): `instance.id`, `data.id`,
      `where.id`, `options.remoteCtx.req.args.id`. The property names are the
      literal `id` and `remoteCtx`, not the configured id key or remote
      context key. */
  function IdCandidates(v: CtxView): (cs: seq<Value>)
    ensures |cs| == 4
  {
    var rc := Get(v.options, "remoteCtx");
    var req := Dot(rc, "req");
    [ if v.instance.Some? then Get(v.instance.value, "id") else Null,
      if Truthy(v.data) then Dot(v.data, "id") else Null,
      if Truthy(v.where) then Dot(v.where, "id") else Null,
      if Truthy(rc) && Truthy(req) && Truthy(Dot(req, "args")) then Dot(Dot(req, "args"), "id") else Null ]
  }

  /** The lookup `findPrevious` chooses: none for a new instance; otherwise
      the first truthy id candidate, by id; otherwise a query on `where`. */
  function PreviousLookup(v: CtxView): (r: Lookup)
    ensures r.NoLookup? <==> Truthy(v.isNewInstance)
    ensures r.ById? ==>
      exists i :: 0 <= i < 4 && r.id == IdCandidates(v)[i] && Truthy(r.id)
        && forall j :: 0 <= j < i ==> !Truthy(IdCandidates(v)[j])
    ensures r.ByFilter? <==> !Truthy(v.isNewInstance) && forall i :: 0 <= i < 4 ==> !Truthy(IdCandidates(v)[i])
    ensures r.ByFilter? ==> r.where == v.where
  {
    if Truthy(v.isNewInstance) then NoLookup
    else
      var id := if v.instance.Some? then Get(v.instance.value, "id") else Null;
      var id := if !Truthy(id) then (if Truthy(v.data) then Dot(v.data, "id") else Null) else id;
      var id := if !Truthy(id) && Truthy(v.where) then Dot(v.where, "id") else id;
      var rc := Get(v.options, "remoteCtx");
      var id := if !Truthy(id) && Truthy(rc) then
                  (var req := Dot(rc, "req");
                   if Truthy(req) && Truthy(Dot(req, "args")) then Dot(Dot(req, "args"), "id") else Null)
                else id;
      var cs := IdCandidates(v);
      assert Truthy(cs[0]) ==> id == cs[0];
      assert !Truthy(cs[0]) && Truthy(cs[1]) ==> id == cs[1];
      assert !Truthy(cs[0]) && !Truthy(cs[1]) && Truthy(cs[2]) ==> id == cs[2];
      assert !Truthy(cs[0]) && !Truthy(cs[1]) && !Truthy(cs[2]) ==> (Truthy(id) <==> Truthy(cs[3])) && (Truthy(cs[3]) ==> id == cs[3]);
      if Truthy(id) then ById(id) else ByFilter(v.where)
  }

  /** What the before-hook resolves: nothing for a new instance, the entity
      (or not-found) for an id, the matching rows for a filter. */
  datatype PreState = Fresh | Single(found: Option<Record>) | Multiple(rows: seq<Record>)

  /** `{ where: ctx.where }`. */
  function WhereQuery(where: Value): Value
  {
    Obj(map["where" := where])
  }

  /** `findPrevious` over a given store: `findById` and `find` are the
      store's reads at the moment the before-hook runs. */
  function FindPrevious(v: CtxView, findById: Value -> Option<Record>, find: Value -> seq<Record>): PreState
  {
    match PreviousLookup(v)
    case NoLookup => Fresh
    case ById(id) => Single(findById(id))
    case ByFilter(where) => Multiple(find(WhereQuery(where)))
  }

  /** The pre-state is skipped exactly for the actions the gate classifies as
      creates, when the three action names are distinct. */
  lemma FreshExactlyForCreates(s: Settings, v: CtxView, findById: Value -> Option<Record>, find: Value -> seq<Record>)
    requires s.actions.create != s.actions.update && s.actions.create != s.actions.delete
    ensures FindPrevious(v, findById, find).Fresh? <==> ActionType(s, v) == s.actions.create
  {
  }

  /** An entity addressed through its instance is read back by that
      instance's own `id`, whatever else the context holds. */
  lemma InstanceIdWins(v: CtxView, findById: Value -> Option<Record>, find: Value -> seq<Record>)
    requires !Truthy(v.isNewInstance) && v.instance.Some? && Truthy(Get(v.instance.value, "id"))
    ensures FindPrevious(v, findById, find) == Single(findById(Get(v.instance.value, "id")))
  {
  }

  /** With no id anywhere, the read is the filter query on `where`, which
      yields the multi-row pre-state. */
  lemma NoIdQueriesFilter(v: CtxView, findById: Value -> Option<Record>, find: Value -> seq<Record>)
    requires !Truthy(v.isNewInstance)
    requires forall i :: 0 <= i < 4 ==> !Truthy(IdCandidates(v)[i])
    ensures FindPrevious(v, findById, find) == Multiple(find(WhereQuery(v.where)))
  {
  }
}
