/** The mixin installed on one tracked model: the before-hook shared by
    'before save' and 'before delete', and the two after-hooks
    (model-changes.js:60-144). */
module Handlers {
  import opened JsValues
  import opened Config
  import opened Context
  import opened Gating
  import opened Deltas
  import opened Payload
  import opened Recording
  import opened PreState

  /** The context after the before-hook stashes a resolved pre-state: an
      array goes to `previousValues`, anything else (including the
      `undefined` of a new instance) to `previousValue`. */
  function Stashed(v: CtxView, st: PreState): CtxView
  {
    match st
    case Multiple(rows) => v.(previousValues := Some(rows))
    case Single(found) => v.(previousValue := found)
    case Fresh => v.(previousValue := None)
  }

  /** What the before-hook resolves, or None when it skips: a filtered action
      or a model that is itself some tracked model's sink. */
  function BeforeStash(s: Settings, sinks: map<string, string>, v: CtxView,
                       findById: Value -> Option<Record>, find: Value -> seq<Record>): (r: Option<PreState>)
    ensures IsSink(sinks, v.modelName) ==> r.None?
    ensures ShouldFilter(s, v) ==> r.None?
    ensures r.Some? ==> r.value == FindPrevious(v, findById, find)
    ensures !ShouldFilter(s, v) && !IsSink(sinks, v.modelName) ==> r == Some(FindPrevious(v, findById, find))
  {
    if ShouldFilter(s, v) then None
    else if IsSink(sinks, v.modelName) then None
    else Some(FindPrevious(v, findById, find))
  }

  /** `{ where: { [idKey]: { inq: ids } } }`. */
  function InqQuery(idKey: string, ids: seq<Value>): Value
  {
    Obj(map["where" := Obj(map[idKey := Obj(map["inq" := Arr(ids)])])])
  }

  function IdsOf(idKey: string, rows: seq<Record>): (ids: seq<Value>)
    ensures |ids| == |rows|
    ensures forall i :: 0 <= i < |rows| ==> ids[i] == Get(rows[i], idKey)
  {
    seq(|rows|, i requires 0 <= i < |rows| => Get(rows[i], idKey))
  }

  /** The ids the bulk re-read asks for (model-changes.js:101) are exactly
      the ids the delta correlation finds originals for (model-changes.js:116). */
  lemma InqIdsAreOriginalKeys(idKey: string, rows: seq<Record>, x: Value)
    ensures x in IdsOf(idKey, rows) <==> x in Originals(idKey, rows)
  {
    OriginalsKeys(idKey, rows, x);
    var ids := IdsOf(idKey, rows);
    if x in ids {
      var j :| 0 <= j < |ids| && ids[j] == x;
      assert Get(rows[j], idKey) == x;
    }
    if exists j :: 0 <= j < |rows| && Get(rows[j], idKey) == x {
      var j :| 0 <= j < |rows| && Get(rows[j], idKey) == x;
      assert ids[j] == x;
    }
  }

  /** The writes the after-save hook issues; `find` is the store's query as
      it stands after the commit. */
  function AfterSaveWrites(s: Settings, sinks: map<string, string>, v: CtxView, find: Value -> seq<Record>): (w: seq<Write>)
    ensures |w| <= 1
    ensures IsSink(sinks, v.modelName) ==> w == []
    ensures ShouldFilter(s, v) ==> w == []
  {
    if IsSink(sinks, v.modelName) then []
    else if ShouldFilter(s, v) then []
    else
      var opts := CtxOpts(s.remoteCtx, v.options);
      if Truthy(v.isNewInstance) then WritesFor(s, s.actions.create, TargetOf(v.instance), opts)
      else if v.previousValue.Some? then
        var change := if s.deltas then ExtractDeltas(s.idKey, v.previousValue, v.instance) else v.instance;
        WritesFor(s, s.actions.update, TargetOf(change), opts)
      else if v.previousValues.Some? then
        var prev := v.previousValues.value;
        if |prev| > 0 then
          var instances := find(InqQuery(s.idKey, IdsOf(s.idKey, prev)));
          var rows := if s.deltas then Correlated(s.idKey, prev, instances) else instances;
          WritesFor(s, s.actions.update, Many(rows), opts)
        else []
      else []
  }

  /** The writes the after-delete hook issues. This hook consults neither the
      gate nor the recursion guard; it relies on the stash the before-hook
      left, or did not leave. */
  function AfterDeleteWrites(s: Settings, v: CtxView): (w: seq<Write>)
    ensures |w| <= 1
    ensures v.previousValue.None? && v.previousValues.None? ==> w == []
  {
    var opts := CtxOpts(s.remoteCtx, v.options);
    if v.previousValue.Some? then WritesFor(s, s.actions.delete, TargetOf(v.instance), opts)
    else if v.previousValues.Some? then WritesFor(s, s.actions.delete, Many(v.previousValues.value), opts)
    else []
  }

  /** Predicates shared by the lemmas below: the invocation passes the
      recursion guard and the gate. */
  predicate Tracked(s: Settings, sinks: map<string, string>, v: CtxView)
  {
    !IsSink(sinks, v.modelName) && !ShouldFilter(s, v)
  }

  /** A create yields exactly one payload, tagged with the create action and
      carrying the new entity's id in the foreign-key slot. */
  lemma CreateRecordedOnce(s: Settings, sinks: map<string, string>, v: CtxView, find: Value -> seq<Record>)
    requires Tracked(s, sinks, v) && Truthy(v.isNewInstance) && v.instance.Some?
    requires s.actions.create != s.actions.update
    ensures var w := AfterSaveWrites(s, sinks, v, find);
      && |w| == 1 && w[0].CreateOne?
      && w[0].payload[s.relKey] == RelocatedId(s, v.instance.value)
      && (s.actionKey != s.relKey ==> w[0].payload[s.actionKey] == Str(s.actions.create))
  {
    var opts := CtxOpts(s.remoteCtx, v.options);
    SuppressedExactly(s, s.actions.create, v.instance.value, opts);
    PayloadSlots(s, s.actions.create, v.instance.value, opts);
  }

  /** A single update records the full projected post-state, or, in delta
      mode, each projected property's new value where it changed and
      `undefined` where it did not. */
  lemma UpdateRecordsFields(s: Settings, sinks: map<string, string>, v: CtxView, find: Value -> seq<Record>, p: string)
    requires Tracked(s, sinks, v) && !Truthy(v.isNewInstance) && v.previousValue.Some? && v.instance.Some?
    requires p in s.props && Audited(s, p) && p != s.idKey && p != s.relKey && p != s.actionKey
    requires p != s.userKey && p != s.remoteTracker
    ensures var w := AfterSaveWrites(s, sinks, v, find);
      w != [] ==>
        (&& w[0].CreateOne? && p in w[0].payload
         && w[0].payload[p] ==
              if !s.deltas then Get(v.instance.value, p)
              else if Get(v.previousValue.value, p) == Get(v.instance.value, p) then Undefined
              else Get(v.instance.value, p))
    ensures var w := AfterSaveWrites(s, sinks, v, find);
      Get(v.instance.value, p) != Undefined
        && (s.deltas ==> Get(v.previousValue.value, p) != Get(v.instance.value, p))
      ==> |w| == 1
  {
    var opts := CtxOpts(s.remoteCtx, v.options);
    var change := if s.deltas then Changed(s.idKey, v.previousValue.value, v.instance.value) else v.instance.value;
    if s.deltas {
      ChangedValueAt(s.idKey, v.previousValue.value, v.instance.value, p);
    }
    if PayloadOf(s, s.actions.update, change, opts).Some? {
      PayloadKeysAndFields(s, s.actions.update, change, opts);
    }
    SuppressedExactly(s, s.actions.update, change, opts);
  }

  /** In delta mode, an update that changes nothing is not recorded (as long
      as no actor or remote method field is configured to add a value). */
  lemma NoOpUpdateSuppressed(s: Settings, sinks: map<string, string>, v: CtxView, find: Value -> seq<Record>)
    requires Tracked(s, sinks, v) && !Truthy(v.isNewInstance) && v.previousValue.Some? && v.instance.Some?
    requires s.deltas && s.userKey == "" && s.remoteTracker == ""
    requires forall k :: k in v.instance.value ==> Get(v.previousValue.value, k) == v.instance.value[k]
    ensures AfterSaveWrites(s, sinks, v, find) == []
  {
    var opts := CtxOpts(s.remoteCtx, v.options);
    var prev, inst := v.previousValue.value, v.instance.value;
    UnchangedLeavesOnlyId(s.idKey, prev, inst);
    var change := Changed(s.idKey, prev, inst);
    forall p | p in s.props && Audited(s, p) && p != s.idKey ensures Get(change, p) == Undefined {
      ChangedValueAt(s.idKey, prev, inst, p);
    }
    SuppressedExactly(s, s.actions.update, change, opts);
  }

  /** A bulk update whose before-hook matched no row records nothing
      (model-changes.js:102, model-changes.js:126-128). */
  lemma BulkUpdateWithoutRowsRecordsNothing(s: Settings, sinks: map<string, string>, v: CtxView, find: Value -> seq<Record>)
    requires !Truthy(v.isNewInstance) && v.previousValue.None? && v.previousValues == Some([])
    ensures AfterSaveWrites(s, sinks, v, find) == []
  {
  }

  /** The rows a bulk update records: re-read by the ids of the previous
      rows, each turned into its payload (diffed against its original in
      delta mode); the one write holds every non-null payload among them
      and nothing else. */
  lemma BulkUpdateRecordsRows(s: Settings, sinks: map<string, string>, v: CtxView, find: Value -> seq<Record>)
    requires Tracked(s, sinks, v) && !Truthy(v.isNewInstance) && v.previousValue.None?
    requires v.previousValues.Some? && v.previousValues.value != []
    ensures var prev := v.previousValues.value;
      var instances := find(InqQuery(s.idKey, IdsOf(s.idKey, prev)));
      var rows := if s.deltas then Correlated(s.idKey, prev, instances) else instances;
      var opts := CtxOpts(s.remoteCtx, v.options);
      var w := AfterSaveWrites(s, sinks, v, find);
      && (w == [] <==> forall i :: 0 <= i < |rows| ==> PayloadOf(s, s.actions.update, rows[i], opts).None?)
      && (w != [] ==>
            && w[0].CreateMany?
            && forall p :: p in w[0].payloads <==>
                 exists i :: 0 <= i < |rows| && PayloadOf(s, s.actions.update, rows[i], opts) == Some(p))
      && w == (var kept := Somes(BatchPayloads(s, s.actions.update, rows, opts));
               if kept == [] then [] else [CreateMany(kept)])
      && ((forall i :: 0 <= i < |rows| ==> PayloadOf(s, s.actions.update, rows[i], opts).Some?) && rows != [] ==>
            && |w| == 1 && |w[0].payloads| == |rows|
            && forall i :: 0 <= i < |rows| ==> Some(w[0].payloads[i]) == PayloadOf(s, s.actions.update, rows[i], opts))
  {
    var prev := v.previousValues.value;
    var instances := find(InqQuery(s.idKey, IdsOf(s.idKey, prev)));
    var rows := if s.deltas then Correlated(s.idKey, prev, instances) else instances;
    var opts := CtxOpts(s.remoteCtx, v.options);
    assert AfterSaveWrites(s, sinks, v, find) == WritesFor(s, s.actions.update, Many(rows), opts);
    BatchKeepsNonNull(s, s.actions.update, rows, opts);
  }

  /** In delta mode, a re-read row whose original is the previous row `j`
      (the last one with its id) is recorded as its diff against that row,
      unless the diff is suppressed. */
  lemma BulkDeltaRowDiffedAgainstOriginal(s: Settings, sinks: map<string, string>, v: CtxView, find: Value -> seq<Record>, i: nat, j: nat)
    requires Tracked(s, sinks, v) && !Truthy(v.isNewInstance) && v.previousValue.None? && s.deltas
    requires v.previousValues.Some? && v.previousValues.value != []
    requires i < |find(InqQuery(s.idKey, IdsOf(s.idKey, v.previousValues.value)))| && j < |v.previousValues.value|
    requires Get(v.previousValues.value[j], s.idKey) == Get(find(InqQuery(s.idKey, IdsOf(s.idKey, v.previousValues.value)))[i], s.idKey)
    requires forall k :: j < k < |v.previousValues.value| ==>
      Get(v.previousValues.value[k], s.idKey) != Get(v.previousValues.value[j], s.idKey)
    ensures var prev := v.previousValues.value;
      var inst := find(InqQuery(s.idKey, IdsOf(s.idKey, prev)))[i];
      var pl := PayloadOf(s, s.actions.update, Changed(s.idKey, prev[j], inst), CtxOpts(s.remoteCtx, v.options));
      var w := AfterSaveWrites(s, sinks, v, find);
      pl.Some? ==> |w| == 1 && w[0].CreateMany? && pl.value in w[0].payloads
  {
    var prev := v.previousValues.value;
    var instances := find(InqQuery(s.idKey, IdsOf(s.idKey, prev)));
    CorrelatedMatched(s.idKey, prev, instances, i, j);
    BulkUpdateRecordsRows(s, sinks, v, find);
  }

  /** Under the remote-only policy with remote method tagging, every tracked
      invocation tags its payloads with the method name the gate saw, so none
      of them is suppressed. */
  lemma RemoteOnlyTagsPayloads(s: Settings, sinks: map<string, string>, v: CtxView, data: Record)
    requires Tracked(s, sinks, v) && s.remoteOnly && s.remoteTracker != ""
    ensures RemoteTag(s, CtxOpts(s.remoteCtx, v.options)) == Some(RemoteMethodName(s.remoteCtx, v.options))
    ensures PayloadOf(s, s.actions.update, data, CtxOpts(s.remoteCtx, v.options)).Some?
  {
    CtxOptsKeepsRemoteMethod(s.remoteCtx, v.options);
    RemoteTagNeverSuppressed(s, s.actions.update, data, CtxOpts(s.remoteCtx, v.options));
  }

  /** A bulk delete records every row it resolved in the before-hook, in one
      write, each payload carrying its row's id. */
  lemma BulkDeleteRecordsEveryRow(s: Settings, v: CtxView)
    requires v.previousValue.None? && v.previousValues.Some? && v.previousValues.value != []
    requires s.actions.delete != s.actions.update
    ensures var w := AfterDeleteWrites(s, v);
      && |w| == 1 && w[0].CreateMany?
      && |w[0].payloads| == |v.previousValues.value|
      && forall i :: 0 <= i < |w[0].payloads| ==>
           Get(w[0].payloads[i], s.relKey) == RelocatedId(s, v.previousValues.value[i])
  {
    BatchNonUpdate(s, s.actions.delete, v.previousValues.value, CtxOpts(s.remoteCtx, v.options));
  }

  /** A delete that starts from an empty stash records something exactly when
      the before-hook found the entity by id and the context carries the
      instance, or when its filter query matched at least one row. */
  lemma DeleteRecordedAfterStash(s: Settings, v: CtxView, st: PreState)
    requires v.previousValue.None? && v.previousValues.None?
    requires s.actions.delete != s.actions.update
    ensures AfterDeleteWrites(s, Stashed(v, st)) != [] <==>
      || (st.Single? && st.found.Some? && v.instance.Some?)
      || (st.Multiple? && st.rows != [])
  {
    var opts := CtxOpts(s.remoteCtx, v.options);
    match st
    case Multiple(rows) =>
      if rows != [] {
        BatchNonUpdate(s, s.actions.delete, rows, opts);
      }
    case Single(found) =>
      if found.Some? && v.instance.Some? {
        SuppressedExactly(s, s.actions.delete, v.instance.value, opts);
      }
    case Fresh =>
  }

  /** The mixin on one tracked model. */
  class Tracker {
    const registry: Registry
    const settings: Option<Settings>

    /** Installation (model-changes.js:13-53): records the sink in the shared
        registry (even when it then declines to install), and derives the
        settings when the sink and foreign key are named. */
    constructor (registry: Registry, o: Options, modelName: string, idKey: string, props: seq<string>)
      modifies registry
      ensures this.registry == registry
      ensures registry.trackAgainst == old(registry.trackAgainst)[SinkKey(o) := modelName]
      ensures settings.Some? <==> Installs(o)
      ensures settings.Some? ==>
        && IsAuditTable(settings.value.audit, o.whitelist, o.blacklist)
        && settings.value == MakeSettings(o, idKey, props, settings.value.audit)
    {
      var audit, strict := BuildAuditTable(o.whitelist, o.blacklist);
      this.registry := registry;
      this.settings := if Installs(o) then Some(MakeSettings(o, idKey, props, audit)) else None;
      new;
      registry.Register(SinkKey(o), modelName);
    }

    /** `beforeHandler`: resolves the pre-state and stashes it on the
        context, unless the action is filtered or the model is a sink. */
    method BeforeHandler(ctx: MutationContext, findById: Value -> Option<Record>, find: Value -> seq<Record>)
      modifies ctx
      ensures settings.None? ==> ctx.View() == old(ctx.View())
      ensures settings.Some? ==>
        ctx.View() == match BeforeStash(settings.value, registry.trackAgainst, old(ctx.View()), findById, find)
                      case None => old(ctx.View())
                      case Some(st) => Stashed(old(ctx.View()), st)
    {
      if settings.None? {
        return;
      }
      var s := settings.value;
      var v := ctx.View();
      if ShouldFilter(s, v) {
        return;
      }
      if IsSink(registry.trackAgainst, ctx.modelName) {
        return;
      }
      var res := FindPrevious(v, findById, find);
      match res
      case Multiple(rows) =>
        ctx.previousValues := Some(rows);
      case Single(found) =>
        ctx.previousValue := found;
      case Fresh =>
        ctx.previousValue := None;
    }

    /** `afterSaveHandler`: records a create, a single update (optionally as
        a delta) or a bulk update (re-read by id, optionally diffed row by
        row). */
    method AfterSaveHandler(ctx: MutationContext, find: Value -> seq<Record>, sink: AuditSink)
      modifies sink
      ensures sink.log == old(sink.log) +
        if settings.Some? then AfterSaveWrites(settings.value, registry.trackAgainst, ctx.View(), find) else []
    {
      if settings.None? {
        return;
      }
      var s := settings.value;
      var v := ctx.View();
      if IsSink(registry.trackAgainst, v.modelName) {
        return;
      }
      if ShouldFilter(s, v) {
        return;
      }
      var opts := CtxOpts(s.remoteCtx, v.options);
      if Truthy(v.isNewInstance) {
        RecordModelChange(sink, s, s.actions.create, TargetOf(v.instance), opts);
      } else if v.previousValue.Some? {
        var change := v.instance;
        if s.deltas {
          change := ExtractDeltas(s.idKey, v.previousValue, change);
        }
        RecordModelChange(sink, s, s.actions.update, TargetOf(change), opts);
      } else if v.previousValues.Some? {
        var prev := v.previousValues.value;
        var ids := IdsOf(s.idKey, prev);
        if |ids| > 0 {
          var instances := find(InqQuery(s.idKey, ids));
          if s.deltas {
            instances := CorrelateDeltas(s.idKey, prev, instances);
          }
          RecordModelChange(sink, s, s.actions.update, Many(instances), opts);
        }
      }
    }

    /** `afterDeleteHandler`: records the deleted instance, or every row the
        before-hook resolved. */
    method AfterDeleteHandler(ctx: MutationContext, sink: AuditSink)
      modifies sink
      ensures sink.log == old(sink.log) + if settings.Some? then AfterDeleteWrites(settings.value, ctx.View()) else []
    {
      if settings.None? {
        return;
      }
      var s := settings.value;
      var opts := CtxOpts(s.remoteCtx, ctx.options);
      if ctx.previousValue.Some? {
        RecordModelChange(sink, s, s.actions.delete, TargetOf(ctx.instance), opts);
      } else if ctx.previousValues.Some? {
        RecordModelChange(sink, s, s.actions.delete, Many(ctx.previousValues.value), opts);
      }
    }
  }
}
