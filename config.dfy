/** The mixin's options and the per-model settings derived from them when the
    mixin is installed on a tracked model (model-changes.js:13-53). */
module Config {
  import opened JsValues

  /** The recognised options. A name option that is absent or not a string is
      None; a list option that is absent or not an array is None. */
  datatype Options = Options(
    changeModel: Option<string>,
    idKeyName: Option<string>,
    createActionName: Option<string>,
    updateActionName: Option<string>,
    deleteActionName: Option<string>,
    actionKey: Option<string>,
    deltas: bool,
    remotCtx: Option<string>,
    remoteMethod: Option<string>,
    trackUsersFrom: Option<string>,
    trackUsersAs: Option<string>,
    whitelistActions: Option<seq<string>>,
    whitelist: Option<seq<string>>,
    blacklist: Option<seq<string>>,
    remoteOnly: bool)

  /** `o || d` for a string option: the empty string is falsy too. */
  function OrDefault(o: Option<string>, d: string): string
  {
    if o.Some? && o.value != "" then o.value else d
  }

  /** Tracking is installed only when both the sink model and the foreign-key
      field are named (model-changes.js:19-22). */
  predicate Installs(o: Options)
  {
    o.changeModel.Some? && o.changeModel.value != "" && o.idKeyName.Some? && o.idKeyName.value != ""
  }

  /** The registry key written at model-changes.js:17, before the check above:
      an absent sink name is coerced to the property name "undefined". */
  function SinkKey(o: Options): string
  {
    match o.changeModel
    case None => "undefined"
    case Some(n) => n
  }

  datatype ActionNames = ActionNames(create: string, update: string, delete: string)

  /** Everything the handlers close over once the mixin is installed. For
      `remoteTracker` and `userKey` the empty string means "not configured". */
  datatype Settings = Settings(
    props: seq<string>,
    idKey: string,
    relKey: string,
    actions: ActionNames,
    actionKey: string,
    audit: map<string, bool>,
    strict: bool,
    deltas: bool,
    remoteCtx: string,
    remoteTracker: string,
    trackFrom: string,
    userKey: string,
    whitelistActions: Option<seq<string>>,
    remoteOnly: bool)

  function MakeSettings(o: Options, idKey: string, props: seq<string>, audit: map<string, bool>): Settings
    requires Installs(o)
  {
    Settings(
      props, idKey, o.idKeyName.value,
      ActionNames(OrDefault(o.createActionName, "create"), OrDefault(o.updateActionName, "update"),
                  OrDefault(o.deleteActionName, "delete")),
      OrDefault(o.actionKey, "action"), audit, o.whitelist.Some?, o.deltas,
      OrDefault(o.remotCtx, "remoteCtx"), OrDefault(o.remoteMethod, ""),
      OrDefault(o.trackUsersFrom, "userId"), OrDefault(o.trackUsersAs, ""),
      o.whitelistActions, o.remoteOnly)
  }

  predicate Listed(l: Option<seq<string>>, p: string)
  {
    l.Some? && p in l.value
  }

  /** The `audit` table: every listed property has an entry, and the entry is
      `false` exactly for blacklisted ones (the blacklist is applied last). */
  ghost predicate IsAuditTable(audit: map<string, bool>, whitelist: Option<seq<string>>, blacklist: Option<seq<string>>)
  {
    && (forall p :: p in audit <==> Listed(whitelist, p) || Listed(blacklist, p))
    && (forall p :: p in audit ==> audit[p] == !Listed(blacklist, p))
  }

  /** Builds the `audit` table with the two `forEach` loops of
      model-changes.js:42-53; `strict` is set when a whitelist is given. */
  method BuildAuditTable(whitelist: Option<seq<string>>, blacklist: Option<seq<string>>)
    returns (audit: map<string, bool>, strict: bool)
    ensures strict == whitelist.Some?
    ensures IsAuditTable(audit, whitelist, blacklist)
  {
    audit := map[];
    strict := false;
    if whitelist.Some? {
      strict := true;
      var wl := whitelist.value;
      for i := 0 to |wl|
        invariant forall p :: p in audit <==> p in wl[..i]
        invariant forall p :: p in audit ==> audit[p]
      {
        audit := audit[wl[i] := true];
      }
      assert wl[..|wl|] == wl;
    }
    if blacklist.Some? {
      var bl := blacklist.value;
      for i := 0 to |bl|
        invariant forall p :: p in audit <==> Listed(whitelist, p) || p in bl[..i]
        invariant forall p :: p in audit ==> audit[p] == (p !in bl[..i])
      {
        audit := audit[bl[i] := false];
      }
      assert bl[..|bl|] == bl;
    }
  }

  /** Whether property `p` is copied into a payload (model-changes.js:229-235). */
  predicate Audited(s: Settings, p: string)
  {
    if s.strict && !(p in s.audit && s.audit[p]) then p == s.idKey
    else !(p in s.audit && !s.audit[p])
  }

  /** Projection in terms of the configured lists: with a whitelist, exactly
      the whitelisted properties that are not also blacklisted, plus the id;
      without one, every property that is not blacklisted. */
  lemma AuditedByLists(s: Settings, whitelist: Option<seq<string>>, blacklist: Option<seq<string>>, p: string)
    requires IsAuditTable(s.audit, whitelist, blacklist) && s.strict == whitelist.Some?
    ensures whitelist.Some? ==> (Audited(s, p) <==> (p in whitelist.value && !Listed(blacklist, p)) || p == s.idKey)
    ensures whitelist.None? ==> (Audited(s, p) <==> !Listed(blacklist, p))
  {
  }
}
