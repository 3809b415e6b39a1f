/** Payload assembly, `buildModelPayload` (model-changes.js:226-260): field
    projection, id relocation into the foreign-key slot, actor and remote
    method attribution, update suppression and action tagging. */
module Payload {
  import opened JsValues
  import opened Config
  import opened Gating

  /** The declared properties that pass projection, each with `data`'s value
      (`undefined` when `data` lacks it). */
  function Projected(s: Settings, data: Record): map<string, Value>
  {
    map p | p in s.props && Audited(s, p) :: Get(data, p)
  }

  /** The actor value written under `userKey`: only when actor tracking is on
      and a remote context is present, and only when
      `opts[remoteCtx].req.accessToken[trackFrom]` does not throw
      (model-changes.js:240-244). */
  function Actor(s: Settings, opts: Record): Option<Value>
  {
    if s.userKey != "" && Truthy(Get(opts, s.remoteCtx)) then
      Path(Get(opts, s.remoteCtx), ["req", "accessToken", s.trackFrom])
    else None
  }

  /** The remote method name written under `remoteTracker`, when that is
      configured and the name is truthy (model-changes.js:245-250). */
  function RemoteTag(s: Settings, opts: Record): Option<Value>
  {
    if s.remoteTracker != "" && Truthy(RemoteMethodName(s.remoteCtx, opts)) then
      Some(RemoteMethodName(s.remoteCtx, opts))
    else None
  }

  /** The payload before tagging: projected fields with the id cleared, then
      the attribution fields. */
  function Body(s: Settings, data: Record, opts: Record): map<string, Value>
  {
    var fields := Projected(s, data)[s.idKey := Undefined];
    var withActor := if Actor(s, opts).Some? then fields[s.userKey := Actor(s, opts).value] else fields;
    if RemoteTag(s, opts).Some? then withActor[s.remoteTracker := RemoteTag(s, opts).value] else withActor
  }

  predicate NoDefinedField(m: map<string, Value>)
  {
    forall k :: k in m ==> m[k] == Undefined
  }

  /** The id value moved into the foreign-key slot: `data`'s id when the id
      property is declared and passes projection. */
  function RelocatedId(s: Settings, data: Record): Value
  {
    Get(Projected(s, data), s.idKey)
  }

  /** The payload `buildModelPayload(action, data, opts)` returns; None is
      its `null`. */
  function PayloadOf(s: Settings, action: string, data: Record, opts: Record): Option<Record>
  {
    var body := Body(s, data, opts);
    if action == s.actions.update && NoDefinedField(body) then None
    else Some(body[s.actionKey := Str(action)][s.relKey := RelocatedId(s, data)])
  }

  /** The `forEachProperty` loop of `buildModelPayload`: copies every
      declared property that passes projection. */
  method ProjectProps(s: Settings, data: Record) returns (payload: map<string, Value>)
    ensures payload == Projected(s, data)
  {
    payload := map[];
    for i := 0 to |s.props|
      invariant payload == map p | p in s.props[..i] && Audited(s, p) :: Get(data, p)
    {
      var prop := s.props[i];
      var skip := if s.strict && !(prop in s.audit && s.audit[prop]) then prop != s.idKey
                  else prop in s.audit && !s.audit[prop];
      assert s.props[..i + 1] == s.props[..i] + [prop];
      if !skip {
        payload := payload[prop := Get(data, prop)];
      }
    }
    assert s.props[..|s.props|] == s.props;
  }

  /** The keys holding a defined value (the `deltas` filter of
      model-changes.js:252); there are none exactly when every field is
      `undefined`. */
  function DefinedKeys(m: map<string, Value>): (ks: set<string>)
    ensures forall k :: k in ks <==> k in m && m[k] != Undefined
    ensures |ks| == 0 <==> NoDefinedField(m)
  {
    var ks := set k | k in m && m[k] != Undefined;
    DefinedKeysEmpty(m, ks);
    ks
  }

  lemma DefinedKeysEmpty(m: map<string, Value>, ks: set<string>)
    requires forall k :: k in ks <==> k in m && m[k] != Undefined
    ensures |ks| == 0 <==> NoDefinedField(m)
  {
    if !NoDefinedField(m) {
      var k :| k in m && m[k] != Undefined;
      assert k in ks;
    }
  }

  /** `buildModelPayload`: fills the payload property by property, then
      overwrites the id, attribution, action and foreign-key slots. */
  method BuildPayload(s: Settings, action: string, data: Record, opts: Record) returns (r: Option<Record>)
    ensures r == PayloadOf(s, action, data, opts)
  {
    var payload := ProjectProps(s, data);
    var id := Get(payload, s.idKey);
    payload := payload[s.idKey := Undefined];
    if s.userKey != "" && Truthy(Get(opts, s.remoteCtx)) {
      var token := Path(Get(opts, s.remoteCtx), ["req", "accessToken", s.trackFrom]);
      if token.Some? {
        payload := payload[s.userKey := token.value];
      }
    }
    if s.remoteTracker != "" {
      var remoteName := RemoteMethodName(s.remoteCtx, opts);
      if Truthy(remoteName) {
        payload := payload[s.remoteTracker := remoteName];
      }
    }
    assert payload == Body(s, data, opts);
    if action == s.actions.update {
      var deltas := DefinedKeys(payload);
      if |deltas| == 0 {
        return None;
      }
    }
    payload := payload[s.actionKey := Str(action)];
    payload := payload[s.relKey := id];
    r := Some(payload);
  }

  /** No key outside the declared, projected properties enters a payload
      except the id, foreign-key, action and attribution slots; every
      projected property that no slot overwrites carries `data`'s value. */
  lemma PayloadKeysAndFields(s: Settings, action: string, data: Record, opts: Record)
    requires PayloadOf(s, action, data, opts).Some?
    ensures var r := PayloadOf(s, action, data, opts).value;
      forall k :: k in r ==>
        || (k in s.props && Audited(s, k))
        || k == s.idKey || k == s.relKey || k == s.actionKey
        || (k == s.userKey && Actor(s, opts).Some?)
        || (k == s.remoteTracker && RemoteTag(s, opts).Some?)
    ensures var r := PayloadOf(s, action, data, opts).value;
      forall p :: p in s.props && Audited(s, p)
        && p != s.idKey && p != s.relKey && p != s.actionKey
        && !(p == s.userKey && Actor(s, opts).Some?)
        && !(p == s.remoteTracker && RemoteTag(s, opts).Some?)
        ==> p in r && r[p] == Get(data, p)
  {
  }

  /** The slots of a payload: the foreign key holds the original id, the
      action key the action passed in, the id key `undefined`, and the
      attribution keys their resolved values, each unless a later slot with
      the same name overwrites it. */
  lemma PayloadSlots(s: Settings, action: string, data: Record, opts: Record)
    requires PayloadOf(s, action, data, opts).Some?
    ensures var r := PayloadOf(s, action, data, opts).value;
      && r[s.relKey] == (if s.idKey in s.props && Audited(s, s.idKey) then Get(data, s.idKey) else Undefined)
      && (s.actionKey != s.relKey ==> r[s.actionKey] == Str(action))
      && (s.idKey != s.relKey && s.idKey != s.actionKey
          && !(s.idKey == s.userKey && Actor(s, opts).Some?)
          && !(s.idKey == s.remoteTracker && RemoteTag(s, opts).Some?)
          ==> r[s.idKey] == Undefined)
      && (Actor(s, opts).Some? && s.userKey != s.relKey && s.userKey != s.actionKey
          && !(s.userKey == s.remoteTracker && RemoteTag(s, opts).Some?)
          ==> r[s.userKey] == Actor(s, opts).value)
      && (RemoteTag(s, opts).Some? && s.remoteTracker != s.relKey && s.remoteTracker != s.actionKey
          ==> r[s.remoteTracker] == RemoteTag(s, opts).value)
  {
  }

  /** Update suppression: the payload is null exactly for an update in which
      no remote method name is tagged, the actor (if set) is `undefined`, and
      every projected non-id property not overwritten by the actor is
      `undefined` in `data`. Other actions always yield a payload. */
  lemma SuppressedExactly(s: Settings, action: string, data: Record, opts: Record)
    ensures PayloadOf(s, action, data, opts).None? <==>
      && action == s.actions.update
      && RemoteTag(s, opts).None?
      && (Actor(s, opts).Some? ==> Actor(s, opts).value == Undefined)
      && (forall p :: p in s.props && Audited(s, p) && p != s.idKey && !(p == s.userKey && Actor(s, opts).Some?)
            ==> Get(data, p) == Undefined)
  {
    var body := Body(s, data, opts);
    var actor := Actor(s, opts);
    var inputsUndefined :=
      && RemoteTag(s, opts).None?
      && (actor.Some? ==> actor.value == Undefined)
      && (forall p :: p in s.props && Audited(s, p) && p != s.idKey && !(p == s.userKey && actor.Some?)
            ==> Get(data, p) == Undefined);
    if RemoteTag(s, opts).Some? {
      assert body[s.remoteTracker] == RemoteTag(s, opts).value;
    }
    if NoDefinedField(body) {
      if actor.Some? {
        assert body[s.userKey] == actor.value;
      }
      forall p | p in s.props && Audited(s, p) && p != s.idKey && !(p == s.userKey && actor.Some?)
        ensures Get(data, p) == Undefined
      {
        assert body[p] == Get(data, p);
      }
    }
    if inputsUndefined {
      var fields := Projected(s, data)[s.idKey := Undefined];
      forall k | k in body ensures body[k] == Undefined {
        if actor.Some? && k == s.userKey {
        } else if k == s.idKey {
          assert body[k] == fields[k];
        } else {
          assert body[k] == Projected(s, data)[k];
        }
      }
    }
  }

  /** A remote method name tagged on the payload keeps an update from being
      suppressed, whatever its fields. */
  lemma RemoteTagNeverSuppressed(s: Settings, action: string, data: Record, opts: Record)
    requires RemoteTag(s, opts).Some?
    ensures PayloadOf(s, action, data, opts).Some?
  {
    SuppressedExactly(s, action, data, opts);
  }
}
