/** Batch recording, `recordModelChange` (model-changes.js:179-208): a payload
    per entity, nulls dropped, at most one write to the audit sink. */
module Recording {
  import opened JsValues
  import opened Config
  import opened Payload

  /** What is handed to `recordModelChange`: an array of entities, a single
      (truthy) entity, or a falsy value. */
  datatype Target = Many(rows: seq<Record>) | One(row: Record) | Nothing

  function TargetOf(v: Option<Record>): Target
  {
    match v
    case Some(r) => One(r)
    case None => Nothing
  }

  /** One `ChangeStreamModel.create` call: with an array or with one payload. */
  datatype Write = CreateMany(payloads: seq<Record>) | CreateOne(payload: Record)

  /** The audit sink's write log, appended to by every create call. */
  class AuditSink {
    var log: seq<Write>

    constructor ()
      ensures log == []
    {
      log := [];
    }

    method Create(w: Write)
      modifies this
      ensures log == old(log) + [w]
    {
      log := log + [w];
    }
  }

  /** The present values of `xs`, in order (`filter(mdl => !!mdl)`). */
  function Somes(xs: seq<Option<Record>>): seq<Record>
  {
    if xs == [] then []
    else Somes(xs[..|xs| - 1]) + (if xs[|xs| - 1].Some? then [xs[|xs| - 1].value] else [])
  }

  /** Filtering distributes over concatenation, so it keeps input order. */
  lemma {:induction false} SomesAppend(xs: seq<Option<Record>>, ys: seq<Option<Record>>)
    ensures Somes(xs + ys) == Somes(xs) + Somes(ys)
    decreases |ys|
  {
    if ys == [] {
      assert xs + ys == xs;
    } else {
      var init := ys[..|ys| - 1];
      assert (xs + ys)[..|xs + ys| - 1] == xs + init;
      SomesAppend(xs, init);
    }
  }

  /** Nothing is kept exactly when every element is null. */
  lemma {:induction false} SomesEmpty(xs: seq<Option<Record>>)
    ensures Somes(xs) == [] <==> forall i :: 0 <= i < |xs| ==> xs[i].None?
  {
    if xs != [] {
      var init := xs[..|xs| - 1];
      SomesEmpty(init);
      assert forall i :: 0 <= i < |init| ==> init[i] == xs[i];
    }
  }

  /** With no nulls, everything is kept, position by position. */
  lemma {:induction false} SomesAllPresent(xs: seq<Option<Record>>)
    requires forall i :: 0 <= i < |xs| ==> xs[i].Some?
    ensures |Somes(xs)| == |xs|
    ensures forall i :: 0 <= i < |xs| ==> Somes(xs)[i] == xs[i].value
  {
    if xs != [] {
      var init := xs[..|xs| - 1];
      assert forall i :: 0 <= i < |init| ==> init[i] == xs[i];
      SomesAllPresent(init);
    }
  }

  /** Every kept payload comes from the input, and every present input is
      kept. */
  lemma {:induction false} SomesMembers(xs: seq<Option<Record>>)
    ensures forall p :: p in Somes(xs) <==> Some(p) in xs
  {
    if xs != [] {
      var init := xs[..|xs| - 1];
      SomesMembers(init);
      assert xs == init + [xs[|xs| - 1]];
    }
  }

  /** The payloads built for each entity of a batch, nulls included. */
  function BatchPayloads(s: Settings, action: string, rows: seq<Record>, opts: Record): (ps: seq<Option<Record>>)
    ensures |ps| == |rows|
    ensures forall i :: 0 <= i < |rows| ==> ps[i] == PayloadOf(s, action, rows[i], opts)
  {
    seq(|rows|, i requires 0 <= i < |rows| => PayloadOf(s, action, rows[i], opts))
  }

  /** The writes `recordModelChange(action, target, opts)` issues. */
  function WritesFor(s: Settings, action: string, t: Target, opts: Record): (w: seq<Write>)
    ensures |w| <= 1
    ensures t.Nothing? ==> w == []
    ensures t.One? ==> (w == [] <==> PayloadOf(s, action, t.row, opts).None?)
    ensures t.One? && w != [] ==> w == [CreateOne(PayloadOf(s, action, t.row, opts).value)]
    ensures t.Many? ==> (w == [] <==> forall i :: 0 <= i < |t.rows| ==> PayloadOf(s, action, t.rows[i], opts).None?)
  {
    match t
    case Many(rows) =>
      var kept := Somes(BatchPayloads(s, action, rows, opts));
      SomesEmpty(BatchPayloads(s, action, rows, opts));
      if |kept| > 0 then [CreateMany(kept)] else []
    case One(row) =>
      (match PayloadOf(s, action, row, opts)
       case Some(p) => [CreateOne(p)]
       case None => [])
    case Nothing => []
  }

  /** A batch whose action is not the update action loses no entity: one
      write holding a payload per entity, in order, each carrying its
      entity's id in the foreign-key slot. */
  lemma BatchNonUpdate(s: Settings, action: string, rows: seq<Record>, opts: Record)
    requires action != s.actions.update && rows != []
    ensures WritesFor(s, action, Many(rows), opts) == [CreateMany(WritesFor(s, action, Many(rows), opts)[0].payloads)]
    ensures var ps := WritesFor(s, action, Many(rows), opts)[0].payloads;
      && |ps| == |rows|
      && forall i :: 0 <= i < |rows| ==>
           Some(ps[i]) == PayloadOf(s, action, rows[i], opts) && ps[i][s.relKey] == RelocatedId(s, rows[i])
  {
    var xs := BatchPayloads(s, action, rows, opts);
    forall i | 0 <= i < |rows| ensures xs[i].Some? {
      SuppressedExactly(s, action, rows[i], opts);
    }
    SomesAllPresent(xs);
  }

  /** The one write of an array: exactly the non-null payloads, in input
      order; when none is null, one payload per entity at its own position. */
  lemma BatchKeepsNonNull(s: Settings, action: string, rows: seq<Record>, opts: Record)
    ensures var kept := Somes(BatchPayloads(s, action, rows, opts));
      WritesFor(s, action, Many(rows), opts) == if kept == [] then [] else [CreateMany(kept)]
    ensures var w := WritesFor(s, action, Many(rows), opts);
      w != [] ==>
        && w[0].CreateMany?
        && forall p :: p in w[0].payloads <==>
             exists i :: 0 <= i < |rows| && PayloadOf(s, action, rows[i], opts) == Some(p)
    ensures var w := WritesFor(s, action, Many(rows), opts);
      (forall i :: 0 <= i < |rows| ==> PayloadOf(s, action, rows[i], opts).Some?) && rows != [] ==>
        && |w| == 1 && |w[0].payloads| == |rows|
        && forall i :: 0 <= i < |rows| ==> Some(w[0].payloads[i]) == PayloadOf(s, action, rows[i], opts)
  {
    var xs := BatchPayloads(s, action, rows, opts);
    SomesMembers(xs);
    forall p ensures Some(p) in xs <==> exists i :: 0 <= i < |rows| && PayloadOf(s, action, rows[i], opts) == Some(p) {
      if Some(p) in xs {
        var i :| 0 <= i < |xs| && xs[i] == Some(p);
        assert PayloadOf(s, action, rows[i], opts) == Some(p);
      }
    }
    if forall i :: 0 <= i < |rows| ==> PayloadOf(s, action, rows[i], opts).Some? {
      SomesAllPresent(xs);
    }
  }

  /** The array branch of `recordModelChange`: `val.map(buildModelPayload)`
      followed by `filter(mdl => !!mdl)`. */
  method BuildBatch(s: Settings, action: string, rows: seq<Record>, opts: Record) returns (kept: seq<Record>)
    ensures kept == Somes(BatchPayloads(s, action, rows, opts))
  {
    var mdls: seq<Option<Record>> := [];
    for i := 0 to |rows|
      invariant |mdls| == i
      invariant forall k :: 0 <= k < i ==> mdls[k] == PayloadOf(s, action, rows[k], opts)
    {
      var p := BuildPayload(s, action, rows[i], opts);
      mdls := mdls + [p];
    }
    assert mdls == BatchPayloads(s, action, rows, opts);
    kept := [];
    for i := 0 to |mdls|
      invariant kept == Somes(mdls[..i])
    {
      assert mdls[..i + 1][..i] == mdls[..i];
      if mdls[i].Some? {
        kept := kept + [mdls[i].value];
      }
    }
    assert mdls[..|mdls|] == mdls;
  }

  /** `recordModelChange`: at most one create call, with the batch's
      non-null payloads or with the single payload. */
  method RecordModelChange(sink: AuditSink, s: Settings, action: string, t: Target, opts: Record)
    modifies sink
    ensures sink.log == old(sink.log) + WritesFor(s, action, t, opts)
  {
    match t
    case Many(rows) =>
      var mdls := BuildBatch(s, action, rows, opts);
      if |mdls| > 0 {
        sink.Create(CreateMany(mdls));
      }
    case One(row) =>
      var changeInstance := BuildPayload(s, action, row, opts);
      if changeInstance.Some? {
        sink.Create(CreateOne(changeInstance.value));
      }
    case Nothing =>
  }
}
