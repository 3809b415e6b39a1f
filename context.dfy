/** The per-operation mutation context the ORM hands to each hook. */
module Context {
  import opened JsValues

  /** A snapshot of the context fields the pipeline reads: the model being
      mutated, `isNewInstance`, `instance`, `data`, `where`, the options bag
      `ctx.options` and, stashed on that bag by the before-hook,
      `previousValue` and `previousValues`. */
  datatype CtxView = CtxView(
    modelName: string,
    isNewInstance: Value,
    instance: Option<Record>,
    data: Value,
    where: Value,
    options: Record,
    previousValue: Option<Record>,
    previousValues: Option<seq<Record>>)

  /** The context object itself; the before-hook writes its stash fields in
      place and the after-hooks read them back. */
  class MutationContext {
    var modelName: string
    var isNewInstance: Value
    var instance: Option<Record>
    var data: Value
    var where: Value
    var options: Record
    var previousValue: Option<Record>
    var previousValues: Option<seq<Record>>

    /** A fresh context: nothing is stashed yet. */
    constructor (modelName: string, isNewInstance: Value, instance: Option<Record>, data: Value, where: Value, options: Record)
      ensures View() == CtxView(modelName, isNewInstance, instance, data, where, options, None, None)
    {
      this.modelName := modelName;
      this.isNewInstance := isNewInstance;
      this.instance := instance;
      this.data := data;
      this.where := where;
      this.options := options;
      this.previousValue := None;
      this.previousValues := None;
    }

    function View(): CtxView
      reads this
    {
      CtxView(modelName, isNewInstance, instance, data, where, options, previousValue, previousValues)
    }
  }
}
