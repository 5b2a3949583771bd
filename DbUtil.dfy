/**
 * db/util.js: helpers around the database models — swallowing
 * unique-constraint errors, a model's field names, picking those fields
 * from an object, and the model of a `findOrCreate` result.
 */
module DbUtil {
  import opened Js
  import opened Grouping
  import opened Objects

  /** How a call ends: with a value, or by throwing an error object. */
  datatype Completion = Returned(value: JsValue) | Threw(error: seq<Prop>)

  const UniqueConstraintError := "SequelizeUniqueConstraintError"

  /** `ignoreUniqueErrors(error)`, used as a `.catch` handler. */
  function IgnoreUniqueErrors(error: seq<Prop>): Completion {
    if Lookup(error, "name") != Some(Str(UniqueConstraintError)) then Threw(error) else Returned(Undefined)
  }

  /** A unique-constraint error is swallowed, leaving `undefined`; any
      other error is thrown again unchanged. */
  lemma IgnoreUniqueErrorsSpec(error: seq<Prop>)
    ensures IgnoreUniqueErrors(error).Returned? <==> Lookup(error, "name") == Some(Str(UniqueConstraintError))
    ensures IgnoreUniqueErrors(error).Returned? ==> IgnoreUniqueErrors(error).value == Undefined
    ensures IgnoreUniqueErrors(error).Threw? ==> IgnoreUniqueErrors(error).error == error
  {
  }

  /** A model, by the attributes of its table. */
  datatype Model = Model(tableAttributes: seq<Prop>)

  /** `getModelFields(model)`: `Object.keys(model.tableAttributes)`. */
  function GetModelFields(model: Model): seq<string> {
    Names(model.tableAttributes)
  }

  /** `_.pick(obj, paths)`: each path the object has, in the order of the
      paths. */
  function Pick(obj: seq<Prop>, paths: seq<string>): seq<Prop> {
    if paths == [] then []
    else
      var init := Pick(obj, paths[..|paths| - 1]);
      var path := paths[|paths| - 1];
      match Lookup(obj, path)
      case Some(v) => Put(init, Prop(path, v))
      case None => init
  }

  /** `definedFieldsOnly(obj, model)`. */
  function DefinedFieldsOnly(obj: seq<Prop>, model: Model): seq<Prop> {
    Assign([], Pick(obj, GetModelFields(model)))
  }

  /** A picked object has each name once, holds exactly the picked paths
      the object has, and with the object's values. */
  lemma {:induction false} PickLookup(obj: seq<Prop>, paths: seq<string>, name: string)
    ensures NoDuplicates(Names(Pick(obj, paths)))
    ensures Lookup(Pick(obj, paths), name) == if name in paths then Lookup(obj, name) else None
    decreases |paths|
  {
    if paths != [] {
      var n := |paths| - 1;
      var init := Pick(obj, paths[..n]);
      PickLookup(obj, paths[..n], name);
      assert name in paths <==> name in paths[..n] || name == paths[n] by {
        assert paths == paths[..n] + [paths[n]];
      }
      match Lookup(obj, paths[n])
      case Some(v) =>
        PutLookup(init, Prop(paths[n], v), name);
      case None =>
    }
  }

  /** `definedFieldsOnly` keeps exactly the model's fields the object has,
      with the object's values, each once. */
  lemma DefinedFieldsOnlySpec(obj: seq<Prop>, model: Model, name: string)
    ensures NoDuplicates(Names(DefinedFieldsOnly(obj, model)))
    ensures Lookup(DefinedFieldsOnly(obj, model), name)
         == if name in GetModelFields(model) then Lookup(obj, name) else None
  {
    var picked := Pick(obj, GetModelFields(model));
    PickLookup(obj, GetModelFields(model), name);
    AssignLookup([], picked, name);
    assert Lookup([], name) == None;
  }

  /** When the paths have no repeats, the picked names are the paths the
      object has, in the order of the paths. */
  lemma {:induction false} PickOrder(obj: seq<Prop>, paths: seq<string>)
    requires NoDuplicates(paths)
    ensures Names(Pick(obj, paths)) == Present(obj, paths)
    decreases |paths|
  {
    if paths != [] {
      var n := |paths| - 1;
      assert NoDuplicates(paths[..n]);
      PickOrder(obj, paths[..n]);
      match Lookup(obj, paths[n])
      case Some(v) =>
        var init := Pick(obj, paths[..n]);
        PresentWithin(obj, paths[..n]);
        assert paths[n] !in paths[..n];
        PutNew(init, Prop(paths[n], v));
        assert Names(init + [Prop(paths[n], v)]) == Names(init) + [paths[n]];
      case None =>
    }
  }

  /** The paths the object has, in order. */
  function Present(obj: seq<Prop>, paths: seq<string>): seq<string> {
    if paths == [] then []
    else
      var init := Present(obj, paths[..|paths| - 1]);
      if Lookup(obj, paths[|paths| - 1]).Some? then init + [paths[|paths| - 1]] else init
  }

  lemma {:induction false} PresentWithin(obj: seq<Prop>, paths: seq<string>)
    ensures forall p :: p in Present(obj, paths) ==> p in paths
    decreases |paths|
  {
    if paths != [] {
      var n := |paths| - 1;
      PresentWithin(obj, paths[..n]);
      assert forall p :: p in paths[..n] ==> p in paths;
    }
  }

  /** `getModel([model])`: the first element of the pair. */
  function GetModel(pair: seq<JsValue>): JsValue {
    if pair == [] then Undefined else pair[0]
  }

  /** `findOrCreate` resolves to the model and whether it was created;
      `getModel` keeps the model. */
  lemma GetModelSpec(model: JsValue, created: bool)
    ensures GetModel([model, Bool(created)]) == model
  {
  }
}
