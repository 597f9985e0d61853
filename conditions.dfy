/**
  Conditional encodings: an ordered list of branches, each naming a parameter and the
  value the channel takes when that parameter's selection holds, plus a default value.
  The rendering engine evaluates them; this module only builds them.
*/
module Conditions {
  import opened Wrappers
  import opened Params

  /** One branch: `{"param": param, "value": value, "empty": empty}`. */
  datatype Branch<V> = Branch(param: Name, value: V, empty: bool)

  /** `{"condition": branches, "value": default}`; a `None` default is Python's `None`. */
  datatype Condition<V> = Condition(branches: seq<Branch<V>>, default: Option<V>)

  /** Indexing a Python list past its end. */
  datatype ConditionError = IndexError

  /**
    The condition with one branch per entry of `preds`, in order, each with
    `empty` false, and default `ifFalse`.
  */
  function ConditionOf<V>(preds: seq<(Param, V)>, ifFalse: Option<V>): (c: Condition<V>)
    ensures |c.branches| == |preds| && c.default == ifFalse
    ensures forall i :: 0 <= i < |preds| ==>
      c.branches[i] == Branch(preds[i].0.name, preds[i].1, false)
  {
    Condition(BranchesOf(preds), ifFalse)
  }

  function BranchesOf<V>(preds: seq<(Param, V)>): (bs: seq<Branch<V>>)
    ensures |bs| == |preds|
    ensures forall i :: 0 <= i < |preds| ==>
      bs[i] == Branch(preds[i].0.name, preds[i].1, false)
  {
    if preds == [] then []
    else [Branch(preds[0].0.name, preds[0].1, false)] + BranchesOf(preds[1..])
  }

  /**
    `utils_condition(preds, if_false)`: a two-fold condition built from
    `preds[0]` and `preds[1]`. A list shorter than two raises IndexError.
  */
  function UtilsCondition<V>(preds: seq<(Param, V)>, ifFalse: Option<V>)
    : (r: Result<Condition<V>, ConditionError>)
    ensures r.Failure? <==> |preds| < 2
    ensures r.Success? ==> r.value == ConditionOf(preds[..2], ifFalse)
  {
    if |preds| < 2 then Failure(IndexError)
    else
      Success(Condition(
        [Branch(preds[0].0.name, preds[0].1, false),
         Branch(preds[1].0.name, preds[1].1, false)],
        ifFalse))
  }

  /** The names of the parameters a condition refers to, in branch order. */
  function ReferencedNames<V>(c: Condition<V>): (names: seq<Name>)
    ensures |names| == |c.branches|
    ensures forall i :: 0 <= i < |names| ==> names[i] == c.branches[i].param
  {
    ParamNames(c.branches)
  }

  function ParamNames<V>(bs: seq<Branch<V>>): (names: seq<Name>)
    ensures |names| == |bs|
    ensures forall i :: 0 <= i < |names| ==> names[i] == bs[i].param
  {
    if bs == [] then [] else [bs[0].param] + ParamNames(bs[1..])
  }

  /**
    A built condition has exactly two branches, for the first two entries in input
    order, both requiring a non-empty selection, and its default is `ifFalse`
    (also when that is `None`).
  */
  lemma UtilsConditionShape<V>(preds: seq<(Param, V)>, ifFalse: Option<V>)
    requires |preds| >= 2
    ensures var c := UtilsCondition(preds, ifFalse).value;
      && ReferencedNames(c) == [preds[0].0.name, preds[1].0.name]
      && c.branches[0].value == preds[0].1
      && c.branches[1].value == preds[1].1
      && !c.branches[0].empty && !c.branches[1].empty
      && c.default == ifFalse
  {
  }

  /** Entries of `preds` after the second one have no effect. */
  lemma UtilsConditionIgnoresRest<V>(preds: seq<(Param, V)>, rest: seq<(Param, V)>,
                                     ifFalse: Option<V>)
    requires |preds| >= 2
    ensures UtilsCondition(preds + rest, ifFalse) == UtilsCondition(preds, ifFalse)
  {
  }

  /**
    The stroke-width condition of the wind-rose arcs: width 2 under the hover
    selection, 3 under the click selection, 0 otherwise.
  */
  function WindroseStrokeWidth(hover: Param, click: Param): (c: Condition<int>)
    ensures ReferencedNames(c) == [hover.name, click.name]
    ensures c.branches[0].value == 2 && c.branches[1].value == 3 && c.default == Some(0)
  {
    var r := UtilsCondition([(hover, 2), (click, 3)], Some(0));
    UtilsConditionShape([(hover, 2), (click, 3)], Some(0));
    r.value
  }

  /**
    The stroke-colour condition of the wind-rose arcs: red under hover, cyan under
    click, and no default colour.
  */
  function WindroseStroke(hover: Param, click: Param): (c: Condition<string>)
    ensures ReferencedNames(c) == [hover.name, click.name]
    ensures c.branches[0].value == "red" && c.branches[1].value == "cyan" && c.default == None
  {
    var r := UtilsCondition([(hover, "red"), (click, "cyan")], None);
    UtilsConditionShape([(hover, "red"), (click, "cyan")], None);
    r.value
  }
}
