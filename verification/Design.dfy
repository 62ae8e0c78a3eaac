/** The static part of an agent canvas: components, their wiring, and the start item of a container. */
module Design {
  import opened Common
  import opened Options

  type Id = string

  datatype Kind =
    | Begin | UserFillUp | Message | Categorize | Switch
    | Iteration | Loop | IterationItem | LoopItem | ExitLoop | Other

  // `exception_method` unset, or set with a (possibly empty) goto list and a default value.
  datatype Handler = NoHandler | Handler(goto: seq<Id>, hasDefault: bool)

  // `refs` are the `_cpn_id`s of the input elements; "" marks an input that names no component.
  // `routes` are the target lists a Categorize or Switch can put in its `_next` output.
  // `maxLoop` is the Loop's maximum_loop_count.
  datatype Component = Component(
    kind: Kind, refs: seq<Id>, downstream: seq<Id>, parent: Option<Id>,
    handler: Handler, routes: seq<seq<Id>>, maxLoop: int)

  // `order` is the insertion order of the components dictionary.
  datatype Design = Design(order: seq<Id>, comps: map<Id, Component>)

  predicate IsContainer(k: Kind) { k == Iteration || k == Loop }

  predicate IsItem(k: Kind) { k == IterationItem || k == LoopItem }

  // The item kind a container looks for in get_start.
  function ItemKind(k: Kind): Kind { if k == Iteration then IterationItem else LoopItem }

  predicate IsStartOf(d: Design, container: Id, x: Id)
  {
    x in d.comps && container in d.comps
    && d.comps[x].kind == ItemKind(d.comps[container].kind)
    && d.comps[x].parent == Some(container)
  }

  // Iteration.get_start and Loop.get_start: the first matching component in dictionary order.
  function FindStart(d: Design, container: Id, ids: seq<Id>): (r: Option<Id>)
    ensures r.Some? ==> exists k :: 0 <= k < |ids| && ids[k] == r.value && IsStartOf(d, container, ids[k])
                                    && forall j :: 0 <= j < k ==> !IsStartOf(d, container, ids[j])
    ensures r.None? ==> forall x :: x in ids ==> !IsStartOf(d, container, x)
  {
    if ids == [] then None
    else if IsStartOf(d, container, ids[0]) then Some(ids[0])
    else FindStart(d, container, ids[1..])
  }

  predicate AllIn(ids: seq<Id>, comps: map<Id, Component>)
  {
    forall x :: x in ids ==> x in comps
  }

  predicate WellFormedComponent(d: Design, id: Id)
    requires id in d.comps
  {
    var c := d.comps[id];
    && AllIn(c.downstream, d.comps)
    && (c.handler.Handler? ==> AllIn(c.handler.goto, d.comps))
    && (forall k :: 0 <= k < |c.routes| ==> AllIn(c.routes[k], d.comps))
    && (c.parent.Some? ==> c.parent.value in d.comps && IsContainer(d.comps[c.parent.value].kind))
    && (IsItem(c.kind) || c.kind == ExitLoop ==> c.parent.Some?)
    && (IsContainer(c.kind) ==> FindStart(d, id, d.order).Some?)
  }

  // What the scheduler needs in order not to raise: every id it may look up is a component, parents
  // are containers, containers have a start item, and "begin" is the Begin component.
  ghost predicate WellFormed(d: Design)
  {
    && "begin" in d.comps && d.comps["begin"].kind == Begin
    && forall id {:trigger WellFormedComponent(d, id)} :: id in d.comps ==> WellFormedComponent(d, id)
  }

  function GetStart(d: Design, container: Id): (r: Id)
    requires WellFormed(d) && container in d.comps && IsContainer(d.comps[container].kind)
    ensures IsStartOf(d, container, r)
  {
    assert WellFormedComponent(d, container);
    FindStart(d, container, d.order).value
  }

  function LowerAll(s: string): (r: string)
    ensures |r| == |s|
  {
    seq(|s|, i requires 0 <= i < |s| => Lower(s[i]))
  }

  predicate FillUpAt(id: Id, i: nat)
  {
    i + 10 <= |id| && LowerAll(id[i..i + 10]) == "userfillup"
  }

  // `id.lower().find("userfillup") >= 0`
  predicate MentionsFillUp(id: Id)
  {
    exists i :: 0 <= i < |id| && FillUpAt(id, i)
  }
}
