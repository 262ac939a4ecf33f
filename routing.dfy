/**
 * Route selection: the six single-bit route constants, the mask rule for the
 * variadic argument of `Routes`, and the (method, path, handler) registrations
 * a mask selects. The router's table is the `Engine` class below.
 */
module Routing {

  /** Go's `int` on a 64-bit platform, as the two's-complement bits `&` works on. */
  type Mask = bv64

  const RouteNew: Mask := 1
  const RouteList: Mask := 2
  const RouteGet: Mask := 4
  const RouteUpdate: Mask := 8
  const RoutePatch: Mask := 16
  const RouteDelete: Mask := 32
  const RouteAll: Mask := RouteNew | RouteList | RouteGet | RouteUpdate | RoutePatch | RouteDelete

  datatype Verb = POST | GET | PUT | PATCH | DELETE

  /** The six handlers of a blueprint. */
  datatype Handler = New | List | Get | Update | Patch | Delete

  /** A route group, given by the path segments of its prefix. */
  datatype RouterGroup = RouterGroup(segments: seq<string>)

  /** `router.Group(name)`: a sub-group one segment below. */
  function Group(parent: RouterGroup, name: string): (g: RouterGroup)
    ensures |g.segments| == |parent.segments| + 1
    ensures g.segments[..|parent.segments|] == parent.segments && g.segments[|parent.segments|] == name
  {
    RouterGroup(parent.segments + [name])
  }

  /** One route: a method and a path relative to a group, served by a handler. */
  datatype Registration = Registration(group: RouterGroup, verb: Verb, path: string, handler: Handler)

  /** The constant that selects a handler. */
  function Bit(h: Handler): Mask
  {
    match h
    case New => RouteNew
    case List => RouteList
    case Get => RouteGet
    case Update => RouteUpdate
    case Patch => RoutePatch
    case Delete => RouteDelete
  }

  /** The method and path each handler is served under. */
  function Entry(g: RouterGroup, h: Handler): (e: Registration)
    ensures e.handler == h && e.group == g
  {
    match h
    case New => Registration(g, POST, "/", New)
    case List => Registration(g, GET, "/", List)
    case Get => Registration(g, GET, "/:id", Get)
    case Update => Registration(g, PUT, "/:id", Update)
    case Patch => Registration(g, PATCH, "/:id", Patch)
    case Delete => Registration(g, DELETE, "/:id", Delete)
  }

  /** The handler order in which `Routes` tests the bits. */
  const Order: seq<Handler> := [New, List, Get, Update, Patch, Delete]

  /** The mask `Routes` uses: its one argument, or every route for none or several. */
  function EffectiveMask(routes: seq<Mask>): (m: Mask)
    ensures |routes| == 1 ==> m == routes[0]
    ensures |routes| != 1 ==> m == RouteAll
  {
    if |routes| == 1 then routes[0] else RouteAll
  }

  /** Whether a mask selects a handler: `(route & RouteX) != 0`. */
  predicate Selects(mask: Mask, h: Handler)
  {
    mask & Bit(h) != 0
  }

  /** The routes of the handlers in `hs` that the mask selects, in the order of `hs`. */
  function Selected(g: RouterGroup, mask: Mask, hs: seq<Handler>): (r: seq<Registration>)
    ensures |r| <= |hs|
  {
    if hs == [] then []
    else (if Selects(mask, hs[0]) then [Entry(g, hs[0])] else []) + Selected(g, mask, hs[1..])
  }

  /** The route one test of `Routes` adds: the handler's route when its bit is set. */
  function Added(g: RouterGroup, mask: Mask, h: Handler): seq<Registration>
  {
    if Selects(mask, h) then [Entry(g, h)] else []
  }

  /**
   * The routes registered for a mask, in the order `Routes` registers them:
   * New, List, Get, Update, Patch, Delete, each when its bit is set.
   */
  function Registrations(g: RouterGroup, mask: Mask): seq<Registration>
  {
    Selected(g, mask, Order)
  }

  /** The six tests of `Routes`, one after the other, add exactly the registrations of the mask. */
  lemma RegistrationsInSteps(g: RouterGroup, mask: Mask, before: seq<Registration>)
    ensures before + Added(g, mask, New) + Added(g, mask, List) + Added(g, mask, Get)
              + Added(g, mask, Update) + Added(g, mask, Patch) + Added(g, mask, Delete)
         == before + Registrations(g, mask)
  {
    FirstThreeSteps(g, mask, before);
    LastThreeSteps(g, mask, before + Added(g, mask, New) + Added(g, mask, List) + Added(g, mask, Get));
  }

  lemma FirstThreeSteps(g: RouterGroup, mask: Mask, before: seq<Registration>)
    ensures before + Added(g, mask, New) + Added(g, mask, List) + Added(g, mask, Get) + Selected(g, mask, Order[3..])
         == before + Registrations(g, mask)
  {
    var target := before + Registrations(g, mask);
    assert Order[0..] == Order;
    var s := before;
    SelectedStep(g, mask, 0, New, s, target);
    s := s + Added(g, mask, New);
    SelectedStep(g, mask, 1, List, s, target);
    s := s + Added(g, mask, List);
    SelectedStep(g, mask, 2, Get, s, target);
  }

  lemma LastThreeSteps(g: RouterGroup, mask: Mask, s: seq<Registration>)
    ensures s + Added(g, mask, Update) + Added(g, mask, Patch) + Added(g, mask, Delete)
         == s + Selected(g, mask, Order[3..])
  {
    var target := s + Selected(g, mask, Order[3..]);
    var t := s;
    SelectedStep(g, mask, 3, Update, t, target);
    t := t + Added(g, mask, Update);
    SelectedStep(g, mask, 4, Patch, t, target);
    t := t + Added(g, mask, Patch);
    SelectedStep(g, mask, 5, Delete, t, target);
    assert Order[6..] == [];
  }

  /**
   * Testing the k-th handler of `Order`: if `s` plus the routes from the k-th
   * on is `target`, so is `s` with the k-th handler's route plus the rest.
   */
  lemma SelectedStep(g: RouterGroup, mask: Mask, k: nat, h: Handler, s: seq<Registration>, target: seq<Registration>)
    requires k < |Order| && Order[k] == h
    requires s + Selected(g, mask, Order[k..]) == target
    ensures s + Added(g, mask, h) + Selected(g, mask, Order[k + 1..]) == target
  {
    assert Order[k..][1..] == Order[k + 1..];
  }

  lemma {:induction false} SelectedMembership(g: RouterGroup, mask: Mask, hs: seq<Handler>, e: Registration)
    ensures e in Selected(g, mask, hs) <==> e.handler in hs && Selects(mask, e.handler) && e == Entry(g, e.handler)
  {
    if hs != [] {
      SelectedMembership(g, mask, hs[1..], e);
      assert hs == [hs[0]] + hs[1..];
    }
  }

  /**
   * A handler's route is registered exactly when the mask has its bit, and
   * every registered route is the route of a selected handler.
   */
  lemma RegisteredIff(g: RouterGroup, mask: Mask)
    ensures forall h :: Entry(g, h) in Registrations(g, mask) <==> Selects(mask, h)
    ensures forall e :: e in Registrations(g, mask) ==> Selects(mask, e.handler) && e == Entry(g, e.handler)
  {
    forall h ensures Entry(g, h) in Registrations(g, mask) <==> Selects(mask, h) {
      SelectedMembership(g, mask, Order, Entry(g, h));
    }
    forall e | e in Registrations(g, mask) ensures Selects(mask, e.handler) && e == Entry(g, e.handler) {
      SelectedMembership(g, mask, Order, e);
    }
  }

  /** The constants are six distinct single bits and `RouteAll` is exactly their union. */
  lemma RouteConstants()
    ensures RouteAll == 63
    ensures forall h :: Bit(h) != 0 && Bit(h) & (Bit(h) - 1) == 0
    ensures forall h1, h2 :: h1 != h2 ==> Bit(h1) & Bit(h2) == 0
    ensures forall h :: Selects(RouteAll, h)
  {
  }

  /** With no mask or with several, all six routes are registered, in order. */
  lemma DefaultRegistersAll(g: RouterGroup, routes: seq<Mask>)
    requires |routes| != 1
    ensures Registrations(g, EffectiveMask(routes))
         == [Entry(g, New), Entry(g, List), Entry(g, Get), Entry(g, Update), Entry(g, Patch), Entry(g, Delete)]
  {
    RouteConstants();
    SelectedAll(g, RouteAll, Order);
  }

  lemma {:induction false} SelectedAll(g: RouterGroup, mask: Mask, hs: seq<Handler>)
    requires forall h :: Selects(mask, h)
    ensures Selected(g, mask, hs) == seq(|hs|, i requires 0 <= i < |hs| => Entry(g, hs[i]))
  {
    if hs != [] {
      SelectedAll(g, mask, hs[1..]);
    }
  }

  /** Selecting by the union of two masks is selecting by either. */
  lemma SelectsUnion(a: Mask, b: Mask, h: Handler)
    ensures Selects(a | b, h) <==> Selects(a, h) || Selects(b, h)
  {
    AndDistributes(a, b, Bit(h));
    OrNonZero(a & Bit(h), b & Bit(h));
  }

  lemma AndDistributes(a: Mask, b: Mask, k: Mask)
    ensures (a | b) & k == (a & k) | (b & k)
  {
  }

  lemma OrNonZero(x: Mask, y: Mask)
    ensures x | y != 0 <==> x != 0 || y != 0
  {
  }

  /** Combining two masks registers the routes of both, and no others. */
  lemma RegistrationsUnion(g: RouterGroup, a: Mask, b: Mask)
    ensures forall e :: e in Registrations(g, a | b) <==> e in Registrations(g, a) || e in Registrations(g, b)
  {
    forall e ensures e in Registrations(g, a | b) <==> e in Registrations(g, a) || e in Registrations(g, b) {
      SelectedMembership(g, a | b, Order, e);
      SelectedMembership(g, a, Order, e);
      SelectedMembership(g, b, Order, e);
      SelectsUnion(a, b, e.handler);
    }
  }

  lemma {:induction false} SelectedDistinct(g: RouterGroup, mask: Mask, hs: seq<Handler>)
    requires forall i, j :: 0 <= i < j < |hs| ==> hs[i] != hs[j]
    ensures forall i, j :: 0 <= i < j < |Selected(g, mask, hs)| ==> Selected(g, mask, hs)[i] != Selected(g, mask, hs)[j]
  {
    if hs != [] {
      var rest := Selected(g, mask, hs[1..]);
      SelectedDistinct(g, mask, hs[1..]);
      SelectedMembership(g, mask, hs[1..], Entry(g, hs[0]));
      assert hs[0] !in hs[1..];
    }
  }

  /** No route is registered twice. */
  lemma RegistrationsDistinct(g: RouterGroup, mask: Mask)
    ensures forall i, j :: 0 <= i < j < |Registrations(g, mask)| ==> Registrations(g, mask)[i] != Registrations(g, mask)[j]
  {
    SelectedDistinct(g, mask, Order);
  }

  /** The router's route table. */
  class Engine {
    var routes: seq<Registration>

    constructor ()
      ensures routes == []
    {
      routes := [];
    }

    /** `group.Handle(verb, path, handler)`: adds one route. */
    method Handle(g: RouterGroup, verb: Verb, path: string, h: Handler)
      modifies this
      ensures routes == old(routes) + [Registration(g, verb, path, h)]
    {
      routes := routes + [Registration(g, verb, path, h)];
    }
  }
}
