/**
 * The blueprint: a record type bound to one collection, its route
 * registration, and its six handlers. A handler's request context is replaced
 * by its inputs (the `:id` path parameter, the bound body or `None` when
 * binding fails, the query string) and its outputs (the response and the
 * ordered events it caused: hook calls and store calls).
 */
module Ginm {
  import opened Wrappers
  import opened Store
  import opened Hooks
  import opened Routing
  import opened Query

  /** A Go type as `reflect` sees it: a named type or a pointer to a type. */
  datatype GoType = Named(name: string) | Pointer(elem: GoType)

  /** `Type.Name()`: a pointer type has no name, so its name is "". */
  function TypeName(t: GoType): string
  {
    if t.Named? then t.name else ""
  }

  function LowerChar(c: char): (l: char)
    ensures 'A' <= c <= 'Z' ==> l as int == c as int - 'A' as int + 'a' as int
    ensures !('A' <= c <= 'Z') ==> l == c
  {
    if 'A' <= c <= 'Z' then (c as int - 'A' as int + 'a' as int) as char else c
  }

  /** `strings.ToLower` on ASCII letters; every other character is kept. */
  function Lower(s: string): (r: string)
    ensures |r| == |s|
    ensures forall i :: 0 <= i < |s| ==> r[i] == LowerChar(s[i])
  {
    if s == [] then [] else [LowerChar(s[0])] + Lower(s[1..])
  }

  const StatusOK := 200
  const StatusCreated := 201
  const StatusNoContent := 204
  const StatusBadRequest := 400
  const StatusNotFound := 404
  /** What gin's recovery middleware answers when a handler panics. */
  const StatusInternalServerError := 500

  datatype Body = Empty | One(rec: Record) | Many(recs: seq<Record>)

  datatype Response = Response(status: int, body: Body)

  /** A call into the store, with the identifier it concerns. */
  datatype StoreCall = FindOne(id: Id) | InsertOne(id: Id) | ReplaceOne(id: Id) | SetOne(id: Id) | RemoveOne(id: Id)

  datatype Event = Called(hook: HookName) | Stored(call: StoreCall)

  /** The event of running a hook, when the record type implements it. */
  function Ran(hook: Option<Hook>, name: HookName): seq<Event>
  {
    if hook.Some? then [Called(name)] else []
  }

  /** The instance after a hook ran on it, when the record type implements it. */
  function After(hook: Option<Hook>, rec: Record): Record
  {
    if hook.Some? then hook.value(rec).rec else rec
  }

  class Blueprint {
    const database: string
    const collection: string
    const t: GoType
    const hooks: Hooks
    var group: Option<RouterGroup>

    /** `NewBlueprint`: one level of pointer is looked through to the record type. */
    constructor (instance: GoType, database: string, collection: string, hooks: Hooks)
      ensures this.t == if instance.Pointer? then instance.elem else instance
      ensures this.database == database && this.collection == collection
      ensures this.hooks == hooks && this.group == None
    {
      this.t := if instance.Pointer? then instance.elem else instance;
      this.database := database;
      this.collection := collection;
      this.hooks := hooks;
      this.group := None;
    }

    /** The route-group name: the record type's name, lower-cased, then pluralised. */
    function GroupName(pluralize: string -> string): string
    {
      pluralize(Lower(TypeName(t)))
    }

    /** One test of `Routes`: registers the handler's route when its bit is set in `route`. */
    static method RegisterIf(engine: Engine, g: RouterGroup, route: Mask, h: Handler)
      modifies engine
      ensures engine.routes == old(engine.routes) + Added(g, route, h)
    {
      if route & Bit(h) != 0 {
        var e := Entry(g, h);
        engine.Handle(g, e.verb, e.path, h);
      }
    }

    /**
     * `Routes`: opens a group named after the record type under `router` and
     * registers the selected handlers in it. `pluralize` is the inflector.
     */
    method Routes(router: RouterGroup, engine: Engine, routes: seq<Mask>, pluralize: string -> string)
      modifies this, engine
      ensures group == Some(Group(router, GroupName(pluralize)))
      ensures engine.routes == old(engine.routes) + Registrations(group.value, EffectiveMask(routes))
    {
      var route := RouteAll;
      var name := GroupName(pluralize);
      var g := Group(router, name);
      if |routes| == 1 {
        route := routes[0];
      }
      RegisterIf(engine, g, route, Handler.New);
      RegisterIf(engine, g, route, Handler.List);
      RegisterIf(engine, g, route, Handler.Get);
      RegisterIf(engine, g, route, Handler.Update);
      RegisterIf(engine, g, route, Handler.Patch);
      RegisterIf(engine, g, route, Handler.Delete);
      group := Some(g);
      RegistrationsInSteps(g, route, old(engine.routes));
    }

    /**
     * `New`: binds the body, runs PreCreate, inserts, and on success runs
     * PostCreate and answers 201. Hook errors are ignored.
     */
    method New(coll: Collection, body: Option<Record>, serverId: Id) returns (resp: Response, events: seq<Event>)
      modifies coll
      ensures body.None? ==> resp == Response(StatusBadRequest, Empty) && events == [] && coll.docs == old(coll.docs)
      ensures body.Some? ==>
        var rec := After(hooks.preCreate, body.value);
        var id := InsertedId(rec, serverId);
        var inserted := id !in old(coll.docs);
        && events == Ran(hooks.preCreate, PreCreate) + [Stored(InsertOne(id))]
                     + (if inserted then Ran(hooks.postCreate, PostCreate) else [])
        && coll.docs == (if inserted then old(coll.docs)[id := rec.fields] else old(coll.docs))
        && resp == Response(if inserted then StatusCreated else StatusBadRequest, Empty)
    {
      if body.None? {
        resp, events := Response(StatusBadRequest, Empty), [];
        return;
      }
      var inst := body.value;
      events := [];
      if hooks.preCreate.Some? {
        var result := hooks.preCreate.value(inst);
        inst := result.rec;
        events := events + [Called(PreCreate)];
      }
      var ok, id := coll.Insert(inst, serverId);
      events := events + [Stored(InsertOne(id))];
      if !ok {
        resp := Response(StatusBadRequest, Empty);
        return;
      }
      if hooks.postCreate.Some? {
        var result := hooks.postCreate.value(inst);
        events := events + [Called(PostCreate)];
      }
      resp := Response(StatusCreated, Empty);
    }

    /**
     * `List`: builds the filter from the non-reserved query keys, reads the
     * paging and sort parameters, and answers 200 with the page of the
     * store's matches. `find` is the store: the matches of a filter in the
     * order of a sort directive, or `None` when the driver fails. `issued` is
     * the query that was run, `None` when the request stopped before. A sort
     * directive that names no field makes the driver's sort panic before the
     * query runs.
     */
    method List(query: QueryString, find: (Filter, Option<string>) -> Option<seq<Record>>)
      returns (resp: Response, issued: Option<QuerySpec>)
      ensures Translate(query).Err? ==> resp == Response(StatusBadRequest, Empty) && issued == None
      ensures Translate(query).Ok? ==>
        var spec := Translate(query).value;
        if spec.sort.Some? && SortPanics(spec.sort.value) then
          resp == Response(StatusInternalServerError, Empty) && issued == None
        else
          && issued == Some(spec)
          && resp == match find(spec.filter, spec.sort)
                     case None => Response(StatusBadRequest, Empty)
                     case Some(rows) => Response(StatusOK, Many(Page(rows, spec.skip, spec.limit)))
    {
      var queryM: Filter := map[];
      var keys := query.Keys;
      while keys != {}
        invariant keys <= query.Keys
        invariant queryM == map k | k in query.Keys - keys && !InArray(k, Reserved) :: query[k]
        decreases keys
      {
        var key :| key in keys;
        if !InArray(key, Reserved) {
          queryM := queryM[key := query[key]];
        }
        keys := keys - {key};
      }
      assert queryM == FilterOf(query);

      var limitString := DefaultQuery(query, LimitKey, "0");
      var limit := Strconv.Atoi(limitString);
      if limit.None? {
        resp, issued := Response(StatusBadRequest, Empty), None;
        return;
      }
      var offsetString := DefaultQuery(query, OffsetKey, "0");
      var offset := Strconv.Atoi(offsetString);
      if offset.None? {
        resp, issued := Response(StatusBadRequest, Empty), None;
        return;
      }
      var skip: Option<nat> := None;
      var cap: Option<nat> := None;
      if offset.value > 0 {
        skip := Some(offset.value);
      }
      if limit.value > 0 {
        cap := Some(limit.value);
      }
      var sort := DefaultQuery(query, SortKey, "");
      var order: Option<string> := None;
      if sort != "" {
        order := Some(sort);
        if SortPanics(sort) {
          resp, issued := Response(StatusInternalServerError, Empty), None;
          return;
        }
      }
      issued := Some(QuerySpec(queryM, skip, cap, order));
      var res := find(queryM, order);
      if res.None? {
        resp := Response(StatusBadRequest, Empty);
        return;
      }
      resp := Response(StatusOK, Many(Page(res.value, skip, cap)));
    }

    /** `Get`: 404 without an id, else the stored document, or 400 when the store has none. */
    method Get(coll: Collection, id: Id) returns (resp: Response, events: seq<Event>)
      ensures id == "" ==> resp == Response(StatusNotFound, Empty) && events == []
      ensures id != "" ==> events == [Stored(FindOne(id))]
      ensures id != "" && id in coll.docs ==> resp == Response(StatusOK, One(Record(id, coll.docs[id])))
      ensures id != "" && id !in coll.docs ==> resp == Response(StatusBadRequest, Empty)
    {
      if id == "" {
        resp, events := Response(StatusNotFound, Empty), [];
        return;
      }
      var found := coll.FindId(id);
      events := [Stored(FindOne(id))];
      if found.None? {
        resp := Response(StatusBadRequest, Empty);
        return;
      }
      resp := Response(StatusOK, One(Record(id, found.value)));
    }

    /**
     * `Update`: replaces the whole document with the bound body (after
     * PreUpdate), runs PostUpdate, re-reads the document and answers 201 with
     * it. A bind failure answers 404; a failed replacement 400.
     */
    method Update(coll: Collection, id: Id, body: Option<Record>) returns (resp: Response, events: seq<Event>)
      modifies coll
      ensures id == "" || body.None? ==>
        resp == Response(StatusNotFound, Empty) && events == [] && coll.docs == old(coll.docs)
      ensures id != "" && body.Some? ==>
        var rec := After(hooks.preUpdate, body.value);
        var replaced := id in old(coll.docs) && KeepsId(id, rec);
        && events == Ran(hooks.preUpdate, PreUpdate) + [Stored(ReplaceOne(id))]
                     + (if replaced then Ran(hooks.postUpdate, PostUpdate) + [Stored(FindOne(id))] else [])
        && coll.docs == (if replaced then old(coll.docs)[id := rec.fields] else old(coll.docs))
        && resp == (if replaced then Response(StatusCreated, One(Record(id, rec.fields))) else Response(StatusBadRequest, Empty))
    {
      if id == "" {
        resp, events := Response(StatusNotFound, Empty), [];
        return;
      }
      if body.None? {
        resp, events := Response(StatusNotFound, Empty), [];
        return;
      }
      var inst := body.value;
      events := [];
      if hooks.preUpdate.Some? {
        var result := hooks.preUpdate.value(inst);
        inst := result.rec;
        events := events + [Called(PreUpdate)];
      }
      var ok := coll.UpdateId(id, inst);
      events := events + [Stored(ReplaceOne(id))];
      if !ok {
        resp := Response(StatusBadRequest, Empty);
        return;
      }
      if hooks.postUpdate.Some? {
        var result := hooks.postUpdate.value(inst);
        events := events + [Called(PostUpdate)];
      }
      var found := coll.FindId(id);
      events := events + [Stored(FindOne(id))];
      if found.None? {
        resp := Response(StatusBadRequest, Empty);
        return;
      }
      resp := Response(StatusCreated, One(Record(id, found.value)));
    }

    /**
     * `Patch`: reads the document (404 when missing), binds the body as a
     * field map (400 on failure), runs PreUpdate on the stored instance,
     * `$set`s the body's fields, re-reads, runs PostUpdate on the new
     * instance and answers 201 with it.
     */
    method Patch(coll: Collection, id: Id, data: Option<Doc>) returns (resp: Response, events: seq<Event>)
      modifies coll
      ensures id == "" ==> resp == Response(StatusNotFound, Empty) && events == [] && coll.docs == old(coll.docs)
      ensures id != "" && id !in old(coll.docs) ==>
        resp == Response(StatusNotFound, Empty) && events == [Stored(FindOne(id))] && coll.docs == old(coll.docs)
      ensures id != "" && id in old(coll.docs) && data.None? ==>
        resp == Response(StatusBadRequest, Empty) && events == [Stored(FindOne(id))] && coll.docs == old(coll.docs)
      ensures id != "" && id in old(coll.docs) && data.Some? ==>
        var applied := SetKeepsId(id, data.value);
        var patched := SetFields(old(coll.docs)[id], data.value);
        && events == [Stored(FindOne(id))] + Ran(hooks.preUpdate, PreUpdate) + [Stored(SetOne(id))]
                     + (if applied then [Stored(FindOne(id))] + Ran(hooks.postUpdate, PostUpdate) else [])
        && coll.docs == (if applied then old(coll.docs)[id := patched] else old(coll.docs))
        && resp == (if applied then Response(StatusCreated, One(After(hooks.postUpdate, Record(id, patched))))
                    else Response(StatusBadRequest, Empty))
    {
      if id == "" {
        resp, events := Response(StatusNotFound, Empty), [];
        return;
      }
      var found := coll.FindId(id);
      events := [Stored(FindOne(id))];
      if found.None? {
        resp := Response(StatusNotFound, Empty);
        return;
      }
      var inst := Record(id, found.value);
      if data.None? {
        resp := Response(StatusBadRequest, Empty);
        return;
      }
      if hooks.preUpdate.Some? {
        var result := hooks.preUpdate.value(inst);
        events := events + [Called(PreUpdate)];
      }
      var ok := coll.SetId(id, data.value);
      events := events + [Stored(SetOne(id))];
      if !ok {
        resp := Response(StatusBadRequest, Empty);
        return;
      }
      found := coll.FindId(id);
      events := events + [Stored(FindOne(id))];
      if found.None? {
        resp := Response(StatusBadRequest, Empty);
        return;
      }
      inst := Record(id, found.value);
      if hooks.postUpdate.Some? {
        var result := hooks.postUpdate.value(inst);
        inst := result.rec;
        events := events + [Called(PostUpdate)];
      }
      resp := Response(StatusCreated, One(inst));
    }

    /** `Delete`: removes the document and answers 204, or 400 when the store has none. No hooks run. */
    method Delete(coll: Collection, id: Id) returns (resp: Response, events: seq<Event>)
      modifies coll
      ensures id == "" ==> resp == Response(StatusNotFound, Empty) && events == [] && coll.docs == old(coll.docs)
      ensures id != "" ==>
        && events == [Stored(RemoveOne(id))]
        && coll.docs == old(coll.docs) - {id}
        && resp == Response(if id in old(coll.docs) then StatusNoContent else StatusBadRequest, Empty)
    {
      if id == "" {
        resp, events := Response(StatusNotFound, Empty), [];
        return;
      }
      var ok := coll.RemoveId(id);
      events := [Stored(RemoveOne(id))];
      if !ok {
        resp := Response(StatusBadRequest, Empty);
        return;
      }
      resp := Response(StatusNoContent, Empty);
    }
  }
}
