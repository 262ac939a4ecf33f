/**
 * The life of one article through the blueprint's handlers, as the
 * repository's API test drives it: create (a PreCreate hook assigns the
 * identifier), list, read, patch, replace, delete, and list again.
 */
module Walkthrough {
  import opened Wrappers
  import opened Store
  import opened Hooks
  import opened Ginm
  import opened Query

  const ArticleId: Id := "a1"

  /** The test's PreCreate hook: it gives the new article its identifier. */
  function AssignId(rec: Record): (r: HookResult)
    ensures r.rec.id == ArticleId && r.rec.fields == rec.fields && r.err == None
  {
    HookResult(Record(ArticleId, rec.fields), None)
  }

  const Article: Doc := map["title" := Str("title"), "content" := Str("content")]
  const TitleEdit: Doc := map["title" := Str("title2")]
  const Edited: Doc := map["title" := Str("title2"), "content" := Str("content")]

  /** The patch replaces the title and keeps the content. */
  lemma EditKeepsContent()
    ensures SetKeepsId(ArticleId, TitleEdit)
    ensures SetFields(Article, TitleEdit) == Edited
  {
    assert SetFields(Article, TitleEdit).Keys == Edited.Keys;
  }

  /**
   * The driver's answer to the test's unfiltered listing over `docs`, a
   * collection holding at most the one article.
   */
  function Listing(docs: map<Id, Doc>): (Filter, Option<string>) -> Option<seq<Record>>
  {
    (filter: Filter, sort: Option<string>) =>
      Some(if ArticleId in docs then [Record(ArticleId, docs[ArticleId])] else [])
  }

  /** The test's listing has no parameters: no filter, no paging, no sort. */
  lemma PlainListing(rows: seq<Record>)
    ensures Translate(map[]) == Ok(QuerySpec(map[], None, None, None))
    ensures Page(rows, None, None) == rows
  {
    MissingPagingIsUnbounded(map[]);
  }

  /** The test's record type implements PreCreate only. */
  const TestHooks: Hooks := NoHooks.(preCreate := Some(AssignId))

  /** Create, list and read: the article is stored and listed under its hook-assigned identifier. */
  method CreateListRead(bp: Blueprint, coll: Collection) returns (statuses: seq<int>, listed: Body)
    requires bp.hooks == TestHooks && coll.docs == map[]
    modifies coll
    ensures statuses == [StatusCreated, StatusOK, StatusOK]
    ensures listed == Many([Record(ArticleId, Article)])
    ensures coll.docs == map[ArticleId := Article]
  {
    var created, e1 := bp.New(coll, Some(Record("", Article)), "server-id");
    assert created.status == StatusCreated && coll.docs == map[ArticleId := Article];
    PlainListing([Record(ArticleId, Article)]);
    var first, q1 := bp.List(map[], Listing(coll.docs));
    var read, e2 := bp.Get(coll, ArticleId);
    statuses := [created.status, first.status, read.status];
    listed := first.body;
  }

  /** Patch the title, replace with an identifier-less body, delete: the collection ends empty. */
  method EditRemove(bp: Blueprint, coll: Collection) returns (statuses: seq<int>, patched: Response)
    requires bp.hooks == TestHooks && coll.docs == map[ArticleId := Article]
    modifies coll
    ensures statuses == [StatusCreated, StatusCreated, StatusNoContent]
    ensures patched == Response(StatusCreated, One(Record(ArticleId, Edited)))
    ensures coll.docs == map[]
  {
    EditKeepsContent();
    var e3;
    patched, e3 := bp.Patch(coll, ArticleId, Some(TitleEdit));
    assert coll.docs == map[ArticleId := Edited];
    var replaced, e4 := bp.Update(coll, ArticleId, Some(Record("", Article)));
    assert replaced.status == StatusCreated;
    var deleted, e5 := bp.Delete(coll, ArticleId);
    statuses := [patched.status, replaced.status, deleted.status];
  }

  /**
   * The test's seven requests on an empty collection, with a string
   * identifier: create, list, read, patch, replace with a body that carries
   * no identifier, delete, list. Patch and replace answer 201, and the final
   * listing is empty.
   */
  method ArticleLifecycle() returns (statuses: seq<int>, patched: Response, listed: seq<Body>)
    ensures statuses == [StatusCreated, StatusOK, StatusOK, StatusCreated, StatusCreated, StatusNoContent, StatusOK]
    ensures patched == Response(StatusCreated, One(Record(ArticleId, Edited)))
    ensures listed == [Many([Record(ArticleId, Article)]), Many([])]
  {
    var coll := new Collection();
    var bp := new Blueprint(Pointer(Named("Article")), "ginm_test", "article", TestHooks);
    var before, first := CreateListRead(bp, coll);
    var after;
    after, patched := EditRemove(bp, coll);
    PlainListing([]);
    var last, q := bp.List(map[], Listing(coll.docs));
    statuses := before + after + [last.status];
    listed := [first, last.body];
  }
}
