/**
 * Solutions of the Freshservice client: the three list options and their
 * queries, the folder and article lists that write the category or folder
 * id into the caller's option, the article search, and the three solution
 * iterations.
 */
module FreshserviceSolutions {
  import opened Wrappers
  import opened Fresh
  import opened Paging

  // ---------------------------------------------------------------------
  // List options

  const FolderKeys: set<string> := {"category_id", "page", "per_page"}
  const ArticleKeys: set<string> := {"folder_id", "page", "per_page"}
  const SearchKeys: set<string> := {"search_term", "user_email", "page", "per_page"}

  /** ListFoldersOption.Values: the category id, the page and the page size. */
  function FoldersValues(q: Query<Int64>): (vs: Values)
    ensures vs.Keys == FolderKeys
  {
    map["category_id" := Int(q.extra)]["page" := Int(q.page)]["per_page" := Int(q.perPage)]
  }

  /** Reads a folder-list query back from its values. */
  function FoldersQuery(vs: Values): Option<Query<Int64>> {
    if vs.Keys == FolderKeys && Int64At(vs, "category_id").Some? && IntAt(vs, "page").Some? && IntAt(vs, "per_page").Some?
    then Some(Query(Int64At(vs, "category_id").value, IntAt(vs, "page").value, IntAt(vs, "per_page").value))
    else None
  }

  /** How doList sees a *ListFoldersOption: IsNil only for nil, otherwise every field reads back. */
  function FoldersListArg(o: ListOptions?<Int64>): (a: ListArg)
    reads o
    ensures a.NilPointer? <==> o == null
    ensures a.Given? <==> o != null
    ensures a.Given? ==> FoldersQuery(a.values) == QueryOf(o)
  {
    if o == null then NilPointer else Given(FoldersValues(Query(o.extra, o.page, o.perPage)))
  }

  /** ListArticlesOption.Values: the folder id, the page and the page size. */
  function ArticlesValues(q: Query<Int64>): (vs: Values)
    ensures vs.Keys == ArticleKeys
  {
    map["folder_id" := Int(q.extra)]["page" := Int(q.page)]["per_page" := Int(q.perPage)]
  }

  /** Reads an article-list query back from its values. */
  function ArticlesQuery(vs: Values): Option<Query<Int64>> {
    if vs.Keys == ArticleKeys && Int64At(vs, "folder_id").Some? && IntAt(vs, "page").Some? && IntAt(vs, "per_page").Some?
    then Some(Query(Int64At(vs, "folder_id").value, IntAt(vs, "page").value, IntAt(vs, "per_page").value))
    else None
  }

  /** How doList sees a *ListArticlesOption: IsNil only for nil, otherwise every field reads back. */
  function ArticlesListArg(o: ListOptions?<Int64>): (a: ListArg)
    reads o
    ensures a.NilPointer? <==> o == null
    ensures a.Given? <==> o != null
    ensures a.Given? ==> ArticlesQuery(a.values) == QueryOf(o)
  {
    if o == null then NilPointer else Given(ArticlesValues(Query(o.extra, o.page, o.perPage)))
  }

  /** The filter fields of SearchArticlesOption: the keywords, and whose articles to search. */
  datatype ArticleSearch = ArticleSearch(searchTerm: string, userEmail: string)

  /** SearchArticlesOption.Values: the search term, the user's email, the page and the page size. */
  function SearchValues(q: Query<ArticleSearch>): (vs: Values)
    ensures vs.Keys == SearchKeys
  {
    map["search_term" := Str(q.extra.searchTerm)]["user_email" := Str(q.extra.userEmail)]
       ["page" := Int(q.page)]["per_page" := Int(q.perPage)]
  }

  /** Reads a search query back from its values. */
  function SearchQuery(vs: Values): Option<Query<ArticleSearch>> {
    if && vs.Keys == SearchKeys && StrAt(vs, "search_term").Some? && StrAt(vs, "user_email").Some?
       && IntAt(vs, "page").Some? && IntAt(vs, "per_page").Some?
    then Some(Query(ArticleSearch(StrAt(vs, "search_term").value, StrAt(vs, "user_email").value),
                    IntAt(vs, "page").value, IntAt(vs, "per_page").value))
    else None
  }

  /** How doList sees a *SearchArticlesOption: IsNil only for nil, otherwise every field reads back. */
  function SearchListArg(o: ListOptions?<ArticleSearch>): (a: ListArg)
    reads o
    ensures a.NilPointer? <==> o == null
    ensures a.Given? <==> o != null
    ensures a.Given? ==> SearchQuery(a.values) == QueryOf(o)
  {
    if o == null then NilPointer else Given(SearchValues(Query(o.extra, o.page, o.perPage)))
  }

  // ---------------------------------------------------------------------
  // Lists

  function CategoriesURL(c: Client): string {
    Endpoint(c, "/solutions/categories")
  }

  function FoldersURL(c: Client): string {
    Endpoint(c, "/solutions/folders")
  }

  function ArticlesURL(c: Client): string {
    Endpoint(c, "/solutions/articles")
  }

  function SearchURL(c: Client): string {
    Endpoint(c, "/solutions/articles/search")
  }

  /**
   * ListCategoryFolders: a nil option becomes a fresh zero one, the
   * category id is written into it (the caller's option keeps it), and the
   * folder list is asked for with that id and the option's page.
   */
  method ListCategoryFolders<T>(c: Client, cid: Int64, p: Pager<Int64, T>, opt: ListOptions?<Int64>)
    returns (items: seq<T>, next: bool, err: Option<Error>, used: ListOptions<Int64>)
    requires p.Valid() && p.served < |p.script| && p.normalize.None?
    modifies p`served, p`calls, opt
    ensures opt != null ==> used == opt
    ensures opt == null ==> fresh(used)
    ensures used.extra == cid && used.page == old(PageOf(opt)) && used.perPage == old(PerPageOf(opt))
    ensures p.Valid() && p.served == old(p.served) + 1
    ensures p.calls == old(p.calls) + [Call(FoldersURL(c), Some(Query(cid, old(PageOf(opt)), old(PerPageOf(opt)))))]
    ensures items == p.script[old(p.served)].items
    ensures next == p.script[old(p.served)].next && err == p.script[old(p.served)].err
  {
    if opt == null {
      used := new ListOptions(0);
    } else {
      used := opt;
    }
    used.extra := cid;
    items, next, err := p.List(FoldersURL(c), used);
  }

  /**
   * ListFolderArticles: as ListCategoryFolders with the folder id, and
   * every article returned is normalized, even alongside an error.
   */
  method ListFolderArticles<T>(c: Client, fid: Int64, p: Pager<Int64, T>, opt: ListOptions?<Int64>)
    returns (items: seq<T>, next: bool, err: Option<Error>, used: ListOptions<Int64>)
    requires p.Valid() && p.served < |p.script| && p.normalize.Some?
    modifies p`served, p`calls, opt
    ensures opt != null ==> used == opt
    ensures opt == null ==> fresh(used)
    ensures used.extra == fid && used.page == old(PageOf(opt)) && used.perPage == old(PerPageOf(opt))
    ensures p.Valid() && p.served == old(p.served) + 1
    ensures p.calls == old(p.calls) + [Call(ArticlesURL(c), Some(Query(fid, old(PageOf(opt)), old(PerPageOf(opt)))))]
    ensures items == MapSeq(p.normalize.value, p.script[old(p.served)].items)
    ensures next == p.script[old(p.served)].next && err == p.script[old(p.served)].err
  {
    if opt == null {
      used := new ListOptions(0);
    } else {
      used := opt;
    }
    used.extra := fid;
    items, next, err := p.List(ArticlesURL(c), used);
  }

  /**
   * SearchArticles: one list call with the option as given (a nil option
   * sends no query), every article returned normalized, even alongside an
   * error.
   */
  method SearchArticles<T>(c: Client, p: Pager<ArticleSearch, T>, opt: ListOptions?<ArticleSearch>)
    returns (items: seq<T>, next: bool, err: Option<Error>)
    requires p.Valid() && p.served < |p.script| && p.normalize.Some?
    modifies p`served, p`calls
    ensures p.Valid() && p.served == old(p.served) + 1
    ensures p.calls == old(p.calls) + [Call(SearchURL(c), QueryOf(opt))]
    ensures items == MapSeq(p.normalize.value, p.script[old(p.served)].items)
    ensures next == p.script[old(p.served)].next && err == p.script[old(p.served)].err
  {
    items, next, err := p.List(SearchURL(c), opt);
  }

  // ---------------------------------------------------------------------
  // The solution iterations

  /** IterCategories over ListCategories. */
  method IterCategories<T>(c: Client, p: Pager<NoFields, T>, opt: ListOptions?<NoFields>, visit: T -> Option<Error>)
    returns (err: Option<Error>, used: ListOptions<NoFields>)
    requires p.Ends(visit) && p.normalize.None?
    modifies p, opt
    ensures p.Iterated(CategoriesURL(c), opt, NoFields, None, visit, err, used)
  {
    err, used := p.Iterate(CategoriesURL(c), opt, NoFields, None, visit);
  }

  /** IterCategoryFolders over ListCategoryFolders: every call carries the category id. */
  method IterCategoryFolders<T>(c: Client, cid: Int64, p: Pager<Int64, T>, opt: ListOptions?<Int64>, visit: T -> Option<Error>)
    returns (err: Option<Error>, used: ListOptions<Int64>)
    requires p.Ends(visit) && p.normalize.None?
    modifies p, opt
    ensures p.Iterated(FoldersURL(c), opt, 0, Some(cid), visit, err, used)
  {
    err, used := p.Iterate(FoldersURL(c), opt, 0, Some(cid), visit);
  }

  /** IterFolderArticles over ListFolderArticles: every call carries the folder id, every article is normalized. */
  method IterFolderArticles<T>(c: Client, fid: Int64, p: Pager<Int64, T>, opt: ListOptions?<Int64>, visit: T -> Option<Error>)
    returns (err: Option<Error>, used: ListOptions<Int64>)
    requires p.Ends(visit) && p.normalize.Some?
    modifies p, opt
    ensures p.Iterated(ArticlesURL(c), opt, 0, Some(fid), visit, err, used)
  {
    err, used := p.Iterate(ArticlesURL(c), opt, 0, Some(fid), visit);
  }
}
