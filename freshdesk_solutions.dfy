/**
 * Solutions of the Freshdesk client: the URLs of categories, folders and
 * articles and of their translations, the article search, and the eight
 * solution iterations. Every list option here is fresh.PageOption.
 */
module FreshdeskSolutions {
  import opened Wrappers
  import opened Text
  import opened Fresh
  import opened Paging

  // ---------------------------------------------------------------------
  // Paths

  /** The URL of one category (Get, Update and Delete). */
  function CategoryURL(c: Client, cid: Int64): string {
    Endpoint(c, IdPath("/solutions/categories/", cid, ""))
  }

  /** The URL of one category in one language (Create, Update and Get translated). */
  function CategoryTranslatedURL(c: Client, cid: Int64, lang: string): (url: string)
    ensures url == CategoryURL(c, cid) + "/" + lang
  {
    TranslatedPath(c, "/solutions/categories/", cid, "", lang);
    Endpoint(c, IdPath("/solutions/categories/", cid, "/" + lang))
  }

  function FolderURL(c: Client, fid: Int64): string {
    Endpoint(c, IdPath("/solutions/folders/", fid, ""))
  }

  function FolderTranslatedURL(c: Client, fid: Int64, lang: string): (url: string)
    ensures url == FolderURL(c, fid) + "/" + lang
  {
    TranslatedPath(c, "/solutions/folders/", fid, "", lang);
    Endpoint(c, IdPath("/solutions/folders/", fid, "/" + lang))
  }

  function ArticleURL(c: Client, aid: Int64): string {
    Endpoint(c, IdPath("/solutions/articles/", aid, ""))
  }

  function ArticleTranslatedURL(c: Client, aid: Int64, lang: string): (url: string)
    ensures url == ArticleURL(c, aid) + "/" + lang
  {
    TranslatedPath(c, "/solutions/articles/", aid, "", lang);
    Endpoint(c, IdPath("/solutions/articles/", aid, "/" + lang))
  }

  function CategoryFoldersURL(c: Client, cid: Int64): string {
    Endpoint(c, IdPath("/solutions/categories/", cid, "/folders"))
  }

  function CategoryFoldersTranslatedURL(c: Client, cid: Int64, lang: string): (url: string)
    ensures url == CategoryFoldersURL(c, cid) + "/" + lang
  {
    TranslatedPath(c, "/solutions/categories/", cid, "/folders", lang);
    Endpoint(c, IdPath("/solutions/categories/", cid, "/folders" + "/" + lang))
  }

  function SubFoldersURL(c: Client, fid: Int64): string {
    Endpoint(c, IdPath("/solutions/folders/", fid, "/subfolders"))
  }

  function SubFoldersTranslatedURL(c: Client, fid: Int64, lang: string): (url: string)
    ensures url == SubFoldersURL(c, fid) + "/" + lang
  {
    TranslatedPath(c, "/solutions/folders/", fid, "/subfolders", lang);
    Endpoint(c, IdPath("/solutions/folders/", fid, "/subfolders" + "/" + lang))
  }

  function FolderArticlesURL(c: Client, fid: Int64): string {
    Endpoint(c, IdPath("/solutions/folders/", fid, "/articles"))
  }

  /** ListFolderArticlesTranslated's URL as written: the segment is "farticles". */
  function FolderArticlesTranslatedURLAsWritten(c: Client, fid: Int64, lang: string): (url: string)
    ensures url == Endpoint(c, IdPath("/solutions/folders/", fid, "/farticles")) + "/" + lang
  {
    TranslatedPath(c, "/solutions/folders/", fid, "/farticles", lang);
    Endpoint(c, IdPath("/solutions/folders/", fid, "/farticles/" + lang))
  }

  /** The translated folder-article list as every other translated path is built. */
  function FolderArticlesTranslatedURL(c: Client, fid: Int64, lang: string): (url: string)
    ensures url == FolderArticlesURL(c, fid) + "/" + lang
  {
    TranslatedPath(c, "/solutions/folders/", fid, "/articles", lang);
    Endpoint(c, IdPath("/solutions/folders/", fid, "/articles" + "/" + lang))
  }

  /**
   * The URL as written is never the folder's article list followed by the
   * language, which is what every other translated list is.
   */
  lemma FolderArticlesSegmentFinding(c: Client, fid: Int64, lang: string)
    ensures FolderArticlesTranslatedURLAsWritten(c, fid, lang) != FolderArticlesTranslatedURL(c, fid, lang)
  {
    var prefix, id := "/solutions/folders/", FormatInt(fid);
    var written := IdPath(prefix, fid, "/farticles/" + lang);
    var intended := IdPath(prefix, fid, "/articles/" + lang);
    var k := 15 + |c.domain| + |prefix| + |id| + 1;
    assert written == prefix + id + "/farticles/" + lang;
    assert intended == prefix + id + "/articles/" + lang;
    assert Endpoint(c, written)[k] == 'f';
    assert Endpoint(c, intended)[k] == 'a';
  }

  /** ListCategoriesTranslated's URL as written: the domain, with no scheme. */
  function CategoriesTranslatedURLAsWritten(c: Client, lang: string): (url: string)
    ensures "https://" + url == Endpoint(c, "/solutions/categories/" + lang)
  {
    SchemeDropped(c.domain, lang);
    c.domain + "/api/v2/solutions/categories/" + lang
  }

  /** The translated category list on the endpoint, as every other translated path is built. */
  function CategoriesTranslatedURL(c: Client, lang: string): (url: string)
    ensures url == Endpoint(c, "/solutions/categories") + "/" + lang
  {
    Endpoint(c, "/solutions/categories/" + lang)
  }

  /** The text of the two category URLs, with the domain and the language left open. */
  lemma SchemeDropped(domain: string, lang: string)
    ensures "https://" + (domain + "/api/v2/solutions/categories/" + lang)
         == "https://" + domain + "/api/v2" + ("/solutions/categories/" + lang)
  {
    var tail := "/solutions/categories/" + lang;
    assert "/api/v2/solutions/categories/" + lang == "/api/v2" + tail;
    assert domain + "/api/v2/solutions/categories/" + lang == domain + ("/api/v2" + tail);
  }

  /**
   * The URL as written is the intended one without its "https://" scheme,
   * so it never equals it.
   */
  lemma CategoriesTranslatedSchemeFinding(c: Client, lang: string)
    ensures "https://" + CategoriesTranslatedURLAsWritten(c, lang) == CategoriesTranslatedURL(c, lang)
    ensures CategoriesTranslatedURLAsWritten(c, lang) != CategoriesTranslatedURL(c, lang)
  {
    SchemeDropped(c.domain, lang);
  }

  /** SearchArticles' URL: the escaped keyword is the search term. */
  function SearchArticlesURL(c: Client, keyword: string): (url: string)
    ensures CarriesParam(url, Endpoint(c, "/search/solutions?term="), keyword)
  {
    EscapedParam(c, "/search/solutions?term=", keyword);
    Endpoint(c, "/search/solutions?term=" + QueryEscape(keyword))
  }

  // ---------------------------------------------------------------------
  // The solution iterations

  /** IterCategories over ListCategories. */
  method IterCategories<T>(c: Client, p: Pager<NoFields, T>, opt: ListOptions?<NoFields>, visit: T -> Option<Error>)
    returns (err: Option<Error>, used: ListOptions<NoFields>)
    requires p.Ends(visit) && p.normalize.None?
    modifies p, opt
    ensures p.Iterated(Endpoint(c, "/solutions/categories"), opt, NoFields, None, visit, err, used)
  {
    err, used := p.Iterate(Endpoint(c, "/solutions/categories"), opt, NoFields, None, visit);
  }

  /** IterCategoriesTranslated over ListCategoriesTranslated, on the corrected URL. */
  method IterCategoriesTranslated<T>(c: Client, lang: string, p: Pager<NoFields, T>, opt: ListOptions?<NoFields>, visit: T -> Option<Error>)
    returns (err: Option<Error>, used: ListOptions<NoFields>)
    requires p.Ends(visit) && p.normalize.None?
    modifies p, opt
    ensures p.Iterated(CategoriesTranslatedURL(c, lang), opt, NoFields, None, visit, err, used)
  {
    err, used := p.Iterate(CategoriesTranslatedURL(c, lang), opt, NoFields, None, visit);
  }

  /** IterCategoryFolders over ListCategoryFolders. */
  method IterCategoryFolders<T>(c: Client, cid: Int64, p: Pager<NoFields, T>, opt: ListOptions?<NoFields>, visit: T -> Option<Error>)
    returns (err: Option<Error>, used: ListOptions<NoFields>)
    requires p.Ends(visit) && p.normalize.None?
    modifies p, opt
    ensures p.Iterated(CategoryFoldersURL(c, cid), opt, NoFields, None, visit, err, used)
  {
    err, used := p.Iterate(CategoryFoldersURL(c, cid), opt, NoFields, None, visit);
  }

  /** IterCategoryFoldersTranslated over ListCategoryFoldersTranslated. */
  method IterCategoryFoldersTranslated<T>(c: Client, cid: Int64, lang: string, p: Pager<NoFields, T>, opt: ListOptions?<NoFields>, visit: T -> Option<Error>)
    returns (err: Option<Error>, used: ListOptions<NoFields>)
    requires p.Ends(visit) && p.normalize.None?
    modifies p, opt
    ensures p.Iterated(CategoryFoldersTranslatedURL(c, cid, lang), opt, NoFields, None, visit, err, used)
  {
    err, used := p.Iterate(CategoryFoldersTranslatedURL(c, cid, lang), opt, NoFields, None, visit);
  }

  /** IterSubFolders over ListSubFolders. */
  method IterSubFolders<T>(c: Client, fid: Int64, p: Pager<NoFields, T>, opt: ListOptions?<NoFields>, visit: T -> Option<Error>)
    returns (err: Option<Error>, used: ListOptions<NoFields>)
    requires p.Ends(visit) && p.normalize.None?
    modifies p, opt
    ensures p.Iterated(SubFoldersURL(c, fid), opt, NoFields, None, visit, err, used)
  {
    err, used := p.Iterate(SubFoldersURL(c, fid), opt, NoFields, None, visit);
  }

  /** IterSubFoldersTranslated over ListSubFoldersTranslated. */
  method IterSubFoldersTranslated<T>(c: Client, fid: Int64, lang: string, p: Pager<NoFields, T>, opt: ListOptions?<NoFields>, visit: T -> Option<Error>)
    returns (err: Option<Error>, used: ListOptions<NoFields>)
    requires p.Ends(visit) && p.normalize.None?
    modifies p, opt
    ensures p.Iterated(SubFoldersTranslatedURL(c, fid, lang), opt, NoFields, None, visit, err, used)
  {
    err, used := p.Iterate(SubFoldersTranslatedURL(c, fid, lang), opt, NoFields, None, visit);
  }

  /** IterFolderArticles over ListFolderArticles. */
  method IterFolderArticles<T>(c: Client, fid: Int64, p: Pager<NoFields, T>, opt: ListOptions?<NoFields>, visit: T -> Option<Error>)
    returns (err: Option<Error>, used: ListOptions<NoFields>)
    requires p.Ends(visit) && p.normalize.None?
    modifies p, opt
    ensures p.Iterated(FolderArticlesURL(c, fid), opt, NoFields, None, visit, err, used)
  {
    err, used := p.Iterate(FolderArticlesURL(c, fid), opt, NoFields, None, visit);
  }

  /** IterFolderArticlesTranslated over ListFolderArticlesTranslated, on the corrected URL. */
  method IterFolderArticlesTranslated<T>(c: Client, fid: Int64, lang: string, p: Pager<NoFields, T>, opt: ListOptions?<NoFields>, visit: T -> Option<Error>)
    returns (err: Option<Error>, used: ListOptions<NoFields>)
    requires p.Ends(visit) && p.normalize.None?
    modifies p, opt
    ensures p.Iterated(FolderArticlesTranslatedURL(c, fid, lang), opt, NoFields, None, visit, err, used)
  {
    err, used := p.Iterate(FolderArticlesTranslatedURL(c, fid, lang), opt, NoFields, None, visit);
  }
}
