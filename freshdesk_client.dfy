/**
 * The Freshdesk client's own helpers: the filter option and its query, the
 * attachment URL, and the permalinks to the agent and customer portals.
 */
module FreshdeskClient {
  import opened Wrappers
  import opened Text
  import opened Fresh

  /** FilterOption: a filter query and a page, with no PerPage. */
  datatype FilterOption = FilterOption(query: string, page: int)

  /** FilterOption.Values: the query and the page, and nothing else. */
  function FilterValues(o: FilterOption): (vs: Values)
    ensures vs.Keys == {"query", "page"}
  {
    map[]["query" := Str(o.query)]["page" := Int(o.page)]
  }

  /** Reads a filter option back from its values. */
  function FilterFromValues(vs: Values): Option<FilterOption> {
    if vs.Keys == {"query", "page"} && StrAt(vs, "query").Some? && IntAt(vs, "page").Some?
    then Some(FilterOption(StrAt(vs, "query").value, IntAt(vs, "page").value))
    else None
  }

  /**
   * How doList sees a *FilterOption: IsNil only for a nil pointer, and
   * otherwise a query that reads back as the option and has no per_page.
   */
  function FilterListArg(o: Option<FilterOption>): (a: ListArg)
    ensures a.NilPointer? <==> o.None?
    ensures a.Given? <==> o.Some?
    ensures a.Given? ==> FilterFromValues(a.values) == o && "per_page" !in a.values
  {
    if o.None? then NilPointer else Given(FilterValues(o.value))
  }

  /** DeleteAttachment's URL: the attachment's id reads back from its end. */
  function DeleteAttachmentURL(c: Client, aid: Int64): (url: string)
    ensures |Endpoint(c, "/attachments/")| < |url| && url[..|Endpoint(c, "/attachments/")|] == Endpoint(c, "/attachments/")
    ensures ParseInt(url[|Endpoint(c, "/attachments/")|..]) == Some(aid)
  {
    var path := IdPath("/attachments/", aid, "");
    IdPathReadBack("/attachments/", aid, "");
    assert Endpoint(c, path) == Endpoint(c, "/attachments/") + path[13..];
    Endpoint(c, path)
  }

  // ---------------------------------------------------------------------
  // Permalinks

  function PortalPrefix(domain: string, section: string): string {
    "https://" + domain + section
  }

  /** GetAgentTicketURL: the ticket's page in the agent portal; the id reads back from its end. */
  function AgentTicketURL(domain: string, tid: Int64): (url: string)
    ensures var prefix := PortalPrefix(domain, "/a/tickets/");
      |prefix| < |url| && url[..|prefix|] == prefix && ParseInt(url[|prefix|..]) == Some(tid)
  {
    IdPathReadBack(PortalPrefix(domain, "/a/tickets/"), tid, "");
    IdPath(PortalPrefix(domain, "/a/tickets/"), tid, "")
  }

  /** GetSolutionArticleURL: the article's page in the customer portal. */
  function SolutionArticleURL(domain: string, aid: Int64): (url: string)
    ensures var prefix := PortalPrefix(domain, "/support/solutions/articles/");
      |prefix| < |url| && url[..|prefix|] == prefix && ParseInt(url[|prefix|..]) == Some(aid)
  {
    IdPathReadBack(PortalPrefix(domain, "/support/solutions/articles/"), aid, "");
    IdPath(PortalPrefix(domain, "/support/solutions/articles/"), aid, "")
  }

  /** GetHelpdeskAttachmentURL: an attachment or avatar in the help desk. */
  function HelpdeskAttachmentURL(domain: string, aid: Int64): (url: string)
    ensures var prefix := PortalPrefix(domain, "/helpdesk/attachments/");
      |prefix| < |url| && url[..|prefix|] == prefix && ParseInt(url[|prefix|..]) == Some(aid)
  {
    IdPathReadBack(PortalPrefix(domain, "/helpdesk/attachments/"), aid, "");
    IdPath(PortalPrefix(domain, "/helpdesk/attachments/"), aid, "")
  }

  /** The two characters after the domain tell the portal sections apart. */
  lemma SectionMarks(domain: string, t: Int64, a: Int64, b: Int64)
    ensures var k := 8 + |domain|;
      && k + 2 < |AgentTicketURL(domain, t)| && AgentTicketURL(domain, t)[k + 1] == 'a' && AgentTicketURL(domain, t)[k + 2] == '/'
      && k + 2 < |SolutionArticleURL(domain, a)| && SolutionArticleURL(domain, a)[k + 1] == 's'
      && k + 2 < |HelpdeskAttachmentURL(domain, b)| && HelpdeskAttachmentURL(domain, b)[k + 1] == 'h'
  {
    var k := 8 + |domain|;
    var p1, p2, p3 := PortalPrefix(domain, "/a/tickets/"), PortalPrefix(domain, "/support/solutions/articles/"), PortalPrefix(domain, "/helpdesk/attachments/");
    assert p1[k + 1] == 'a' && p1[k + 2] == '/';
    assert p2[k + 1] == 's';
    assert p3[k + 1] == 'h';
  }

  /** The three permalinks of one domain never coincide. */
  lemma PermalinksDistinct(domain: string, t: Int64, a: Int64, b: Int64)
    ensures AgentTicketURL(domain, t) != SolutionArticleURL(domain, a)
    ensures AgentTicketURL(domain, t) != HelpdeskAttachmentURL(domain, b)
    ensures SolutionArticleURL(domain, a) != HelpdeskAttachmentURL(domain, b)
  {
    SectionMarks(domain, t, a, b);
  }

  /** A portal link whose section does not start with "/ap" is no API endpoint. */
  lemma PortalOutsideAPI(c: Client, section: string, id: Int64, path: string)
    requires 3 <= |section| && (section[1] != 'a' || section[2] != 'p')
    ensures IdPath(PortalPrefix(c.domain, section), id, "") != Endpoint(c, path)
  {
    var k := 8 + |c.domain|;
    var prefix := PortalPrefix(c.domain, section);
    var u := IdPath(prefix, id, "");
    var e := Endpoint(c, path);
    assert prefix[k + 1] == section[1] && prefix[k + 2] == section[2];
    assert u[k + 1] == prefix[k + 1] && u[k + 2] == prefix[k + 2];
    assert e[k + 1] == e[k..k + 7][1] == 'a' && e[k + 2] == e[k..k + 7][2] == 'p';
  }

  /** No permalink is an API endpoint of a client on the same domain. */
  lemma PermalinksOutsideAPI(c: Client, t: Int64, a: Int64, b: Int64, path: string)
    ensures AgentTicketURL(c.domain, t) != Endpoint(c, path)
    ensures SolutionArticleURL(c.domain, a) != Endpoint(c, path)
    ensures HelpdeskAttachmentURL(c.domain, b) != Endpoint(c, path)
  {
    PortalOutsideAPI(c, "/a/tickets/", t, path);
    PortalOutsideAPI(c, "/support/solutions/articles/", a, path);
    PortalOutsideAPI(c, "/helpdesk/attachments/", b, path);
  }

  /** Freshdesk.GetAgentTicketURL: the free function on the client's domain. */
  function ClientAgentTicketURL(c: Client, tid: Int64): (url: string)
    ensures var prefix := "https://" + c.domain + "/a/tickets/";
      |prefix| < |url| && url[..|prefix|] == prefix && ParseInt(url[|prefix|..]) == Some(tid)
  {
    AgentTicketURL(c.domain, tid)
  }

  /** Freshdesk.GetSolutionArticleURL: the free function on the client's domain. */
  function ClientSolutionArticleURL(c: Client, aid: Int64): (url: string)
    ensures var prefix := "https://" + c.domain + "/support/solutions/articles/";
      |prefix| < |url| && url[..|prefix|] == prefix && ParseInt(url[|prefix|..]) == Some(aid)
  {
    SolutionArticleURL(c.domain, aid)
  }

  /** Freshdesk.GetHelpdeskAttachmentURL: the free function on the client's domain. */
  function ClientHelpdeskAttachmentURL(c: Client, aid: Int64): (url: string)
    ensures var prefix := "https://" + c.domain + "/helpdesk/attachments/";
      |prefix| < |url| && url[..|prefix|] == prefix && ParseInt(url[|prefix|..]) == Some(aid)
  {
    HelpdeskAttachmentURL(c.domain, aid)
  }
}
