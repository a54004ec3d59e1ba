/**
 * The Freshservice client's own helpers: the filter option and its query,
 * the attachment URL, and the permalinks, which are built as Freshdesk's.
 */
module FreshserviceClient {
  import opened Wrappers
  import opened Text
  import opened Fresh
  import FreshdeskClient

  /** FilterOption: a filter query, a page and a page size. */
  datatype FilterOption = FilterOption(query: string, page: int, perPage: int)

  const FilterKeys: set<string> := {"query", "page", "per_page"}

  /** FilterOption.Values: the query, the page and the page size. */
  function FilterValues(o: FilterOption): (vs: Values)
    ensures vs.Keys == FilterKeys
  {
    map["query" := Str(o.query)]["page" := Int(o.page)]["per_page" := Int(o.perPage)]
  }

  /** Reads a filter option back from its values. */
  function FilterFromValues(vs: Values): Option<FilterOption> {
    if vs.Keys == FilterKeys && StrAt(vs, "query").Some? && IntAt(vs, "page").Some? && IntAt(vs, "per_page").Some?
    then Some(FilterOption(StrAt(vs, "query").value, IntAt(vs, "page").value, IntAt(vs, "per_page").value))
    else None
  }

  /** How doList sees a *FilterOption: IsNil only for a nil pointer, otherwise every field reads back. */
  function FilterListArg(o: Option<FilterOption>): (a: ListArg)
    ensures a.NilPointer? <==> o.None?
    ensures a.Given? <==> o.Some?
    ensures a.Given? ==> FilterFromValues(a.values) == o
  {
    if o.None? then NilPointer else Given(FilterValues(o.value))
  }

  /** The URL of Copy-, Read- and SaveAttachment: the attachment's id reads back from its end. */
  function AttachmentURL(c: Client, aid: Int64): (url: string)
    ensures |Endpoint(c, "/attachments/")| < |url| && url[..|Endpoint(c, "/attachments/")|] == Endpoint(c, "/attachments/")
    ensures ParseInt(url[|Endpoint(c, "/attachments/")|..]) == Some(aid)
  {
    var path := IdPath("/attachments/", aid, "");
    IdPathReadBack("/attachments/", aid, "");
    assert Endpoint(c, path) == Endpoint(c, "/attachments/") + path[13..];
    Endpoint(c, path)
  }

  /** Different attachments have different URLs. */
  lemma AttachmentInjective(c: Client, a: Int64, b: Int64)
    requires AttachmentURL(c, a) == AttachmentURL(c, b)
    ensures a == b
  {
    var n := |Endpoint(c, "/attachments/")|;
    assert AttachmentURL(c, a)[n..] == AttachmentURL(c, b)[n..];
  }

  // ---------------------------------------------------------------------
  // Permalinks

  /** GetAgentTicketURL: the ticket's page in the agent portal, the same link Freshdesk builds. */
  function AgentTicketURL(domain: string, tid: Int64): (url: string)
    ensures url == FreshdeskClient.AgentTicketURL(domain, tid)
    ensures var prefix := "https://" + domain + "/a/tickets/";
      |prefix| < |url| && url[..|prefix|] == prefix && ParseInt(url[|prefix|..]) == Some(tid)
  {
    IdPath("https://" + domain + "/a/tickets/", tid, "")
  }

  /** GetSolutionArticleURL: the article's page in the customer portal. */
  function SolutionArticleURL(domain: string, aid: Int64): (url: string)
    ensures url == FreshdeskClient.SolutionArticleURL(domain, aid)
    ensures var prefix := "https://" + domain + "/support/solutions/articles/";
      |prefix| < |url| && url[..|prefix|] == prefix && ParseInt(url[|prefix|..]) == Some(aid)
  {
    IdPath("https://" + domain + "/support/solutions/articles/", aid, "")
  }

  /** GetHelpdeskAttachmentURL: an attachment or avatar in the help desk. */
  function HelpdeskAttachmentURL(domain: string, aid: Int64): (url: string)
    ensures url == FreshdeskClient.HelpdeskAttachmentURL(domain, aid)
    ensures var prefix := "https://" + domain + "/helpdesk/attachments/";
      |prefix| < |url| && url[..|prefix|] == prefix && ParseInt(url[|prefix|..]) == Some(aid)
  {
    IdPath("https://" + domain + "/helpdesk/attachments/", aid, "")
  }

  /** The three permalinks of one domain never coincide, and none is an API endpoint. */
  lemma PermalinksDistinct(c: Client, t: Int64, a: Int64, b: Int64, path: string)
    ensures AgentTicketURL(c.domain, t) != SolutionArticleURL(c.domain, a)
    ensures AgentTicketURL(c.domain, t) != HelpdeskAttachmentURL(c.domain, b)
    ensures SolutionArticleURL(c.domain, a) != HelpdeskAttachmentURL(c.domain, b)
    ensures AgentTicketURL(c.domain, t) != Endpoint(c, path)
    ensures SolutionArticleURL(c.domain, a) != Endpoint(c, path)
    ensures HelpdeskAttachmentURL(c.domain, b) != Endpoint(c, path)
  {
    FreshdeskClient.PermalinksDistinct(c.domain, t, a, b);
    FreshdeskClient.PermalinksOutsideAPI(c, t, a, b, path);
  }

  /** Client.GetAgentTicketURL: the free function on the client's domain. */
  function ClientAgentTicketURL(c: Client, tid: Int64): (url: string)
    ensures var prefix := "https://" + c.domain + "/a/tickets/";
      |prefix| < |url| && url[..|prefix|] == prefix && ParseInt(url[|prefix|..]) == Some(tid)
  {
    AgentTicketURL(c.domain, tid)
  }

  /** Client.GetSolutionArticleURL: the free function on the client's domain. */
  function ClientSolutionArticleURL(c: Client, aid: Int64): (url: string)
    ensures var prefix := "https://" + c.domain + "/support/solutions/articles/";
      |prefix| < |url| && url[..|prefix|] == prefix && ParseInt(url[|prefix|..]) == Some(aid)
  {
    SolutionArticleURL(c.domain, aid)
  }

  /** Client.GetHelpdeskAttachmentURL: the free function on the client's domain. */
  function ClientHelpdeskAttachmentURL(c: Client, aid: Int64): (url: string)
    ensures var prefix := "https://" + c.domain + "/helpdesk/attachments/";
      |prefix| < |url| && url[..|prefix|] == prefix && ParseInt(url[|prefix|..]) == Some(aid)
  {
    HelpdeskAttachmentURL(c.domain, aid)
  }
}
