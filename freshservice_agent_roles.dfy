/** Agent roles of the Freshservice client: the agent-role iteration. */
module FreshserviceAgentRoles {
  import opened Wrappers
  import opened Fresh
  import opened Paging

  /** IterAgentRoles over ListAgentRoles; ListAgentRolesOption is fresh.PageOption. */
  method IterAgentRoles<T>(c: Client, p: Pager<NoFields, T>, opt: ListOptions?<NoFields>, visit: T -> Option<Error>)
    returns (err: Option<Error>, used: ListOptions<NoFields>)
    requires p.Ends(visit) && p.normalize.None?
    modifies p, opt
    ensures p.Iterated(Endpoint(c, "/roles"), opt, NoFields, None, visit, err, used)
  {
    err, used := p.Iterate(Endpoint(c, "/roles"), opt, NoFields, None, visit);
  }
}
