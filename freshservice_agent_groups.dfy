/** Agent groups of the Freshservice client: the agent-group iteration. */
module FreshserviceAgentGroups {
  import opened Wrappers
  import opened Fresh
  import opened Paging

  /**
   * IterAgentGroups over ListAgentGroups. A nil option is replaced by a
   * zero ListAgentRolesOption, which is fresh.PageOption like
   * ListAgentGroupsOption, so the iteration is the usual one.
   */
  method IterAgentGroups<T>(c: Client, p: Pager<NoFields, T>, opt: ListOptions?<NoFields>, visit: T -> Option<Error>)
    returns (err: Option<Error>, used: ListOptions<NoFields>)
    requires p.Ends(visit) && p.normalize.None?
    modifies p, opt
    ensures p.Iterated(Endpoint(c, "/groups"), opt, NoFields, None, visit, err, used)
  {
    err, used := p.Iterate(Endpoint(c, "/groups"), opt, NoFields, None, visit);
  }
}
