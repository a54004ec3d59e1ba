/** Groups of the Freshdesk client: the group iteration. */
module FreshdeskGroups {
  import opened Wrappers
  import opened Fresh
  import opened Paging

  /** IterGroups over ListGroups; ListGroupsOption is fresh.PageOption. */
  method IterGroups<T>(c: Client, p: Pager<NoFields, T>, opt: ListOptions?<NoFields>, visit: T -> Option<Error>)
    returns (err: Option<Error>, used: ListOptions<NoFields>)
    requires p.Ends(visit) && p.normalize.None?
    modifies p, opt
    ensures p.Iterated(Endpoint(c, "/groups"), opt, NoFields, None, visit, err, used)
  {
    err, used := p.Iterate(Endpoint(c, "/groups"), opt, NoFields, None, visit);
  }
}
