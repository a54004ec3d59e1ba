/** Workspaces of the Freshservice client: the workspace iteration. */
module FreshserviceWorkspaces {
  import opened Wrappers
  import opened Fresh
  import opened Paging

  /** IterWorkspaces over ListWorkspaces; ListWorkspacesOption is fresh.PageOption. */
  method IterWorkspaces<T>(c: Client, p: Pager<NoFields, T>, opt: ListOptions?<NoFields>, visit: T -> Option<Error>)
    returns (err: Option<Error>, used: ListOptions<NoFields>)
    requires p.Ends(visit) && p.normalize.None?
    modifies p, opt
    ensures p.Iterated(Endpoint(c, "/workspaces"), opt, NoFields, None, visit, err, used)
  {
    err, used := p.Iterate(Endpoint(c, "/workspaces"), opt, NoFields, None, visit);
  }
}
