/** Products of the Freshdesk client: the product iteration. */
module FreshdeskProducts {
  import opened Wrappers
  import opened Fresh
  import opened Paging

  /** IterProducts over ListProducts; ListProductsOption is fresh.PageOption. */
  method IterProducts<T>(c: Client, p: Pager<NoFields, T>, opt: ListOptions?<NoFields>, visit: T -> Option<Error>)
    returns (err: Option<Error>, used: ListOptions<NoFields>)
    requires p.Ends(visit) && p.normalize.None?
    modifies p, opt
    ensures p.Iterated(Endpoint(c, "/products"), opt, NoFields, None, visit, err, used)
  {
    err, used := p.Iterate(Endpoint(c, "/products"), opt, NoFields, None, visit);
  }
}
