/** Companies of the Freshdesk client: the company iteration and the company search. */
module FreshdeskCompanies {
  import opened Wrappers
  import opened Text
  import opened Fresh
  import opened Paging

  /** IterCompanies over ListCompanies; ListCompaniesOption is fresh.PageOption. */
  method IterCompanies<T>(c: Client, p: Pager<NoFields, T>, opt: ListOptions?<NoFields>, visit: T -> Option<Error>)
    returns (err: Option<Error>, used: ListOptions<NoFields>)
    requires p.Ends(visit) && p.normalize.None?
    modifies p, opt
    ensures p.Iterated(Endpoint(c, "/companies"), opt, NoFields, None, visit, err, used)
  {
    err, used := p.Iterate(Endpoint(c, "/companies"), opt, NoFields, None, visit);
  }

  /** SearchCompanies' URL: the escaped name is the autocomplete name. */
  function SearchCompaniesURL(c: Client, name: string): (url: string)
    ensures CarriesParam(url, Endpoint(c, "/companies/autocomplete?name="), name)
  {
    EscapedParam(c, "/companies/autocomplete?name=", name);
    Endpoint(c, "/companies/autocomplete?name=" + QueryEscape(name))
  }
}
