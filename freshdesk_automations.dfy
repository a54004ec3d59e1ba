/** Automation rules of the Freshdesk client: their URLs and their iteration. */
module FreshdeskAutomations {
  import opened Wrappers
  import opened Text
  import opened Fresh
  import opened Paging

  /** The rules of one automation type (List, Iter and Create); the type is an integer. */
  function AutomationRulesURL(c: Client, automationType: int): string {
    Endpoint(c, IdPath("/automations/", automationType, "/rules"))
  }

  /** One rule of one automation type (Get, Delete and Update): the type's rules, then the rule id. */
  function AutomationRuleURL(c: Client, automationType: int, rid: Int64): (url: string)
    ensures url == AutomationRulesURL(c, automationType) + "/" + FormatInt(rid)
  {
    TranslatedPath(c, "/automations/", automationType, "/rules", FormatInt(rid));
    Endpoint(c, IdPath("/automations/", automationType, "/rules" + "/" + FormatInt(rid)))
  }

  /** A rule URL names exactly one automation type and one rule. */
  lemma AutomationRuleInjective(c: Client, t1: int, r1: Int64, t2: int, r2: Int64)
    requires AutomationRuleURL(c, t1, r1) == AutomationRuleURL(c, t2, r2)
    ensures t1 == t2 && r1 == r2
  {
    var x1, x2 := "/rules" + "/" + FormatInt(r1), "/rules" + "/" + FormatInt(r2);
    EndpointInjective(c, IdPath("/automations/", t1, x1), IdPath("/automations/", t2, x2));
    IdPathInjective("/automations/", t1, t2, x1, x2);
    assert FormatInt(r1) == x1[7..] && FormatInt(r2) == x2[7..];
    FormatIntInjective(r1, r2);
  }

  /** IterAutomationRules over ListAutomationRules; the option is fresh.PageOption. */
  method IterAutomationRules<T>(c: Client, automationType: int, p: Pager<NoFields, T>, opt: ListOptions?<NoFields>,
                                visit: T -> Option<Error>)
    returns (err: Option<Error>, used: ListOptions<NoFields>)
    requires p.Ends(visit) && p.normalize.None?
    modifies p, opt
    ensures p.Iterated(AutomationRulesURL(c, automationType), opt, NoFields, None, visit, err, used)
  {
    err, used := p.Iterate(AutomationRulesURL(c, automationType), opt, NoFields, None, visit);
  }
}
