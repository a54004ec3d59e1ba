/**
 * Contacts of the Freshdesk client: the list option and its query, the
 * contact iteration, and the URLs and bodies of the contact calls.
 */
module FreshdeskContacts {
  import opened Wrappers
  import opened Text
  import FreshTime
  import opened Fresh
  import opened Paging

  /** The filter fields of ListContactsOption (State is one of blocked, deleted, unverified, verified). */
  datatype ContactFilter = ContactFilter(
    email: string,
    mobile: string,
    phone: string,
    uniqueExternalID: string,
    companyID: Int64,
    updatedSince: FreshTime.Time,
    state: string)

  /** The filter fields of a zero ListContactsOption. */
  const NoContactFilter := ContactFilter("", "", "", "", 0, FreshTime.ZeroTime, "")

  const ContactKeys: set<string> :=
    {"email", "mobile", "phone", "unique_external_id", "company_id", "state", "updated_since", "page", "per_page"}

  /** ListContactsOption.Values: one Set call per field, in the order the Go method makes them. */
  function ContactValues(q: Query<ContactFilter>): (vs: Values)
    ensures vs.Keys == ContactKeys
  {
    var f := q.extra;
    map[]
      ["email" := Str(f.email)]
      ["mobile" := Str(f.mobile)]
      ["phone" := Str(f.phone)]
      ["unique_external_id" := Str(f.uniqueExternalID)]
      ["company_id" := Int(f.companyID)]
      ["state" := Str(f.state)]
      ["updated_since" := Moment(f.updatedSince)]
      ["page" := Int(q.page)]
      ["per_page" := Int(q.perPage)]
  }

  /** Reads a contact query back from its values: the server's side of ContactValues. */
  function ContactQuery(vs: Values): Option<Query<ContactFilter>> {
    if && vs.Keys == ContactKeys
       && StrAt(vs, "email").Some? && StrAt(vs, "mobile").Some? && StrAt(vs, "phone").Some?
       && StrAt(vs, "unique_external_id").Some? && Int64At(vs, "company_id").Some? && StrAt(vs, "state").Some?
       && vs["updated_since"].Moment? && IntAt(vs, "page").Some? && IntAt(vs, "per_page").Some?
    then
      var f := ContactFilter(StrAt(vs, "email").value, StrAt(vs, "mobile").value, StrAt(vs, "phone").value,
                             StrAt(vs, "unique_external_id").value, Int64At(vs, "company_id").value,
                             vs["updated_since"].t, StrAt(vs, "state").value);
      Some(Query(f, IntAt(vs, "page").value, IntAt(vs, "per_page").value))
    else None
  }

  /**
   * How doList sees a *ListContactsOption: IsNil holds only for a nil
   * pointer, and otherwise the query sent reads back as every field of the
   * option.
   */
  function ContactsListArg(o: ListOptions?<ContactFilter>): (a: ListArg)
    reads o
    ensures a.NilPointer? <==> o == null
    ensures a.Given? <==> o != null
    ensures a.Given? ==> ContactQuery(a.values) == QueryOf(o)
  {
    if o == null then NilPointer else Given(ContactValues(Query(o.extra, o.page, o.perPage)))
  }

  function ContactsURL(c: Client): string {
    Endpoint(c, "/contacts")
  }

  /** IterContacts: the page-iteration protocol over ListContacts. */
  method IterContacts<T>(c: Client, p: Pager<ContactFilter, T>, opt: ListOptions?<ContactFilter>, visit: T -> Option<Error>)
    returns (err: Option<Error>, used: ListOptions<ContactFilter>)
    requires p.Ends(visit) && p.normalize.None?
    modifies p, opt
    ensures p.Iterated(ContactsURL(c), opt, NoContactFilter, None, visit, err, used)
  {
    err, used := p.Iterate(ContactsURL(c), opt, NoContactFilter, None, visit);
  }

  /** HardDeleteContact's URL: the contact's hard_delete path, with "?force=true" only when asked. */
  function HardDeleteContactURL(c: Client, cid: Int64, force: seq<bool>): (url: string)
    ensures Endpoint(c, IdPath("/contacts/", cid, "/hard_delete")) <= url
  {
    var url := Endpoint(c, IdPath("/contacts/", cid, "/hard_delete"));
    if |force| > 0 && force[0] then url + "?force=true" else url
  }

  /**
   * The URL has a query exactly when a first force argument is given and
   * is true, and that query is force=true; without it the URL is the plain
   * hard_delete path.
   */
  lemma HardDeleteForce(c: Client, cid: Int64, force: seq<bool>)
    requires '?' !in c.domain
    ensures var url := HardDeleteContactURL(c, cid, force);
      && ('?' in url <==> |force| > 0 && force[0])
      && ('?' in url ==> url[IndexOf(url, '?')..] == "?force=true")
  {
    var path := IdPath("/contacts/", cid, "/hard_delete");
    IdPathChars("/contacts/", cid, "/hard_delete", '?');
    NoQueryMark(c, path);
    var base := Endpoint(c, path);
    if |force| > 0 && force[0] {
      IndexOfAppend(base, "?force=true", '?');
      assert (base + "?force=true")[|base|..] == "?force=true";
    }
  }

  /** The contact id reads back from the hard_delete URL, right after the contacts endpoint. */
  lemma HardDeleteIdReadBack(c: Client, cid: Int64, force: seq<bool>)
    ensures var url, base := HardDeleteContactURL(c, cid, force), Endpoint(c, "/contacts/");
      var n := |base| + |FormatInt(cid)|;
      n <= |url| && url[..|base|] == base && ParseInt(url[|base|..n]) == Some(cid)
  {
    var base, id := Endpoint(c, "/contacts/"), FormatInt(cid);
    assert Endpoint(c, IdPath("/contacts/", cid, "/hard_delete")) == base + id + "/hard_delete" by {
      assert Base(c) + ("/contacts/" + (id + "/hard_delete")) == (Base(c) + "/contacts/") + id + "/hard_delete";
    }
    PrefixParts(base, id, "/hard_delete", HardDeleteContactURL(c, cid, force));
  }

  /** The first two pieces of a prefix of a text sit at the text's start. */
  lemma PrefixParts(x: string, y: string, z: string, text: string)
    requires x + y + z <= text
    ensures |x| + |y| <= |text| && text[..|x|] == x && text[|x|..|x| + |y|] == y
  {
    assert text[..|x|] == (x + y + z)[..|x|];
    assert text[|x|..|x| + |y|] == (x + y + z)[|x|..|x| + |y|];
  }

  /** Different contacts have different hard_delete URLs. */
  lemma HardDeleteContactInjective(c: Client, a: Int64, b: Int64, force: seq<bool>)
    requires HardDeleteContactURL(c, a, force) == HardDeleteContactURL(c, b, force)
    ensures a == b
  {
    var pa, pb := IdPath("/contacts/", a, "/hard_delete"), IdPath("/contacts/", b, "/hard_delete");
    assert |Endpoint(c, pa)| == |Endpoint(c, pb)|;
    assert Endpoint(c, pa) == HardDeleteContactURL(c, a, force)[..|Endpoint(c, pa)|];
    EndpointInjective(c, pa, pb);
    IdPathInjective("/contacts/", a, b, "/hard_delete", "/hard_delete");
  }

  /** SearchContacts' URL: the escaped keyword is the autocomplete term. */
  function SearchContactsURL(c: Client, keyword: string): (url: string)
    ensures CarriesParam(url, Endpoint(c, "/contacts/autocomplete?term="), keyword)
  {
    EscapedParam(c, "/contacts/autocomplete?term=", keyword);
    Endpoint(c, "/contacts/autocomplete?term=" + QueryEscape(keyword))
  }

  /** RestoreContact: a PUT of the contact's restore path, with no body and no result. */
  function RestoreContact(c: Client, cid: Int64): (s: Submission)
    ensures s.verb == "PUT" && !s.wantResult && Bodiless(s)
  {
    Submission("PUT", Endpoint(c, IdPath("/contacts/", cid, "/restore")), NilPayload, false)
  }

  /** InviteContact: a PUT of the contact's send_invite path, with no body and no result. */
  function InviteContact(c: Client, cid: Int64): (s: Submission)
    ensures s.verb == "PUT" && !s.wantResult && Bodiless(s)
  {
    Submission("PUT", Endpoint(c, IdPath("/contacts/", cid, "/send_invite")), NilPayload, false)
  }

  /** Restoring and inviting address one contact each, and never the same URL. */
  lemma ContactActionsDistinct(c: Client, a: Int64, b: Int64)
    ensures RestoreContact(c, a).url != InviteContact(c, b).url
    ensures RestoreContact(c, a).url == RestoreContact(c, b).url ==> a == b
    ensures InviteContact(c, a).url == InviteContact(c, b).url ==> a == b
  {
    var r, i := IdPath("/contacts/", a, "/restore"), IdPath("/contacts/", b, "/send_invite");
    assert r[|r| - 2] == "/restore"[6] == 'r';
    assert i[|i| - 2] == "/send_invite"[10] == 't';
    assert Endpoint(c, r)[15 + |c.domain|..] != Endpoint(c, i)[15 + |c.domain|..];
    if RestoreContact(c, a).url == RestoreContact(c, b).url {
      EndpointInjective(c, r, IdPath("/contacts/", b, "/restore"));
      IdPathInjective("/contacts/", a, b, "/restore", "/restore");
    }
    if InviteContact(c, a).url == InviteContact(c, b).url {
      EndpointInjective(c, IdPath("/contacts/", a, "/send_invite"), i);
      IdPathInjective("/contacts/", a, b, "/send_invite", "/send_invite");
    }
  }

  /**
   * MergeContacts as written: a POST of "/contacts/merge" with a nil body,
   * whatever merge the caller asks for. `merge` is json.Marshal's outcome
   * on the ContactsMerge argument.
   */
  function MergeContactsAsWritten(c: Client, merge: Result<seq<byte>, string>): (s: Submission)
    ensures s.verb == "POST" && Bodiless(s) && !s.wantResult && s.url == Endpoint(c, "/contacts/merge")
  {
    Submission("POST", Endpoint(c, "/contacts/merge"), NilPayload, false)
  }

  /** Two different merges give the same request: the argument never reaches the server. */
  lemma MergeArgumentIgnored(c: Client)
    ensures MergeContactsAsWritten(c, Ok([1])) == MergeContactsAsWritten(c, Ok([2]))
  {
  }

  /** MergeContacts as intended: the merge is the JSON body of the POST. */
  function MergeContacts(c: Client, merge: Result<seq<byte>, string>): (s: Submission)
    ensures s.verb == "POST" && s.url == MergeContactsAsWritten(c, merge).url
    ensures forall boundary, disk :: RequestBody(s.payload, boundary, disk) == BuildJSON(merge)
  {
    Submission("POST", Endpoint(c, "/contacts/merge"), Payload(None, None, merge), false)
  }

  /** Different merges send different bodies, and a merge that cannot be marshalled sends nothing. */
  lemma MergeSendsArgument(c: Client, m1: seq<byte>, m2: seq<byte>, boundary: string, disk: map<string, seq<byte>>)
    requires m1 != m2
    ensures RequestBody(MergeContacts(c, Ok(m1)).payload, boundary, disk).body
         != RequestBody(MergeContacts(c, Ok(m2)).payload, boundary, disk).body
  {
  }
}
