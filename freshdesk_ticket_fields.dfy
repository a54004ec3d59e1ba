/**
 * Ticket fields of the Freshdesk client: the URL of the field list with its
 * optional type filter, and the URLs of one field with its optional
 * includes list.
 */
module FreshdeskTicketFields {
  import opened Wrappers
  import opened Text
  import opened Fresh

  /**
   * The optional list parameter of ListTicketFields and GetTicketField:
   * nothing when the list is empty, otherwise "?<name>=" and the items
   * joined by commas, unescaped and in order.
   */
  function WithList(url: string, name: string, list: seq<string>): (r: string)
    ensures url <= r
    ensures list == [] <==> r == url
  {
    if |list| > 0 then url + "?" + name + "=" + Join(list, ",") else url
  }

  /** No item of the list holds a comma, so the joined list can be split back. */
  predicate NoCommas(list: seq<string>) {
    forall k :: 0 <= k < |list| ==> ',' !in list[k]
  }

  /**
   * On a URL without a query, the list parameter is the whole query: it is
   * there exactly when the list is not empty, it is named `name`, and
   * splitting its value at the commas gives the list back when no item
   * holds a comma.
   */
  lemma WithListRoundTrip(url: string, name: string, list: seq<string>)
    requires '?' !in url
    requires NoCommas(list)
    ensures var r := WithList(url, name, list);
      && ('?' in r <==> list != [])
      && (list != [] ==>
            var q := IndexOf(r, '?');
            && q == |url| && r[..q] == url
            && q + |name| + 2 <= |r| && r[q + 1..q + |name| + 2] == name + "="
            && Split(r[q + |name| + 2..], ',') == list)
  {
    if list != [] {
      var tail := "?" + name + "=" + Join(list, ",");
      var r := url + tail;
      assert r == WithList(url, name, list);
      assert tail[0] == '?';
      IndexOfAppend(url, tail, '?');
      assert r[..|url|] == url;
      assert r[|url| + 1..|url| + |name| + 2] == name + "=";
      assert r[|url| + |name| + 2..] == Join(list, [',']);
      assert forall k :: 0 <= k < |list| ==> ',' !in list[k];
      SplitJoin(list, ',');
    }
  }

  /** The list of all ticket fields, and the target of CreateTicketField. */
  function TicketFieldsURL(c: Client): string {
    Endpoint(c, "/admin/ticket_fields")
  }

  /** ListTicketFields' URL: the field list, filtered by type when types are given. */
  function ListTicketFieldsURL(c: Client, types: seq<string>): (url: string)
    ensures TicketFieldsURL(c) <= url
    ensures types == [] <==> url == TicketFieldsURL(c)
  {
    WithList(TicketFieldsURL(c), "type", types)
  }

  /**
   * The type filter reads back: a query exactly when types are given, and
   * then "type=" with the types in order, provided no type holds a comma.
   */
  lemma ListTicketFieldsTypes(c: Client, types: seq<string>)
    requires '?' !in c.domain
    requires NoCommas(types)
    ensures var url := ListTicketFieldsURL(c, types);
      && ('?' in url <==> types != [])
      && (types != [] ==>
            var q := IndexOf(url, '?');
            && url[..q] == TicketFieldsURL(c)
            && q + 6 <= |url| && url[q + 1..q + 6] == "type="
            && Split(url[q + 6..], ',') == types)
  {
    NoQueryMark(c, "/admin/ticket_fields");
    WithListRoundTrip(TicketFieldsURL(c), "type", types);
    assert |"type"| + 2 == 6 && "type" + "=" == "type=";
  }

  /** The URL of one ticket field (UpdateTicketField and DeleteTicketField): its id reads back from the end. */
  function TicketFieldURL(c: Client, fid: Int64): (url: string)
    ensures |Endpoint(c, "/admin/ticket_fields/")| < |url| && url[..|Endpoint(c, "/admin/ticket_fields/")|] == Endpoint(c, "/admin/ticket_fields/")
    ensures ParseInt(url[|Endpoint(c, "/admin/ticket_fields/")|..]) == Some(fid)
  {
    var path := IdPath("/admin/ticket_fields/", fid, "");
    IdPathReadBack("/admin/ticket_fields/", fid, "");
    assert Endpoint(c, path) == Endpoint(c, "/admin/ticket_fields/") + path[21..];
    Endpoint(c, path)
  }

  /** Different fields have different URLs. */
  lemma TicketFieldInjective(c: Client, a: Int64, b: Int64)
    requires TicketFieldURL(c, a) == TicketFieldURL(c, b)
    ensures a == b
  {
    var n := |Endpoint(c, "/admin/ticket_fields/")|;
    assert TicketFieldURL(c, a)[n..] == TicketFieldURL(c, b)[n..];
  }

  /** A field's URL has no query of its own on a domain without one. */
  lemma TicketFieldNoQuery(c: Client, fid: Int64)
    requires '?' !in c.domain
    ensures '?' !in TicketFieldURL(c, fid)
  {
    IdPathChars("/admin/ticket_fields/", fid, "", '?');
    NoQueryMark(c, IdPath("/admin/ticket_fields/", fid, ""));
  }

  /** GetTicketField's URL: the field's URL, with the includes list when one is given. */
  function GetTicketFieldURL(c: Client, fid: Int64, includes: seq<string>): (url: string)
    ensures TicketFieldURL(c, fid) <= url
    ensures includes == [] <==> url == TicketFieldURL(c, fid)
  {
    WithList(TicketFieldURL(c, fid), "include", includes)
  }

  /**
   * The includes list reads back: a query exactly when something is
   * included, and then "include=" with the items in order, provided no item
   * holds a comma.
   */
  lemma GetTicketFieldIncludes(c: Client, fid: Int64, includes: seq<string>)
    requires '?' !in c.domain
    requires NoCommas(includes)
    ensures var url := GetTicketFieldURL(c, fid, includes);
      && ('?' in url <==> includes != [])
      && (includes != [] ==>
            var q := IndexOf(url, '?');
            && url[..q] == TicketFieldURL(c, fid)
            && q + 9 <= |url| && url[q + 1..q + 9] == "include="
            && Split(url[q + 9..], ',') == includes)
  {
    var base := TicketFieldURL(c, fid);
    TicketFieldNoQuery(c, fid);
    WithListRoundTrip(base, "include", includes);
    assert |"include"| + 2 == 9 && "include" + "=" == "include=";
    assert GetTicketFieldURL(c, fid, includes) == WithList(base, "include", includes);
  }
}
