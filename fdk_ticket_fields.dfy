/**
 * Ticket fields of the Freshdesk type in the fdk package: the same URLs as
 * the Freshdesk client builds, stated with their read-back directly.
 */
module FdkTicketFields {
  import opened Wrappers
  import opened Text
  import opened Fresh
  import FreshdeskTicketFields

  /**
   * ListTicketFields' URL: the field list, whose query is there exactly
   * when types are given and then names them in order.
   */
  function ListTicketFieldsURL(c: Client, types: seq<string>): (url: string)
    ensures Endpoint(c, "/admin/ticket_fields") <= url
    ensures types == [] <==> url == Endpoint(c, "/admin/ticket_fields")
    ensures '?' !in c.domain && FreshdeskTicketFields.NoCommas(types) ==>
      && ('?' in url <==> types != [])
      && (types != [] ==>
            var q := IndexOf(url, '?');
            && url[..q] == Endpoint(c, "/admin/ticket_fields")
            && q + 6 <= |url| && url[q + 1..q + 6] == "type="
            && Split(url[q + 6..], ',') == types)
  {
    var url := FreshdeskTicketFields.WithList(Endpoint(c, "/admin/ticket_fields"), "type", types);
    if '?' !in c.domain && FreshdeskTicketFields.NoCommas(types) then
      FreshdeskTicketFields.ListTicketFieldsTypes(c, types);
      url
    else
      url
  }

  /** The URL of one ticket field (UpdateTicketField and DeleteTicketField). */
  function TicketFieldURL(c: Client, fid: Int64): (url: string)
    ensures |Endpoint(c, "/admin/ticket_fields/")| < |url| && url[..|Endpoint(c, "/admin/ticket_fields/")|] == Endpoint(c, "/admin/ticket_fields/")
    ensures ParseInt(url[|Endpoint(c, "/admin/ticket_fields/")|..]) == Some(fid)
  {
    FreshdeskTicketFields.TicketFieldURL(c, fid)
  }

  /**
   * GetTicketField's URL: the field's URL, whose query is there exactly
   * when something is included and then names the includes in order.
   */
  function GetTicketFieldURL(c: Client, fid: Int64, includes: seq<string>): (url: string)
    ensures TicketFieldURL(c, fid) <= url
    ensures includes == [] <==> url == TicketFieldURL(c, fid)
    ensures '?' !in c.domain && FreshdeskTicketFields.NoCommas(includes) ==>
      && ('?' in url <==> includes != [])
      && (includes != [] ==>
            var q := IndexOf(url, '?');
            && url[..q] == TicketFieldURL(c, fid)
            && q + 9 <= |url| && url[q + 1..q + 9] == "include="
            && Split(url[q + 9..], ',') == includes)
  {
    var url := FreshdeskTicketFields.WithList(TicketFieldURL(c, fid), "include", includes);
    if '?' !in c.domain && FreshdeskTicketFields.NoCommas(includes) then
      FreshdeskTicketFields.GetTicketFieldIncludes(c, fid, includes);
      url
    else
      url
  }
}
