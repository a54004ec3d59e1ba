/**
 * The page-iteration protocol every Iter* function of the Freshdesk and
 * Freshservice clients repeats: a nil option becomes a fresh zero option,
 * Page below 1 becomes 1 and PerPage below 1 becomes 100; then each page is
 * listed, its items are handed to the callback in order, the first list or
 * callback error ends the iteration, a page without a next page ends it
 * without error, and otherwise Page goes up by one.
 *
 * The server is a finite script of replies, one per list call, held by a
 * `Pager`; the pager logs every list call it receives and every item it
 * hands to the callback. The callback is a function from an item to an
 * optional error.
 */
module Paging {
  import opened Wrappers
  import Fresh

  /** A list option: the filter fields of its Go option type, then Page and PerPage. */
  class ListOptions<F> {
    var extra: F
    var page: int
    var perPage: int

    /** The zero value of the option type, with the given filter fields. */
    constructor (extra: F)
      ensures this.extra == extra && page == 0 && perPage == 0
    {
      this.extra := extra;
      page := 0;
      perPage := 0;
    }
  }

  /** The fields of an option as a value; QueryOf gives None for a nil option (IsNil). */
  datatype Query<F> = Query(extra: F, page: int, perPage: int)

  /** The filter fields of fresh.PageOption, which has none besides Page and PerPage. */
  datatype NoFields = NoFields

  function QueryOf<F>(o: ListOptions?<F>): (q: Option<Query<F>>)
    reads o
    ensures q.None? <==> o == null
  {
    if o == null then None else Some(Query(o.extra, o.page, o.perPage))
  }

  function PageOf<F>(o: ListOptions?<F>): int
    reads o
  {
    if o == null then 0 else o.page
  }

  function PerPageOf<F>(o: ListOptions?<F>): int
    reads o
  {
    if o == null then 0 else o.perPage
  }

  function ExtraOf<F>(o: ListOptions?<F>, zero: F): F
    reads o
  {
    if o == null then zero else o.extra
  }

  /** The Page and PerPage rule of the Iter functions: values below 1 take the default. */
  function Defaulted(v: int, default: int): int {
    if v < 1 then default else v
  }

  /** One list call the server received: its URL and its query, if any. */
  datatype Call<F> = Call(url: string, query: Option<Query<F>>)

  /** The server's reply to one list call: the decoded items, the next-page signal, the error. */
  datatype Reply<T> = Reply(items: seq<T>, next: bool, err: Option<Fresh.Error>)

  function MapSeq<T>(f: T -> T, s: seq<T>): (r: seq<T>)
    ensures |r| == |s| && forall i :: 0 <= i < |s| ==> r[i] == f(s[i])
  {
    if s == [] then [] else [f(s[0])] + MapSeq(f, s[1..])
  }

  /** The items a typed List function returns for a reply: normalized first when it normalizes. */
  function Listed<T>(normalize: Option<T -> T>, r: Reply<T>): seq<T> {
    if normalize.Some? then MapSeq(normalize.value, r.items) else r.items
  }

  /** The items of several replies, in order. */
  function AllItems<T>(normalize: Option<T -> T>, rs: seq<Reply<T>>): seq<T> {
    if rs == [] then [] else Listed(normalize, rs[0]) + AllItems(normalize, rs[1..])
  }

  // ---------------------------------------------------------------------
  // The specification of one page's callbacks and of a whole iteration

  datatype Visit<T> = Visit(seen: seq<T>, err: Option<Fresh.Error>)

  /**
   * The inner loop over one page: the items handed to the callback, in
   * order, up to and including the first one it refuses, and that error.
   */
  function VisitAll<T>(items: seq<T>, visit: T -> Option<Fresh.Error>): Visit<T> {
    if items == [] then Visit([], None)
    else if visit(items[0]).Some? then Visit([items[0]], visit(items[0]))
    else
      var rest := VisitAll(items[1..], visit);
      Visit([items[0]] + rest.seen, rest.err)
  }

  /**
   * The callback sees a prefix of the page: all of it, every item accepted,
   * when it returns no error; otherwise up to the item it refused, whose
   * error is the one returned.
   */
  lemma {:induction false} VisitAllShape<T>(items: seq<T>, visit: T -> Option<Fresh.Error>)
    ensures var v := VisitAll(items, visit);
      v.err.None? ==> v.seen == items && forall i :: 0 <= i < |items| ==> visit(items[i]).None?
    ensures var v := VisitAll(items, visit);
      v.err.Some? ==> 0 < |v.seen| <= |items| && v.seen == items[..|v.seen|] && v.err == visit(items[|v.seen| - 1])
    ensures var v := VisitAll(items, visit);
      forall i :: 0 <= i < |v.seen| - 1 ==> visit(items[i]).None?
  {
    if items != [] && visit(items[0]).None? {
      VisitAllShape(items[1..], visit);
    }
  }

  /**
   * The callbacks of a page are determined by the first item the callback
   * refuses: every item when it refuses none, otherwise the items up to and
   * including that one.
   */
  lemma {:induction false} VisitAllUpTo<T>(items: seq<T>, visit: T -> Option<Fresh.Error>, j: nat)
    requires j <= |items| && forall k :: 0 <= k < j ==> visit(items[k]).None?
    ensures j == |items| ==> VisitAll(items, visit) == Visit(items, None)
    ensures j < |items| && visit(items[j]).Some? ==> VisitAll(items, visit) == Visit(items[..j + 1], visit(items[j]))
  {
    if 0 < j {
      VisitAllUpTo(items[1..], visit, j - 1);
      if j < |items| {
        assert items[..j + 1] == [items[0]] + items[1..][..j];
      }
    }
  }

  /**
   * What an iteration does with the replies still to come: the items
   * visited, the error returned, the number of list calls, and whether it
   * ended within the replies given.
   */
  datatype Trace<T> = Trace(visited: seq<T>, err: Option<Fresh.Error>, pages: nat, ended: bool)

  function Walk<T>(replies: seq<Reply<T>>, normalize: Option<T -> T>, visit: T -> Option<Fresh.Error>): (w: Trace<T>)
    ensures w.pages <= |replies|
    ensures w.ended ==> 1 <= w.pages
  {
    if replies == [] then Trace([], None, 0, false)
    else
      var r := replies[0];
      if r.err.Some? then Trace([], r.err, 1, true)
      else
        var v := VisitAll(Listed(normalize, r), visit);
        if v.err.Some? || !r.next then Trace(v.seen, v.err, 1, true)
        else
          var w := Walk(replies[1..], normalize, visit);
          Trace(v.seen + w.visited, w.err, 1 + w.pages, w.ended)
  }

  /** The list calls of an iteration: Page goes up by one per call, and nothing else changes. */
  function PageCalls<F>(url: string, extra: F, first: int, perPage: int, n: nat): (cs: seq<Call<F>>)
    ensures |cs| == n
  {
    if n == 0 then [] else PageCalls(url, extra, first, perPage, n - 1) + [Call(url, Some(Query(extra, first + n - 1, perPage)))]
  }

  /** The i-th list call asks for page first + i, with the same URL, filter and PerPage as every other. */
  lemma {:induction false} PageCallsAt<F>(url: string, extra: F, first: int, perPage: int, n: nat, i: nat)
    requires i < n
    ensures PageCalls(url, extra, first, perPage, n)[i] == Call(url, Some(Query(extra, first + i, perPage)))
  {
    if i < n - 1 {
      PageCallsAt(url, extra, first, perPage, n - 1, i);
    }
  }

  /** Items reach the callback in page order, then in-page order, and every item before the last was accepted. */
  lemma {:induction false} WalkInOrder<T>(replies: seq<Reply<T>>, normalize: Option<T -> T>, visit: T -> Option<Fresh.Error>)
    ensures var w := Walk(replies, normalize, visit);
      w.visited <= AllItems(normalize, replies[..w.pages])
    ensures var w := Walk(replies, normalize, visit);
      forall i :: 0 <= i < |w.visited| - 1 ==> visit(w.visited[i]).None?
  {
    if replies != [] {
      var w := Walk(replies, normalize, visit);
      var r := replies[0];
      assert replies[..w.pages][0] == r;
      if r.err.None? {
        var v := VisitAll(Listed(normalize, r), visit);
        VisitAllShape(Listed(normalize, r), visit);
        if v.err.None? && r.next {
          var rest := Walk(replies[1..], normalize, visit);
          WalkInOrder(replies[1..], normalize, visit);
          assert replies[..w.pages][1..] == replies[1..][..rest.pages];
          assert v.seen == Listed(normalize, r);
          forall i | 0 <= i < |w.visited| - 1
            ensures visit(w.visited[i]).None?
          {
            if i >= |v.seen| {
              assert w.visited[i] == rest.visited[i - |v.seen|];
            }
          }
        } else {
          assert w.visited == v.seen <= Listed(normalize, r);
        }
      }
    }
  }

  /** Every page an iteration listed before its last one was listed without error and had a next page. */
  lemma {:induction false} WalkContinued<T>(replies: seq<Reply<T>>, normalize: Option<T -> T>, visit: T -> Option<Fresh.Error>)
    ensures var w := Walk(replies, normalize, visit);
      forall i :: 0 <= i < w.pages - 1 ==> replies[i].err.None? && replies[i].next
  {
    var w := Walk(replies, normalize, visit);
    if w.pages > 1 {
      var rest := Walk(replies[1..], normalize, visit);
      WalkContinued(replies[1..], normalize, visit);
      assert w.pages == 1 + rest.pages;
      forall i | 0 <= i < w.pages - 1
        ensures replies[i].err.None? && replies[i].next
      {
        if i > 0 {
          assert replies[i] == replies[1..][i - 1];
        }
      }
    }
  }

  /**
   * An iteration that ends without error has listed pages until the first
   * one without a next page, none of them failing, and has handed every
   * item of every page to the callback, in order.
   */
  lemma {:induction false} WalkSuccess<T>(replies: seq<Reply<T>>, normalize: Option<T -> T>, visit: T -> Option<Fresh.Error>)
    requires Walk(replies, normalize, visit).ended && Walk(replies, normalize, visit).err.None?
    ensures var w := Walk(replies, normalize, visit);
      && w.visited == AllItems(normalize, replies[..w.pages])
      && !replies[w.pages - 1].next
      && forall i :: 0 <= i < w.pages ==> replies[i].err.None?
    ensures var w := Walk(replies, normalize, visit);
      forall i :: 0 <= i < w.pages - 1 ==> replies[i].next
  {
    var w := Walk(replies, normalize, visit);
    WalkContinued(replies, normalize, visit);
    var r := replies[0];
    var v := VisitAll(Listed(normalize, r), visit);
    VisitAllShape(Listed(normalize, r), visit);
    if r.next {
      var rest := Walk(replies[1..], normalize, visit);
      WalkSuccess(replies[1..], normalize, visit);
      assert replies[..w.pages][1..] == replies[1..][..rest.pages];
      assert replies[w.pages - 1] == replies[1..][rest.pages - 1];
    }
  }

  /**
   * An iteration that returns an error stops at once: it is the error of the
   * last page listed, or the callback's error on the last item visited; every
   * earlier page was listed without error and had a next page.
   */
  lemma {:induction false} WalkFailure<T>(replies: seq<Reply<T>>, normalize: Option<T -> T>, visit: T -> Option<Fresh.Error>)
    requires Walk(replies, normalize, visit).err.Some?
    ensures var w := Walk(replies, normalize, visit);
      && w.ended
      && (|| w.err == replies[w.pages - 1].err
          || (replies[w.pages - 1].err.None? && |w.visited| > 0 && w.err == visit(w.visited[|w.visited| - 1])))
      && forall i :: 0 <= i < w.pages - 1 ==> replies[i].err.None? && replies[i].next
  {
    var w := Walk(replies, normalize, visit);
    WalkContinued(replies, normalize, visit);
    var r := replies[0];
    if r.err.None? {
      var v := VisitAll(Listed(normalize, r), visit);
      VisitAllShape(Listed(normalize, r), visit);
      if v.err.None? && r.next {
        var rest := Walk(replies[1..], normalize, visit);
        WalkFailure(replies[1..], normalize, visit);
        assert w.visited == v.seen + rest.visited && w.err == rest.err;
        assert replies[w.pages - 1] == replies[1..][rest.pages - 1];
        if rest.err != replies[1..][rest.pages - 1].err {
          assert w.visited[|w.visited| - 1] == rest.visited[|rest.visited| - 1];
        }
      }
    }
  }

  /** ListFolderArticles and SearchArticles of Freshservice: normalize every returned article in place. */
  method NormalizeEach<T>(a: array<T>, normalize: T -> T)
    modifies a
    ensures a[..] == MapSeq(normalize, old(a[..]))
  {
    var i := 0;
    while i < a.Length
      invariant 0 <= i <= a.Length
      invariant forall k :: 0 <= k < i ==> a[k] == normalize(old(a[k]))
      invariant forall k :: i <= k < a.Length ==> a[k] == old(a[k])
    {
      a[i] := normalize(a[i]);
      i := i + 1;
    }
  }

  // ---------------------------------------------------------------------
  // The scripted server and the iteration loop

  /** One more list call, after the calls made before the iteration. */
  lemma PageCallsNext<F>(before: seq<Call<F>>, url: string, extra: F, first: int, perPage: int, k: nat)
    ensures before + PageCalls(url, extra, first, perPage, k + 1)
         == before + PageCalls(url, extra, first, perPage, k) + [Call(url, Some(Query(extra, first + k, perPage)))]
  {
    var cs := PageCalls(url, extra, first, perPage, k);
    assert PageCalls(url, extra, first, perPage, k + 1) == cs + [Call(url, Some(Query(extra, first + k, perPage)))];
  }

  /**
   * One turn of the accounting an Iter loop keeps: a walk w0 of which k pages
   * are done, with `before` visited so far, is done after the next reply when
   * that reply fails, the callback refuses an item or there is no next page,
   * and otherwise goes on with one page more and that page's items visited.
   */
  lemma WalkTurn<T>(rest: seq<Reply<T>>, normalize: Option<T -> T>, visit: T -> Option<Fresh.Error>,
                    w0: Trace<T>, k: nat, visited0: seq<T>, before: seq<T>)
    requires Walk(rest, normalize, visit).ended
    requires w0.err == Walk(rest, normalize, visit).err && w0.pages == k + Walk(rest, normalize, visit).pages
    requires visited0 + w0.visited == before + Walk(rest, normalize, visit).visited
    ensures rest != []
    ensures var r := rest[0];
      r.err.Some? ==> w0.err == r.err && w0.pages == k + 1 && visited0 + w0.visited == before
    ensures var r := rest[0]; var v := VisitAll(Listed(normalize, r), visit);
      r.err.None? && (v.err.Some? || !r.next) ==>
        w0.err == v.err && w0.pages == k + 1 && visited0 + w0.visited == before + v.seen
    ensures var r := rest[0]; var v := VisitAll(Listed(normalize, r), visit);
      var w := Walk(rest[1..], normalize, visit);
      r.err.None? && v.err.None? && r.next ==>
        && w.ended && w0.err == w.err && w0.pages == (k + 1) + w.pages
        && visited0 + w0.visited == (before + v.seen) + w.visited
  {
    var r := rest[0];
    if r.err.None? {
      var v := VisitAll(Listed(normalize, r), visit);
      if v.err.None? && r.next {
        var w := Walk(rest[1..], normalize, visit);
        assert before + (v.seen + w.visited) == (before + v.seen) + w.visited;
      } else {
        assert before + Walk(rest, normalize, visit).visited == before + v.seen;
      }
    } else {
      assert before + Walk(rest, normalize, visit).visited == before + [];
    }
  }

  /** Where an Iter loop starts: the turns taken, the page, the list calls and callbacks so far, its whole walk and its filter. */
  datatype Origin<F, T> = Origin(start: nat, page: int, perPage: int, calls: seq<Call<F>>, visited: seq<T>, walk: Trace<T>, extra: F)

  class Pager<F, T> {
    /** The replies the server gives, one per list call, in order. */
    const script: seq<Reply<T>>
    /** The normalization the typed List function applies to each item, if any. */
    const normalize: Option<T -> T>
    /** How many replies have been given. */
    var served: nat
    /** Every list call received, in order. */
    var calls: seq<Call<F>>
    /** Every item handed to the callback, in order. */
    var visited: seq<T>

    ghost predicate Valid()
      reads this
    {
      served <= |script|
    }

    ghost function Remaining(): seq<Reply<T>>
      reads this
      requires Valid()
    {
      script[served..]
    }

    constructor (script: seq<Reply<T>>, normalize: Option<T -> T>)
      ensures Valid() && this.script == script && this.normalize == normalize
      ensures served == 0 && calls == [] && visited == []
    {
      this.script := script;
      this.normalize := normalize;
      served := 0;
      calls := [];
      visited := [];
    }

    /**
     * One typed List call (DoList with the option, then the normalize loop
     * where the Go function has one): the next reply, with its items as the
     * List function returns them, even alongside an error.
     */
    method List(url: string, opt: ListOptions?<F>) returns (items: seq<T>, next: bool, err: Option<Fresh.Error>)
      requires Valid() && served < |script|
      modifies `served, `calls
      ensures Valid() && served == old(served) + 1
      ensures calls == old(calls) + [Call(url, QueryOf(opt))]
      ensures items == Listed(normalize, script[old(served)])
      ensures next == script[old(served)].next && err == script[old(served)].err
    {
      var r := script[served];
      calls := calls + [Call(url, QueryOf(opt))];
      served := served + 1;
      items, next, err := r.items, r.next, r.err;
      if normalize.Some? {
        var a := new T[|items|](i requires 0 <= i < |items| => items[i]);
        NormalizeEach(a, normalize.value);
        items := a[..];
      }
    }

    /** The inner loop of an Iter function: hand the items to the callback until it refuses one. */
    method VisitPage(items: seq<T>, visit: T -> Option<Fresh.Error>) returns (err: Option<Fresh.Error>)
      modifies `visited
      ensures visited == old(visited) + VisitAll(items, visit).seen
      ensures err == VisitAll(items, visit).err
    {
      var i := 0;
      err := None;
      while i < |items| && err.None?
        invariant 0 <= i <= |items|
        invariant visited == old(visited) + items[..i]
        invariant forall k :: 0 <= k < i - 1 ==> visit(items[k]).None?
        invariant err.None? ==> 0 < i ==> visit(items[i - 1]).None?
        invariant err.Some? ==> 0 < i && err == visit(items[i - 1])
      {
        assert items[..i + 1] == items[..i] + [items[i]];
        err := visit(items[i]);
        visited := visited + [items[i]];
        i := i + 1;
      }
      if err.None? {
        assert items[..i] == items;
        VisitAllUpTo(items, visit, i);
      } else {
        VisitAllUpTo(items, visit, i - 1);
      }
    }

    /** ListCategoryFolders and ListFolderArticles of Freshservice write their id into the option before listing. */
    static method Pin(used: ListOptions<F>, pin: Option<F>)
      modifies used`extra
      ensures used.extra == if pin.Some? then pin.value else old(used.extra)
    {
      if pin.Some? {
        used.extra := pin.value;
      }
    }

    /**
     * Where an Iter loop stands after `served - o.start` turns, given where
     * it started: the option is on the page after the last one listed, every
     * turn asked for the next page with the same filter, and the walk of what
     * remains ends and, with what was visited so far, makes up the whole
     * walk of the loop.
     */
    ghost predicate Progress(url: string, pin: Option<F>, visit: T -> Option<Fresh.Error>, o: Origin<F, T>,
                             served: nat, page: int, perPage: int, extra: F, calls: seq<Call<F>>, visited: seq<T>)
    {
      && o.start <= served <= |script|
      && perPage == o.perPage && page == o.page + (served - o.start)
      && o.extra == (if pin.Some? then pin.value else extra)
      && calls == o.calls + PageCalls(url, o.extra, o.page, o.perPage, served - o.start)
      && var wr := Walk(script[served..], normalize, visit);
         && wr.ended && o.walk.err == wr.err && o.walk.pages == (served - o.start) + wr.pages
         && o.visited + o.walk.visited == visited + wr.visited
    }

    /**
     * One turn of an Iter loop: write the pinned filter, list the next page,
     * visit its items, and move to the next page when there is one and
     * nothing failed. The loop goes on from where the turn leaves it, or
     * the turn was the last and the whole walk is done.
     */
    method Step(url: string, used: ListOptions<F>, pin: Option<F>, visit: T -> Option<Fresh.Error>, ghost o: Origin<F, T>)
      returns (err: Option<Fresh.Error>, more: bool)
      requires Progress(url, pin, visit, o, served, used.page, used.perPage, used.extra, calls, visited)
      modifies `served, `calls, `visited, used
      ensures served == old(served) + 1 && Valid()
      ensures more ==> err.None? && Progress(url, pin, visit, o, served, used.page, used.perPage, used.extra, calls, visited)
      ensures !more ==>
        && err == o.walk.err && o.walk.pages == served - o.start && visited == o.visited + o.walk.visited
        && calls == o.calls + PageCalls(url, o.extra, o.page, o.perPage, served - o.start)
        && used.extra == o.extra && used.page == o.page + (served - o.start) - 1 && used.perPage == o.perPage
    {
      ghost var k := served - o.start;
      ghost var rest := script[served..];
      assert rest[0] == script[served] && rest[1..] == script[served + 1..];
      WalkTurn(rest, normalize, visit, o.walk, k, o.visited, visited);
      PageCallsNext(o.calls, url, o.extra, o.page, o.perPage, k);
      Pin(used, pin);
      assert QueryOf(used) == Some(Query(o.extra, o.page + k, o.perPage));
      ghost var before := visited;
      var items, next;
      items, next, err := List(url, used);
      assert calls == o.calls + PageCalls(url, o.extra, o.page, o.perPage, k + 1);
      assert script[served..] == rest[1..] && items == Listed(normalize, rest[0]);
      more := false;
      if err.None? {
        err := VisitPage(items, visit);
        assert visited == before + VisitAll(Listed(normalize, rest[0]), visit).seen;
        if err.None? && next {
          used.page := used.page + 1;
          more := true;
        }
      }
    }

    /** The loop of an Iter function, from an option whose defaults are applied. */
    method Loop(url: string, used: ListOptions<F>, pin: Option<F>, visit: T -> Option<Fresh.Error>)
      returns (err: Option<Fresh.Error>)
      requires Valid() && Walk(Remaining(), normalize, visit).ended
      modifies `served, `calls, `visited, used
      ensures Valid()
      ensures var w := Walk(old(Remaining()), normalize, visit);
        var extra := if pin.Some? then pin.value else old(used.extra);
        && err == w.err
        && served == old(served) + w.pages
        && visited == old(visited) + w.visited
        && calls == old(calls) + PageCalls(url, extra, old(used.page), old(used.perPage), w.pages)
        && used.extra == extra && used.page == old(used.page) + w.pages - 1 && used.perPage == old(used.perPage)
    {
      ghost var o := Origin(served, used.page, used.perPage, calls, visited, Walk(Remaining(), normalize, visit),
                            if pin.Some? then pin.value else used.extra);
      assert calls + PageCalls(url, o.extra, o.page, o.perPage, 0) == calls;
      while true
        invariant Progress(url, pin, visit, o, served, used.page, used.perPage, used.extra, calls, visited)
        decreases |script| - served
      {
        var more;
        err, more := Step(url, used, pin, visit, o);
        if !more {
          return;
        }
      }
    }

    /** The script holds a reply that ends an iteration with this callback. */
    ghost predicate Ends(visit: T -> Option<Fresh.Error>)
      reads this
    {
      Valid() && Walk(Remaining(), normalize, visit).ended
    }

    /**
     * What an Iter call did: the option it used (the caller's, or a fresh
     * one for nil) starts from the defaults; the error, the list calls and
     * the callbacks are those of the iteration's specification, and the
     * option is left on the last page listed.
     */
    twostate predicate Iterated(url: string, opt: ListOptions?<F>, zero: F, pin: Option<F>, visit: T -> Option<Fresh.Error>,
                                new err: Option<Fresh.Error>, new used: ListOptions<F>)
      requires old(Valid())
      reads this, opt, used
    {
      && Valid()
      && (opt != null ==> used == opt)
      && (opt == null ==> fresh(used))
      && var w := Walk(old(Remaining()), normalize, visit);
         var extra := if pin.Some? then pin.value else old(ExtraOf(opt, zero));
         var first := Defaulted(old(PageOf(opt)), 1);
         var perPage := Defaulted(old(PerPageOf(opt)), 100);
         && err == w.err
         && served == old(served) + w.pages
         && visited == old(visited) + w.visited
         && calls == old(calls) + PageCalls(url, extra, first, perPage, w.pages)
         && used.extra == extra && used.page == first + w.pages - 1 && used.perPage == perPage
    }

    /**
     * An Iter function. `zero` is the zero value of the option's filter
     * fields; `pin` is the filter the typed List function writes into the
     * option before every call (the category or folder id of Freshservice's
     * folder and article lists), or None.
     */
    method Iterate(url: string, opt: ListOptions?<F>, zero: F, pin: Option<F>, visit: T -> Option<Fresh.Error>)
      returns (err: Option<Fresh.Error>, used: ListOptions<F>)
      requires Ends(visit)
      modifies this, opt
      ensures Iterated(url, opt, zero, pin, visit, err, used)
    {
      if opt == null {
        used := new ListOptions(zero);
      } else {
        used := opt;
      }
      if used.page < 1 {
        used.page := 1;
      }
      if used.perPage < 1 {
        used.perPage := 100;
      }
      err := Loop(url, used, pin, visit);
    }
  }
}
