/**
 * `GitHubAPI._make_paginated_request`: a generator that follows `Link: next` headers.
 * The server is a finite script of responses answering the requests in the order they are
 * sent. A `Pager` object is the suspended generator: each `Next` call runs the loop body up
 * to the following `yield` or to the end of the loop.
 */
module Paginator {
  import opened Common
  import opened Records

  /** One HTTP response: status code, JSON list, and `links['next']['url']` ("" when absent). */
  datatype Response = Response(status: int, body: seq<Record>, next: string)

  datatype Request = Request(url: string, params: seq<Param>)

  /** A response that ends the loop instead of yielding: a failure status or an empty list. */
  predicate Stops(r: Response) { r.status != 200 || r.body == [] }

  /**
   * The pages yielded when the request for `url` is answered by `script[pos]`, the following
   * one by `script[pos + 1]`, and so on. A falsy `url` ends the loop; so does running out of
   * script, which the model uses as the end of the server's answers.
   */
  function Pages(script: seq<Response>, pos: nat, url: string, params: seq<Param>): seq<seq<Record>>
    decreases |script| - pos
  {
    if url == "" || pos >= |script| then []
    else if Stops(script[pos]) then []
    else [script[pos].body] + Pages(script, pos + 1, script[pos].next, [])
  }

  /** The requests sent while yielding every page of `Pages(script, pos, url, params)`. */
  function Requests(script: seq<Response>, pos: nat, url: string, params: seq<Param>): seq<Request>
    decreases |script| - pos
  {
    if url == "" || pos >= |script| then []
    else if Stops(script[pos]) then [Request(url, params)]
    else [Request(url, params)] + Requests(script, pos + 1, script[pos].next, [])
  }

  /** Every yielded page is non-empty and is the body of a 200 response, in script order. */
  lemma {:induction false} PagesAreSuccessfulBodies(script: seq<Response>, pos: nat, url: string, params: seq<Param>)
    requires pos <= |script|
    ensures var pages := Pages(script, pos, url, params);
      && pos + |pages| <= |script|
      && forall i :: 0 <= i < |pages| ==>
           pages[i] != [] && script[pos + i].status == 200 && pages[i] == script[pos + i].body
    decreases |script| - pos
  {
    if url != "" && pos < |script| && !Stops(script[pos]) {
      PagesAreSuccessfulBodies(script, pos + 1, script[pos].next, []);
    }
  }

  /**
   * The first request carries the initial parameters, every later one none; each later
   * request goes to the `next` link of the previous response.
   */
  lemma {:induction false} RequestsFollowLinks(script: seq<Response>, pos: nat, url: string, params: seq<Param>)
    requires pos <= |script|
    ensures var reqs := Requests(script, pos, url, params);
      && (url != "" && pos < |script| ==> reqs != [] && reqs[0] == Request(url, params))
      && (url == "" || pos >= |script| ==> reqs == [])
      && pos + |reqs| <= |script|
      && forall i :: 0 < i < |reqs| ==> reqs[i].params == [] && reqs[i].url == script[pos + i - 1].next
    decreases |script| - pos
  {
    if url != "" && pos < |script| && !Stops(script[pos]) {
      var reqs := Requests(script, pos, url, params);
      var rest := Requests(script, pos + 1, script[pos].next, []);
      RequestsFollowLinks(script, pos + 1, script[pos].next, []);
      assert reqs == [Request(url, params)] + rest;
      forall i | 0 < i < |reqs|
        ensures reqs[i].params == [] && reqs[i].url == script[pos + i - 1].next
      {
        assert reqs[i] == rest[i - 1];
      }
    }
  }

  /**
   * The walk ends for one of three reasons: the request just after the last page got a
   * failure status or an empty list, the last page had no next link, or the script ran out.
   */
  lemma {:induction false} PagesStopReason(script: seq<Response>, pos: nat, url: string, params: seq<Param>)
    requires url != "" && pos < |script|
    ensures var k := |Pages(script, pos, url, params)|;
      var n := |Requests(script, pos, url, params)|;
      && (n == k + 1 || n == k)
      && (n == k + 1 ==> pos + k < |script| && Stops(script[pos + k]))
      && (n == k ==> k > 0 && pos + k <= |script| && (script[pos + k - 1].next == "" || pos + k == |script|))
    decreases |script| - pos
  {
    if !Stops(script[pos]) {
      var next := script[pos].next;
      if next != "" && pos + 1 < |script| {
        PagesStopReason(script, pos + 1, next, []);
      }
    }
  }

  /** The records of consecutive pages, as `extend` accumulates them. */
  function Flatten(pages: seq<seq<Record>>): seq<Record>
  {
    if pages == [] then [] else Flatten(pages[..|pages| - 1]) + pages[|pages| - 1]
  }

  lemma FlattenSnoc(pages: seq<seq<Record>>, page: seq<Record>)
    ensures Flatten(pages + [page]) == Flatten(pages) + page
  {
    assert (pages + [page])[..|pages|] == pages;
  }

  /** The first page of a listing comes first in its flattening. */
  lemma FlattenCons(pages: seq<seq<Record>>)
    requires pages != []
    ensures Flatten(pages) == pages[0] + Flatten(pages[1..])
  {
    assert pages == [pages[0]] + pages[1..];
    FlattenAppend([pages[0]], pages[1..]);
    FlattenSnoc([], pages[0]);
    assert Flatten([pages[0]]) == pages[0];
  }

  lemma {:induction false} FlattenAppend(a: seq<seq<Record>>, b: seq<seq<Record>>)
    ensures Flatten(a + b) == Flatten(a) + Flatten(b)
    decreases |b|
  {
    if b == [] {
      assert a + b == a;
    } else {
      var b' := b[..|b| - 1];
      assert a + b == (a + b') + [b[|b| - 1]];
      FlattenSnoc(a + b', b[|b| - 1]);
      FlattenAppend(a, b');
      FlattenSnoc(b', b[|b| - 1]);
      assert b' + [b[|b| - 1]] == b;
    }
  }

  /** The generator object between two `next()` calls. */
  class Pager {
    const script: seq<Response>
    const startUrl: string
    const startParams: seq<Param>
    var pos: nat
    var url: string
    var params: seq<Param>
    var finished: bool
    /** The requests sent so far. */
    var requests: seq<Request>
    ghost var yielded: seq<seq<Record>>

    /** The pages still to come. */
    ghost function Remaining(): seq<seq<Record>>
      reads this
    {
      if finished then [] else Pages(script, pos, url, params)
    }

    ghost function PendingRequests(): seq<Request>
      reads this
    {
      if finished then [] else Requests(script, pos, url, params)
    }

    ghost predicate Valid()
      reads this
    {
      && yielded + Remaining() == Pages(script, 0, startUrl, startParams)
      && requests + PendingRequests() == Requests(script, 0, startUrl, startParams)
    }

    constructor (script: seq<Response>, url: string, params: seq<Param>)
      ensures this.script == script && startUrl == url && startParams == params
      ensures Valid() && yielded == [] && requests == []
      ensures Remaining() == Pages(script, 0, url, params)
    {
      this.script := script;
      startUrl := url;
      startParams := params;
      pos := 0;
      this.url := url;
      this.params := params;
      finished := false;
      requests := [];
      yielded := [];
    }

    /** Resume the generator: the next page, or `None` once the loop has ended. */
    method Next() returns (page: Option<seq<Record>>)
      requires Valid()
      modifies this
      ensures Valid()
      ensures old(Remaining()) == [] ==> page.None? && Remaining() == [] && yielded == old(yielded)
      ensures old(Remaining()) != [] ==>
        && page == Some(old(Remaining())[0])
        && Remaining() == old(Remaining())[1..]
        && yielded == old(yielded) + [page.value]
    {
      if finished || url == "" || pos >= |script| {
        finished := true;
        return None;
      }
      var response := script[pos];
      Step(script, pos, url, params);
      Assoc(requests, Request(url, params), Requests(script, pos + 1, response.next, []));
      requests := requests + [Request(url, params)];
      pos := pos + 1;
      if response.status != 200 || response.body == [] {
        finished := true;
        return None;
      }
      Assoc(yielded, response.body, Pages(script, pos, response.next, []));
      yielded := yielded + [response.body];
      url := response.next;
      params := [];
      return Some(response.body);
    }
  }

  /** One turn of the loop, from the request for `url` answered by `script[pos]`. */
  lemma Step(script: seq<Response>, pos: nat, url: string, params: seq<Param>)
    requires url != "" && pos < |script|
    ensures Stops(script[pos]) ==>
      Pages(script, pos, url, params) == [] && Requests(script, pos, url, params) == [Request(url, params)]
    ensures !Stops(script[pos]) ==>
      && Pages(script, pos, url, params) == [script[pos].body] + Pages(script, pos + 1, script[pos].next, [])
      && Requests(script, pos, url, params) == [Request(url, params)] + Requests(script, pos + 1, script[pos].next, [])
  {
  }

  lemma Assoc<T>(a: seq<T>, x: T, c: seq<T>)
    ensures (a + [x]) + c == a + ([x] + c)
  {
  }
}
