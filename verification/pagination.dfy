/** Cursor pagination over the group's subscriber listing
    (`fetchAllSubscribers`). The provider is not called: the k-th listing
    request is answered by the k-th element of a sequence of responses. */
module Pagination {
  import opened Common
  import opened Aggregation

  /** One answer to a listing request: its HTTP status, the page's `data`
      array (None when absent) and `meta.next_cursor` (None when absent). */
  datatype PageResponse = PageResponse(
    status: nat,
    data: Option<seq<Subscriber>>,
    nextCursor: Option<string>)

  /** The errors the two provider fetches of the stats action raise; each
      carries the HTTP status that caused it. */
  datatype FetchError = ListingFailed(status: nat) | AutomationFailed(status: nat)

  /** The message of the error object thrown for a fetch error. */
  function ErrorMessage(e: FetchError): (msg: string)
  {
    match e
    case ListingFailed(status) => "MailerLite API error: " + NatToString(status)
    case AutomationFailed(status) => "Automation fetch error: " + NatToString(status)
  }

  /** The page names a continuation cursor (a truthy `meta.next_cursor`). */
  predicate HasNext(p: PageResponse)
  {
    Truthy(p.nextCursor)
  }

  /** A response after which no further request is issued: an error
      status, or a page without a continuation cursor. */
  predicate Final(p: PageResponse)
  {
    !StatusOk(p.status) || !HasNext(p)
  }

  /** The responses end the traversal at some point; when the provider
      hands out cursors forever the source never returns. */
  predicate Ends(pages: seq<PageResponse>)
  {
    exists i :: 0 <= i < |pages| && Final(pages[i])
  }

  /** `data.data || []`: the page's subscribers, none when absent. */
  function PageData(p: PageResponse): seq<Subscriber>
  {
    if p.data.Some? then p.data.value else []
  }

  /** The pages' subscribers, concatenated in order. */
  function Flatten(pages: seq<PageResponse>): seq<Subscriber>
  {
    if pages == [] then [] else Flatten(pages[..|pages| - 1]) + PageData(pages[|pages| - 1])
  }

  /** Index of the response that ends the traversal: the first final one. */
  function StopIndex(pages: seq<PageResponse>): (k: nat)
    requires Ends(pages)
    ensures k < |pages| && Final(pages[k])
    ensures forall j :: 0 <= j < k ==> !Final(pages[j])
  {
    if Final(pages[0]) then 0
    else
      assert Ends(pages[1..]) by {
        var i :| 0 <= i < |pages| && Final(pages[i]);
        assert pages[1..][i - 1] == pages[i];
      }
      1 + StopIndex(pages[1..])
  }

  /** Reference outcome of the traversal: the concatenation of every page
      up to the one that ends it, or, when that one is an error, the error
      with its status and no subscribers at all. */
  function Traverse(pages: seq<PageResponse>): Result<seq<Subscriber>, FetchError>
    requires Ends(pages)
  {
    var k := StopIndex(pages);
    if StatusOk(pages[k].status) then Success(Flatten(pages[..k + 1]))
    else Failure(ListingFailed(pages[k].status))
  }

  /** The loop of `fetchAllSubscribers`: request a page (with the cursor of
      the previous page once there is one), abort on an error status,
      append the page's data, and go on only while a cursor is present.
      `requested` lists the cursor sent with each request. */
  method FetchAllSubscribers(pages: seq<PageResponse>)
      returns (result: Result<seq<Subscriber>, FetchError>, requested: seq<Option<string>>)
    requires Ends(pages)
    ensures result == Traverse(pages)
    ensures |requested| == StopIndex(pages) + 1
    ensures requested[0] == None
    ensures forall j :: 0 < j < |requested| ==>
              HasNext(pages[j - 1]) && requested[j] == pages[j - 1].nextCursor
  {
    var subscribers: seq<Subscriber> := [];
    var cursor: Option<string> := None;
    var i := 0;
    requested := [];
    while true
      invariant 0 <= i <= StopIndex(pages)
      invariant subscribers == Flatten(pages[..i])
      invariant cursor == if i == 0 then None else pages[i - 1].nextCursor
      invariant |requested| == i
      invariant i > 0 ==> requested[0] == None
      invariant forall j :: 0 < j < i ==>
                  HasNext(pages[j - 1]) && requested[j] == pages[j - 1].nextCursor
      decreases |pages| - i
    {
      requested := requested + [if Truthy(cursor) then cursor else None];
      var res := pages[i];
      if !StatusOk(res.status) {
        result := Failure(ListingFailed(res.status));
        return;
      }
      assert pages[..i + 1][..i] == pages[..i];
      subscribers := subscribers + PageData(res);
      if HasNext(res) {
        cursor := res.nextCursor;
      } else {
        break;
      }
      i := i + 1;
    }
    result := Success(subscribers);
  }

  /** Responses after the one that ends the traversal are never consulted:
      no request is issued for them. */
  lemma TraverseIgnoresLaterResponses(pages: seq<PageResponse>, later: seq<PageResponse>)
    requires Ends(pages)
    ensures Ends(pages[..StopIndex(pages) + 1] + later)
    ensures Traverse(pages[..StopIndex(pages) + 1] + later) == Traverse(pages)
  {
    var k := StopIndex(pages);
    var cut := pages[..k + 1] + later;
    assert cut[k] == pages[k];
    assert Ends(cut);
    StopIndexUnique(cut, k);
    assert cut[..k + 1] == pages[..k + 1];
  }

  /** The stop index is determined by the responses up to it. */
  lemma StopIndexUnique(pages: seq<PageResponse>, k: nat)
    requires k < |pages| && Final(pages[k])
    requires forall j :: 0 <= j < k ==> !Final(pages[j])
    ensures Ends(pages) && StopIndex(pages) == k
  {
  }

  /** The traversal fails exactly when the response that ends it carries
      an error status; it then reports that status and no list. */
  lemma TraverseFailure(pages: seq<PageResponse>)
    requires Ends(pages)
    ensures Traverse(pages).Failure? <==> !StatusOk(pages[StopIndex(pages)].status)
    ensures Traverse(pages).Failure? ==>
              Traverse(pages).error == ListingFailed(pages[StopIndex(pages)].status)
    ensures Traverse(pages).Failure? ==>
              exists i :: 0 <= i < |pages| && !StatusOk(pages[i].status)
  {
  }

  /** Flattening is concatenation: splitting the pages splits the result. */
  lemma {:induction false} FlattenAppend(a: seq<PageResponse>, b: seq<PageResponse>)
    ensures Flatten(a + b) == Flatten(a) + Flatten(b)
    decreases |b|
  {
    if b == [] {
      assert a + b == a;
    } else {
      var init, last := b[..|b| - 1], b[|b| - 1];
      var ab := a + b;
      assert ab[..|ab| - 1] == a + init;
      assert ab[|ab| - 1] == last;
      FlattenAppend(a, init);
      calc {
        Flatten(ab);
        Flatten(a + init) + PageData(last);
        (Flatten(a) + Flatten(init)) + PageData(last);
        Flatten(a) + (Flatten(init) + PageData(last));
        Flatten(a) + Flatten(b);
      }
    }
  }

  /** Two pages of data followed by a final page give the three pages'
      subscribers in order. */
  lemma ThreePageExample(a: Subscriber, b: Subscriber, c: Subscriber)
    ensures var pages := [
              PageResponse(200, Some([a, b]), Some("c1")),
              PageResponse(200, Some([c]), None)];
            Ends(pages) && Traverse(pages) == Success([a, b, c])
  {
    var pages := [
      PageResponse(200, Some([a, b]), Some("c1")),
      PageResponse(200, Some([c]), None)];
    assert |"c1"| == 2;
    assert !Final(pages[0]);
    assert Final(pages[1]);
    StopIndexUnique(pages, 1);
    assert Traverse(pages) == Success(Flatten(pages[..2]));
    assert pages[..2] == pages;
    assert pages[..1][..0] == [];
    assert Flatten(pages[..1]) == [a, b];
    assert Flatten(pages) == [a, b] + [c];
    assert Flatten(pages[..2]) == [a, b, c];
    assert Traverse(pages).value == [a, b, c];
  }
}
