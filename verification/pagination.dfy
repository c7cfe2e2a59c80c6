/**
  `navigateApiPages`: pages 1, 2, ... are requested in order with a limit of
  20 records, and their records are appended until a page comes back empty
  or shorter than the limit. The server is a finite sequence of page
  responses, one per page number; every page past its end is empty.
 */
module Pagination {

  import opened Fetch

  const PageLimit: nat := 20

  /** The outcome of the walk and how many page requests it made. */
  datatype Walk<T> = Walk(response: Response<seq<T>>, requests: nat)

  /** The response to the request for page `page` (counted from 1). */
  function PageAt<T>(responses: seq<Response<seq<T>>>, page: nat): Response<seq<T>>
    requires page >= 1
  {
    if page <= |responses| then responses[page - 1] else Returned([])
  }

  /** A page that ends the walk: one shorter than the limit, the empty page included. */
  predicate IsLastPage<T>(data: seq<T>) {
    |data| < PageLimit
  }

  /** The records of pages 1 to `n`, in order. */
  function Gathered<T>(responses: seq<Response<seq<T>>>, n: nat): seq<T>
  {
    if n == 0 then []
    else Gathered(responses, n - 1) + (match PageAt(responses, n) case Returned(data) => data case Thrown(_) => [])
  }

  /** The loop from page `page` on, `acc` holding the records of the earlier pages. */
  function WalkFrom<T>(responses: seq<Response<seq<T>>>, page: nat, acc: seq<T>): (w: Walk<T>)
    requires 1 <= page <= |responses| + 1
    requires acc == Gathered(responses, page - 1)
    requires forall p :: 1 <= p < page ==> PageAt(responses, p).Returned? && !IsLastPage(PageAt(responses, p).data)
    ensures page <= w.requests <= |responses| + 1
    ensures forall p :: 1 <= p < w.requests ==> PageAt(responses, p).Returned? && !IsLastPage(PageAt(responses, p).data)
    ensures w.response.Returned? ==>
      && PageAt(responses, w.requests).Returned?
      && IsLastPage(PageAt(responses, w.requests).data)
      && w.response.data == Gathered(responses, w.requests)
    ensures w.response.Thrown? ==> PageAt(responses, w.requests) == Thrown(w.response.error)
    decreases |responses| + 1 - page
  {
    match PageAt(responses, page)
    case Thrown(e) => Walk(Thrown(e), page)
    case Returned(data) =>
      if |data| == 0 then
        assert acc + data == acc;
        Walk(Returned(acc), page)
      else if |data| < PageLimit then Walk(Returned(acc + data), page)
      else WalkFrom(responses, page + 1, acc + data)
  }

  /**
    The walk requests pages until the first that throws, comes back empty or
    comes back shorter than the limit; every earlier page was full. Without
    an error the result is all records of the requested pages, in order; an
    error discards what was gathered.
   */
  function Navigate<T>(responses: seq<Response<seq<T>>>): (w: Walk<T>)
    ensures 1 <= w.requests <= |responses| + 1
    ensures forall p :: 1 <= p < w.requests ==> PageAt(responses, p).Returned? && |PageAt(responses, p).data| >= PageLimit
    ensures w.response.Returned? ==>
      && PageAt(responses, w.requests).Returned?
      && |PageAt(responses, w.requests).data| < PageLimit
      && w.response.data == Gathered(responses, w.requests)
    ensures w.response.Thrown? ==> PageAt(responses, w.requests) == Thrown(w.response.error)
  {
    WalkFrom(responses, 1, [])
  }

  /** Pages of 20, 20 and 7 records give the 47 records from three requests. */
  lemma ThreePages<T>(a: seq<T>, b: seq<T>, c: seq<T>)
    requires |a| == 20 && |b| == 20 && |c| == 7
    ensures Navigate([Returned(a), Returned(b), Returned(c)]) == Walk(Returned(a + b + c), 3)
    ensures |a + b + c| == 47
  {
    var responses: seq<Response<seq<T>>> := [Returned(a), Returned(b), Returned(c)];
    var w := Navigate(responses);
    assert PageAt(responses, 3) == Returned(c);
    assert w.requests == 3;
    assert Gathered(responses, 1) == a;
    assert Gathered(responses, 2) == a + b;
  }

  /** A full last page costs one more request, which returns nothing. */
  lemma FullLastPage<T>(a: seq<T>)
    requires |a| == PageLimit
    ensures Navigate([Returned(a)]) == Walk(Returned(a), 2)
  {
    var responses: seq<Response<seq<T>>> := [Returned(a)];
    var w := Navigate(responses);
    assert PageAt(responses, 1) == Returned(a);
    assert PageAt(responses, 2) == Returned([]);
    assert w.requests == 2;
    assert Gathered(responses, 1) == a;
    assert Gathered(responses, 2) == a;
  }

  /** An empty first page is an empty result, not an error. */
  lemma EmptyFirstPage<T>()
    ensures Navigate<T>([]) == Walk(Returned([]), 1)
  {
  }
}
