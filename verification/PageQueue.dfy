/** Doubly linked queues of pages, threaded through the page headers. */
module PageQueue {

  type Page = nat
  type Links = map<Page, Page>

  /** From `head`, whose predecessor is `before`, the links run through exactly this list,
      without repetition, forwards and backwards. */
  ghost predicate Linked(next: Links, prev: Links, before: Page, head: Page, list: seq<Page>)
    decreases list
  {
    if list == [] then head == 0
    else
      && head == list[0] && head != 0 && head !in list[1..] && head in next && head in prev && prev[head] == before
      && Linked(next, prev, head, next[head], list[1..])
  }

  function Last(list: seq<Page>): Page {
    if list == [] then 0 else list[|list| - 1]
  }

  /** The list without the pages of a set. */
  function Without(list: seq<Page>, gone: set<Page>): seq<Page>
    decreases list
  {
    if list == [] then []
    else if list[0] in gone then Without(list[1..], gone)
    else [list[0]] + Without(list[1..], gone)
  }

  lemma {:induction false} WithoutElems(list: seq<Page>, gone: set<Page>, p: Page)
    ensures p in Without(list, gone) <==> p in list && p !in gone
    decreases list
  {
    if list != [] {
      WithoutElems(list[1..], gone, p);
    }
  }

  lemma {:induction false} WithoutTwice(list: seq<Page>, gone: set<Page>, more: set<Page>)
    ensures Without(Without(list, gone), more) == Without(list, gone + more)
    decreases list
  {
    if list != [] {
      WithoutTwice(list[1..], gone, more);
      if list[0] !in gone {
        assert ([list[0]] + Without(list[1..], gone))[1..] == Without(list[1..], gone);
      }
    }
  }

  lemma {:induction false} WithoutAbsent(list: seq<Page>, gone: set<Page>)
    requires forall p | p in gone :: p !in list
    ensures Without(list, gone) == list
    decreases list
  {
    if list != [] {
      assert list[0] in list;
      WithoutAbsent(list[1..], gone);
    }
  }

  lemma {:induction false} NoRepetition(next: Links, prev: Links, before: Page, head: Page, list: seq<Page>,
                                        j: nat, k: nat)
    requires Linked(next, prev, before, head, list) && j < |list| && k < |list| && list[j] == list[k]
    ensures j == k
    decreases list
  {
    if j > 0 && k > 0 {
      NoRepetition(next, prev, head, next[head], list[1..], j - 1, k - 1);
    }
  }

  /** The link of a page on a queue leads to the next one. */
  lemma {:induction false} NextOnList(next: Links, prev: Links, before: Page, head: Page, list: seq<Page>, k: nat)
    requires Linked(next, prev, before, head, list) && k < |list|
    ensures list[k] != 0 && list[k] in next && next[list[k]] == if k + 1 < |list| then list[k + 1] else 0
    decreases list
  {
    if k > 0 {
      NextOnList(next, prev, head, next[head], list[1..], k - 1);
    }
  }

  /** A queue does not notice changes to other pages. */
  lemma {:induction false} LinkedFrame(next: Links, prev: Links, next': Links, prev': Links, before: Page,
                                       head: Page, list: seq<Page>)
    requires Linked(next, prev, before, head, list)
    requires forall p | p in list && p in next && p in prev ::
               p in next' && p in prev' && next'[p] == next[p] && prev'[p] == prev[p]
    ensures Linked(next', prev', before, head, list)
    decreases list
  {
    if list != [] {
      LinkedFrame(next, prev, next', prev', head, next[head], list[1..]);
    }
  }

  /** A new predecessor for the head. */
  lemma Retarget(next: Links, prev: Links, before: Page, head: Page, list: seq<Page>, b: Page)
    requires Linked(next, prev, before, head, list)
    ensures Linked(next, Redirect(prev, head, b), b, head, list)
  {
    if list != [] {
      LinkedFrame(next, prev, next, Redirect(prev, head, b), head, next[head], list[1..]);
    }
  }

  lemma Prepended(next: Links, prev: Links, head: Page, list: seq<Page>, page: Page)
    requires Linked(next, prev, 0, head, list) && page != 0 && page !in list
    ensures head == 0 <==> list == []
    ensures Linked(next[page := head], Redirect(prev[page := 0], head, page), 0, page, [page] + list)
  {
    LinkedFrame(next, prev, next[page := head], prev[page := 0], 0, head, list);
    Retarget(next[page := head], prev[page := 0], 0, head, list, page);
    assert ([page] + list)[1..] == list;
  }

  /** Set a link unless there is no page to hold it. */
  function Redirect(links: Links, at: Page, to: Page): Links {
    if at != 0 then links[at := to] else links
  }

  /** The neighbours of a page of the list lie in the list, around it. */
  lemma {:induction false} Neighbours(next: Links, prev: Links, before: Page, head: Page, list: seq<Page>, page: Page)
    requires Linked(next, prev, before, head, list) && page in list && before !in list
    ensures page in next && page in prev && page != 0
    ensures page == head ==> prev[page] == before
    ensures page != head ==> prev[page] in list && prev[page] != 0
    ensures next[page] != page && prev[page] != page && next[page] != head
    ensures next[page] == 0 || next[page] in list
    ensures next[page] == 0 <==> page == Last(list)
    decreases list
  {
    if page != head {
      Neighbours(next, prev, head, next[head], list[1..], page);
    } else if |list| > 1 {
      assert next[head] == list[1];
    }
  }

  /** Joining the neighbours of a page spells out the list without it. */
  lemma {:induction false} Spliced(next: Links, prev: Links, before: Page, head: Page, list: seq<Page>, page: Page)
    requires Linked(next, prev, before, head, list) && page in list && before !in list
    ensures page in next && page in prev
    ensures Linked(Redirect(next, prev[page], next[page])[page := 0], Redirect(prev, next[page], prev[page])[page := 0],
                   before, if page == head then next[head] else head, Without(list, {page}))
    decreases list
  {
    Neighbours(next, prev, before, head, list, page);
    var next' := Redirect(next, prev[page], next[page])[page := 0];
    var prev' := Redirect(prev, next[page], prev[page])[page := 0];
    if page == head {
      WithoutAbsent(list[1..], {page});
      Retarget(next, prev, head, next[head], list[1..], before);
      LinkedFrame(next, Redirect(prev, next[head], before), next', prev', before, next[head], list[1..]);
    } else {
      Spliced(next, prev, head, next[head], list[1..], page);
      WithoutElems(list[1..], {page}, head);
      assert Without(list, {page}) == [head] + Without(list[1..], {page});
      assert Without(list, {page})[1..] == Without(list[1..], {page});
      assert page == next[head] ==> prev[page] == head;
      assert page != next[head] ==> prev[page] != head by {
        Neighbours(next, prev, head, next[head], list[1..], page);
      }
    }
  }

  /** The new last page, or the predecessor when nothing is left. */
  lemma {:induction false} LastSpliced(next: Links, prev: Links, before: Page, head: Page, list: seq<Page>, page: Page)
    requires Linked(next, prev, before, head, list) && page in list && before !in list
    ensures page in prev
    ensures var rest := Without(list, {page});
            (if rest == [] then before else Last(rest)) == if page == Last(list) then prev[page] else Last(list)
    decreases list
  {
    if page == head {
      WithoutAbsent(list[1..], {page});
    } else {
      LastSpliced(next, prev, head, next[head], list[1..], page);
    }
  }

  /** The links of pages outside the list are as before. */
  ghost predicate Untouched(links: Links, links': Links, list: seq<Page>) {
    forall p | p in links && p !in list :: p in links' && links'[p] == links[p]
  }

  class Headers {
    var next: Links
    var prev: Links
  }

  class Queue {
    var first: Page
    var last: Page
    ghost var list: seq<Page>

    ghost predicate Valid(h: Headers)
      reads this, h
    {
      Linked(h.next, h.prev, 0, first, list) && last == Last(list) && 0 !in list
    }

    constructor ()
      ensures first == 0 && last == 0 && list == []
    {
      first, last, list := 0, 0, [];
    }

    /** `cxl_page_queue_push`: prepend. Pages outside the queue are not touched. */
    method Push(h: Headers, page: Page)
      requires Valid(h) && page != 0 && page !in list
      modifies this, h
      ensures Valid(h) && list == [page] + old(list)
      ensures Untouched(old(h.next), h.next, [page] + old(list)) && Untouched(old(h.prev), h.prev, [page] + old(list))
    {
      Prepended(h.next, h.prev, first, list, page);
      h.next := h.next[page := first];
      h.prev := h.prev[page := 0];
      if first != 0 {
        h.prev := h.prev[first := page];
        first := page;
      } else {
        first := page;
        last := page;
      }
      list := [page] + list;
    }

    /** `cxl_page_queue_remove`: delete. Pages outside the queue are not touched. */
    method Remove(h: Headers, page: Page)
      requires Valid(h) && page in list
      modifies this, h
      ensures Valid(h) && list == Without(old(list), {page})
      ensures Untouched(old(h.next), h.next, old(list)) && Untouched(old(h.prev), h.prev, old(list))
    {
      Neighbours(h.next, h.prev, 0, first, list, page);
      Spliced(h.next, h.prev, 0, first, list, page);
      LastSpliced(h.next, h.prev, 0, first, list, page);
      WithoutElems(list, {page}, 0);
      var before, after := h.prev[page], h.next[page];
      if before != 0 {
        h.next := h.next[before := after];
      }
      if after != 0 {
        h.prev := h.prev[after := before];
      }
      if page == last {
        last := before;
      }
      if page == first {
        first := after;
      }
      h.next := h.next[page := 0];
      h.prev := h.prev[page := 0];
      list := Without(list, {page});
    }
  }
}
