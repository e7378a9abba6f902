/**
 * The provider's page-following sequences (listBranches, listMergeRequests
 * and the notes listing): ask for a page, hand its items one by one to the
 * consumer, and follow NextPage until it is 0, the consumer wants no more,
 * or a request fails (the failure ends the sequence silently). The page
 * counter is captured by the sequence, not reset by a run, so a second run
 * starts where the first one stopped.
 *
 * The source loops for as long as the server reports a next page; the model
 * bounds the number of page requests of one run by `fuel`, and a run that
 * uses its last unit stops on that page.
 */
module Pagination {
  import opened Wrappers
  import opened GitlabApi

  /** What the consumer did with one item: its new state, the client call it made, and whether it wants more. */
  datatype Consumed<S> = Consumed(state: S, call: Option<ApiCall>, more: bool)

  /**
   * yield: from the consumer's state, the item and the index in the client
   * trace its call (if any) gets, what it does with the item. A consumer
   * that makes a call reads the reply from the oracle at that index.
   */
  type Consumer<!S, -T> = (S, T, nat) -> Consumed<S>

  function CallOf<S>(c: Consumed<S>): (cs: seq<ApiCall>)
    ensures |cs| <= 1
  {
    if c.call.Some? then [c.call.value] else []
  }

  /** One page handed to the consumer: its final state, the calls it made, the items it was given, and whether it wants more. */
  datatype Drained<S, T> = Drained(state: S, calls: seq<ApiCall>, yielded: seq<T>, more: bool)

  /**
   * The items of one page, given to the consumer in order from trace index
   * k, up to and including the first one it answers false to.
   */
  function Drain<S, T>(consume: Consumer<S, T>, k: nat, xs: seq<T>, s: S): (d: Drained<S, T>)
    ensures |d.calls| <= |d.yielded| <= |xs|
    decreases |xs|
  {
    if xs == [] then Drained(s, [], [], true)
    else
      var c := consume(s, xs[0], k);
      if !c.more then Drained(c.state, CallOf(c), [xs[0]], false)
      else
        var d := Drain(consume, k + |CallOf(c)|, xs[1..], c.state);
        Drained(d.state, CallOf(c) + d.calls, [xs[0]] + d.yielded, d.more)
  }

  /** A page-following run: the consumer's final state, the client calls, the items handed over, and the page counter at the end. */
  datatype Paged<S, T> = Paged(state: S, calls: seq<ApiCall>, yielded: seq<T>, page: int)

  /**
   * The run from page `page` against client replies o from trace index n,
   * with at most `fuel` page requests.
   */
  function Follow<S, T>(o: ApiOracle, n: nat, request: int -> ApiCall, items: ApiReply -> seq<T>,
                        consume: Consumer<S, T>, page: int, s: S, fuel: nat): Paged<S, T>
    decreases fuel
  {
    if fuel == 0 then Paged(s, [], [], page)
    else
      var call := request(page);
      var reply := o(n, call);
      if reply.err.Some? then Paged(s, [call], [], page)
      else
        var d := Drain(consume, n + 1, items(reply), s);
        if !d.more || reply.nextPage == 0 || fuel == 1 then Paged(d.state, [call] + d.calls, d.yielded, page)
        else
          var r := Follow(o, n + 1 + |d.calls|, request, items, consume, reply.nextPage, d.state, fuel - 1);
          Paged(r.state, [call] + d.calls + r.calls, d.yielded + r.yielded, r.page)
  }

  /**
   * Follow with the whole trace so far and the items handed over so far
   * carried along: the form in which the loop of Pager.Run goes through it.
   */
  function Pages<S, T>(o: ApiOracle, request: int -> ApiCall, items: ApiReply -> seq<T>,
                       consume: Consumer<S, T>, page: int, s: S, fuel: nat,
                       calls: seq<ApiCall>, yielded: seq<T>): Paged<S, T>
    decreases fuel
  {
    if fuel == 0 then Paged(s, calls, yielded, page)
    else
      var call := request(page);
      var reply := o(|calls|, call);
      if reply.err.Some? then Paged(s, calls + [call], yielded, page)
      else
        var d := Drain(consume, |calls| + 1, items(reply), s);
        if !d.more || reply.nextPage == 0 || fuel == 1 then Paged(d.state, calls + [call] + d.calls, yielded + d.yielded, page)
        else Pages(o, request, items, consume, reply.nextPage, d.state, fuel - 1, calls + [call] + d.calls, yielded + d.yielded)
  }

  /** Drain with the whole trace so far carried along: the form in which the loop of Pager.Yield goes through it. */
  function Feed<S, T>(consume: Consumer<S, T>, xs: seq<T>, s: S, calls: seq<ApiCall>): (S, seq<ApiCall>, bool)
    decreases |xs|
  {
    if xs == [] then (s, calls, true)
    else
      var c := consume(s, xs[0], |calls|);
      if !c.more then (c.state, calls + CallOf(c), false)
      else Feed(consume, xs[1..], c.state, calls + CallOf(c))
  }

  /** The sequence a listing returns: the captured page counter, and how to ask for a page and read its items. */
  class Pager<T> {
    const client: Client
    const request: int -> ApiCall
    const items: ApiReply -> seq<T>
    var page: int

    /** page := 1, captured by the returned sequence. */
    constructor(client: Client, request: int -> ApiCall, items: ApiReply -> seq<T>)
      ensures this.client == client && this.request == request && this.items == items && page == 1
    {
      this.client := client;
      this.request := request;
      this.items := items;
      page := 1;
    }

    /** One `for x := range seq` with `consume` as the loop body: Follow from the captured page. */
    method Run<S>(consume: Consumer<S, T>, s0: S, fuel: nat) returns (s: S)
      modifies this, client
      ensures var r := Follow(client.replies, |old(client.calls)|, request, items, consume, old(page), s0, fuel);
              client.calls == old(client.calls) + r.calls && s == r.state && page == r.page
    {
      ghost var whole := Pages(client.replies, request, items, consume, page, s0, fuel, client.calls, []);
      PagesFollow(client.replies, request, items, consume, page, s0, fuel, client.calls, []);
      ghost var ys: seq<T> := [];
      s := s0;
      var f := fuel;
      while f > 0
        invariant Pages(client.replies, request, items, consume, page, s, f, client.calls, ys) == whole
        decreases f
      {
        var reply := client.Invoke(request(page));
        if reply.err.Some? {
          return;
        }
        ghost var d := Drain(consume, |client.calls|, items(reply), s);
        var more;
        s, more := Yield(consume, items(reply), s, |client.calls|);
        if !more || reply.nextPage == 0 || f == 1 {
          return;
        }
        ys := ys + d.yielded;
        page := reply.nextPage;
        f := f - 1;
      }
    }

    /** The inner `for _, x := range page` loop: Drain. */
    method Yield<S>(consume: Consumer<S, T>, xs: seq<T>, s0: S, ghost k: nat) returns (s: S, more: bool)
      requires k == |client.calls|
      modifies client
      ensures var d := Drain(consume, k, xs, s0);
              client.calls == old(client.calls) + d.calls && s == d.state && more == d.more
    {
      ghost var whole := Feed(consume, xs, s0, client.calls);
      FeedDrain(consume, xs, s0, client.calls);
      s := s0;
      assert xs[0..] == xs;
      for i := 0 to |xs|
        invariant Feed(consume, xs[i..], s, client.calls) == whole
      {
        assert xs[i..][0] == xs[i] && xs[i..][1..] == xs[i + 1..];
        var c := consume(s, xs[i], |client.calls|);
        ghost var before := client.calls;
        if c.call.Some? {
          var _ := client.Invoke(c.call.value);
        }
        assert client.calls == before + CallOf(c);
        s := c.state;
        if !c.more {
          return s, false;
        }
      }
      more := true;
    }
  }

  /** Pages is Follow with the trace and the items so far put in front. */
  lemma {:induction false} PagesFollow<S, T>(o: ApiOracle, request: int -> ApiCall, items: ApiReply -> seq<T>,
                                             consume: Consumer<S, T>, page: int, s: S, fuel: nat,
                                             calls: seq<ApiCall>, yielded: seq<T>)
    ensures var r := Follow(o, |calls|, request, items, consume, page, s, fuel);
            Pages(o, request, items, consume, page, s, fuel, calls, yielded)
              == Paged(r.state, calls + r.calls, yielded + r.yielded, r.page)
    decreases fuel
  {
    if fuel == 0 {
      assert calls + [] == calls && yielded + [] == yielded;
    } else {
      var call := request(page);
      var reply := o(|calls|, call);
      if reply.err.None? {
        var d := Drain(consume, |calls| + 1, items(reply), s);
        if d.more && reply.nextPage != 0 && fuel != 1 {
          PagesFollow(o, request, items, consume, reply.nextPage, d.state, fuel - 1, calls + [call] + d.calls, yielded + d.yielded);
          PagesFollowNext(o, request, items, consume, page, s, fuel, calls, yielded);
        } else {
          assert calls + [call] + d.calls == calls + ([call] + d.calls);
        }
      } else {
        assert yielded + [] == yielded;
      }
    }
  }

  /** The step of PagesFollow that follows NextPage, given the claim for the rest of the run. */
  lemma PagesFollowNext<S, T>(o: ApiOracle, request: int -> ApiCall, items: ApiReply -> seq<T>,
                              consume: Consumer<S, T>, page: int, s: S, fuel: nat,
                              calls: seq<ApiCall>, yielded: seq<T>)
    requires fuel >= 2
    requires var reply := o(|calls|, request(page));
             var d := Drain(consume, |calls| + 1, items(reply), s);
             && reply.err.None? && d.more && reply.nextPage != 0
             && var c2 := calls + [request(page)] + d.calls;
                var r := Follow(o, |c2|, request, items, consume, reply.nextPage, d.state, fuel - 1);
                Pages(o, request, items, consume, reply.nextPage, d.state, fuel - 1, c2, yielded + d.yielded)
                  == Paged(r.state, c2 + r.calls, yielded + d.yielded + r.yielded, r.page)
    ensures var r := Follow(o, |calls|, request, items, consume, page, s, fuel);
            Pages(o, request, items, consume, page, s, fuel, calls, yielded)
              == Paged(r.state, calls + r.calls, yielded + r.yielded, r.page)
  {
    var call := request(page);
    var reply := o(|calls|, call);
    var d := Drain(consume, |calls| + 1, items(reply), s);
    var c2 := calls + [call] + d.calls;
    var r := Follow(o, |c2|, request, items, consume, reply.nextPage, d.state, fuel - 1);
    assert |c2| == |calls| + 1 + |d.calls|;
    FollowNext(o, |calls|, request, items, consume, page, s, fuel);
    PagesNext(o, request, items, consume, page, s, fuel, calls, yielded);
    Concat3(calls, [call], d.calls);
    Concat3(calls, [call] + d.calls, r.calls);
    Concat3(yielded, d.yielded, r.yielded);
  }

  /** Pages past a page after which the consumer wants more, NextPage is not 0 and fuel remains. */
  lemma PagesNext<S, T>(o: ApiOracle, request: int -> ApiCall, items: ApiReply -> seq<T>,
                        consume: Consumer<S, T>, page: int, s: S, fuel: nat,
                        calls: seq<ApiCall>, yielded: seq<T>)
    requires fuel >= 2
    requires var reply := o(|calls|, request(page));
             reply.err.None? && reply.nextPage != 0 && Drain(consume, |calls| + 1, items(reply), s).more
    ensures var reply := o(|calls|, request(page));
            var d := Drain(consume, |calls| + 1, items(reply), s);
            Pages(o, request, items, consume, page, s, fuel, calls, yielded)
              == Pages(o, request, items, consume, reply.nextPage, d.state, fuel - 1, calls + [request(page)] + d.calls, yielded + d.yielded)
  {
  }

  /** Feed is Drain with the trace so far put in front. */
  lemma {:induction false} FeedDrain<S, T>(consume: Consumer<S, T>, xs: seq<T>, s: S, calls: seq<ApiCall>)
    ensures var d := Drain(consume, |calls|, xs, s);
            Feed(consume, xs, s, calls) == (d.state, calls + d.calls, d.more)
    decreases |xs|
  {
    if xs == [] {
      assert calls + [] == calls;
    } else {
      var c := consume(s, xs[0], |calls|);
      if c.more {
        FeedDrain(consume, xs[1..], c.state, calls + CallOf(c));
        var d := Drain(consume, |calls| + |CallOf(c)|, xs[1..], c.state);
        assert calls + CallOf(c) + d.calls == calls + (CallOf(c) + d.calls);
      }
    }
  }

  // ------------------------------------------------------------ the rules

  /**
   * A page is handed over from its first item on, without gaps: all of it
   * when the consumer still wants more, else up to and including the item
   * it answered false to. The consumer makes at most one call per item.
   */
  lemma {:induction false} DrainPrefix<S, T>(consume: Consumer<S, T>, k: nat, xs: seq<T>, s: S)
    ensures var d := Drain(consume, k, xs, s);
            && d.yielded == xs[..|d.yielded|]
            && (d.more ==> d.yielded == xs)
            && (!d.more ==> |d.yielded| >= 1)
    decreases |xs|
  {
    if xs != [] {
      var c := consume(s, xs[0], k);
      if c.more {
        DrainPrefix(consume, k + |CallOf(c)|, xs[1..], c.state);
        var d := Drain(consume, k + |CallOf(c)|, xs[1..], c.state);
        assert xs[1..][..|d.yielded|] == xs[1..|d.yielded| + 1];
        assert [xs[0]] + xs[1..|d.yielded| + 1] == xs[..|d.yielded| + 1];
      }
    }
  }

  /**
   * The first request asks for the captured page; a failed request ends the
   * run silently with the consumer untouched; a page after which the
   * consumer wants no more, NextPage is 0 or fuel runs out ends the run on
   * that page.
   */
  lemma FollowRules<S, T>(o: ApiOracle, n: nat, request: int -> ApiCall, items: ApiReply -> seq<T>,
                          consume: Consumer<S, T>, page: int, s: S, fuel: nat)
    requires fuel >= 1
    ensures var r := Follow(o, n, request, items, consume, page, s, fuel);
            |r.calls| >= 1 && r.calls[0] == request(page)
    ensures var r := Follow(o, n, request, items, consume, page, s, fuel);
            var reply := o(n, request(page));
            reply.err.Some? ==> r == Paged(s, [request(page)], [], page)
    ensures var r := Follow(o, n, request, items, consume, page, s, fuel);
            var reply := o(n, request(page));
            var d := Drain(consume, n + 1, items(reply), s);
            reply.err.None? && (!d.more || reply.nextPage == 0 || fuel == 1) ==>
              r == Paged(d.state, [request(page)] + d.calls, d.yielded, page)
  {
  }

  /**
   * When the consumer still wants items after a page, NextPage is not 0 and
   * fuel remains, the next request asks for page NextPage, after the calls
   * the consumer made, and the whole page was handed over before it.
   */
  lemma FollowNextPage<S, T>(o: ApiOracle, n: nat, request: int -> ApiCall, items: ApiReply -> seq<T>,
                             consume: Consumer<S, T>, page: int, s: S, fuel: nat)
    requires fuel >= 2
    requires o(n, request(page)).err.None? && o(n, request(page)).nextPage != 0
    requires Drain(consume, n + 1, items(o(n, request(page))), s).more
    ensures var r := Follow(o, n, request, items, consume, page, s, fuel);
            var reply := o(n, request(page));
            var d := Drain(consume, n + 1, items(reply), s);
            && |r.calls| > 1 + |d.calls| && r.calls[1 + |d.calls|] == request(reply.nextPage)
            && |r.yielded| >= |items(reply)| && r.yielded[..|items(reply)|] == items(reply)
  {
    var reply := o(n, request(page));
    var d := Drain(consume, n + 1, items(reply), s);
    DrainPrefix(consume, n + 1, items(reply), s);
    assert d.yielded == items(reply);
    var m := n + 1 + |d.calls|;
    var rest := Follow(o, m, request, items, consume, reply.nextPage, d.state, fuel - 1);
    FollowRules(o, m, request, items, consume, reply.nextPage, d.state, fuel - 1);
    assert |rest.calls| >= 1 && rest.calls[0] == request(reply.nextPage);
    FollowNext(o, n, request, items, consume, page, s, fuel);
    var r := Follow(o, n, request, items, consume, page, s, fuel);
    assert r.calls == [request(page)] + d.calls + rest.calls && r.yielded == d.yielded + rest.yielded;
    assert r.calls[1 + |d.calls|] == rest.calls[0];
    assert r.yielded[..|d.yielded|] == d.yielded;
  }

  /**
   * A consumer that answers false stops the run at that item: nothing after
   * it is handed over and no further page is requested.
   */
  lemma ConsumerStopEndsRun<S, T>(o: ApiOracle, n: nat, request: int -> ApiCall, items: ApiReply -> seq<T>,
                                  consume: Consumer<S, T>, page: int, s: S, fuel: nat)
    requires fuel >= 1 && o(n, request(page)).err.None?
    requires !Drain(consume, n + 1, items(o(n, request(page))), s).more
    ensures var r := Follow(o, n, request, items, consume, page, s, fuel);
            var d := Drain(consume, n + 1, items(o(n, request(page))), s);
            && r.calls == [request(page)] + d.calls
            && r.page == page
            && forall i :: 1 <= i < |r.calls| ==> r.calls[i] in d.calls
  {
  }

  /** The page counter a run ends with is a page it requested (or the start page, without fuel): a next run re-requests it. */
  lemma {:induction false} FollowEndsAtRequestedPage<S, T>(o: ApiOracle, n: nat, request: int -> ApiCall, items: ApiReply -> seq<T>,
                                                          consume: Consumer<S, T>, page: int, s: S, fuel: nat)
    ensures var r := Follow(o, n, request, items, consume, page, s, fuel);
            fuel == 0 ==> r.page == page
    ensures var r := Follow(o, n, request, items, consume, page, s, fuel);
            fuel >= 1 ==> request(r.page) in r.calls
    decreases fuel
  {
    if fuel >= 1 {
      var reply := o(n, request(page));
      var d := Drain(consume, n + 1, items(reply), s);
      if reply.err.None? && d.more && reply.nextPage != 0 && fuel >= 2 {
        FollowEndsAtRequestedPage(o, n + 1 + |d.calls|, request, items, consume, reply.nextPage, d.state, fuel - 1);
      }
    }
  }

  // ------------------------------------------------------ consumer invariants

  /**
   * P, over the consumer's state and the items handed over so far, is kept
   * by every item the consumer continues after, and becomes Q at the item it
   * stops at; P implies Q.
   */
  ghost predicate Keeps<S(!new), T(!new)>(consume: Consumer<S, T>, P: (S, seq<T>) -> bool, Q: (S, seq<T>) -> bool) {
    && (forall s, ys, x, k :: P(s, ys) ==>
          var c := consume(s, x, k);
          (c.more ==> P(c.state, ys + [x])) && (!c.more ==> Q(c.state, ys + [x])))
    && (forall s, ys :: P(s, ys) ==> Q(s, ys))
  }

  /** Over one page: P while the consumer wants more, Q once it stopped. */
  lemma {:induction false} DrainKeeps<S(!new), T(!new)>(consume: Consumer<S, T>, k: nat, xs: seq<T>, s: S, ys0: seq<T>,
                                            P: (S, seq<T>) -> bool, Q: (S, seq<T>) -> bool)
    requires Keeps(consume, P, Q) && P(s, ys0)
    ensures var d := Drain(consume, k, xs, s);
            && (d.more ==> P(d.state, ys0 + d.yielded))
            && (!d.more ==> Q(d.state, ys0 + d.yielded))
    decreases |xs|
  {
    if xs == [] {
      assert ys0 + [] == ys0;
    } else {
      var c := consume(s, xs[0], k);
      if c.more {
        DrainKeeps(consume, k + |CallOf(c)|, xs[1..], c.state, ys0 + [xs[0]], P, Q);
        var d := Drain(consume, k + |CallOf(c)|, xs[1..], c.state);
        assert ys0 + [xs[0]] + d.yielded == ys0 + ([xs[0]] + d.yielded);
      }
    }
  }

  /** Keeps lifted to whole pages: P before a page gives what DrainKeeps promises after it. */
  ghost predicate PageKeeps<S(!new), T(!new)>(consume: Consumer<S, T>, P: (S, seq<T>) -> bool, Q: (S, seq<T>) -> bool) {
    && (forall k: nat, xs: seq<T>, s: S, ys: seq<T> :: P(s, ys) ==>
          var d := Drain(consume, k, xs, s);
          (d.more ==> P(d.state, ys + d.yielded)) && (!d.more ==> Q(d.state, ys + d.yielded)))
    && (forall s, ys :: P(s, ys) ==> Q(s, ys))
  }

  /** Over a whole run: Q holds of the final state and everything handed over. */
  lemma FollowKeeps<S(!new), T(!new)>(o: ApiOracle, n: nat, request: int -> ApiCall, items: ApiReply -> seq<T>,
                                      consume: Consumer<S, T>, page: int, s: S, fuel: nat, ys0: seq<T>,
                                      P: (S, seq<T>) -> bool, Q: (S, seq<T>) -> bool)
    requires Keeps(consume, P, Q) && P(s, ys0)
    ensures var r := Follow(o, n, request, items, consume, page, s, fuel);
            Q(r.state, ys0 + r.yielded)
  {
    forall k: nat, xs: seq<T>, s': S, ys: seq<T> | P(s', ys)
      ensures var d := Drain(consume, k, xs, s');
              (d.more ==> P(d.state, ys + d.yielded)) && (!d.more ==> Q(d.state, ys + d.yielded))
    {
      DrainKeeps(consume, k, xs, s', ys, P, Q);
    }
    FollowPageKeeps(o, n, request, items, consume, page, s, fuel, ys0, P, Q);
  }

  lemma {:induction false} FollowPageKeeps<S(!new), T(!new)>(o: ApiOracle, n: nat, request: int -> ApiCall, items: ApiReply -> seq<T>,
                                                 consume: Consumer<S, T>, page: int, s: S, fuel: nat, ys0: seq<T>,
                                                 P: (S, seq<T>) -> bool, Q: (S, seq<T>) -> bool)
    requires PageKeeps(consume, P, Q) && P(s, ys0)
    ensures var r := Follow(o, n, request, items, consume, page, s, fuel);
            Q(r.state, ys0 + r.yielded)
    decreases fuel, 1
  {
    if fuel == 0 || o(n, request(page)).err.Some? {
      assert ys0 + [] == ys0;
    } else {
      var reply := o(n, request(page));
      var d := Drain(consume, n + 1, items(reply), s);
      if d.more && reply.nextPage != 0 && fuel != 1 {
        FollowKeepsNext(o, n, request, items, consume, page, s, fuel, ys0, P, Q);
      } else {
        assert !d.more ==> Q(d.state, ys0 + d.yielded);
      }
    }
  }

  /** The step of FollowPageKeeps past a page: Q of the rest of the run is Q of the whole run. */
  lemma {:induction false} FollowKeepsNext<S(!new), T(!new)>(o: ApiOracle, n: nat, request: int -> ApiCall, items: ApiReply -> seq<T>,
                                                 consume: Consumer<S, T>, page: int, s: S, fuel: nat, ys0: seq<T>,
                                                 P: (S, seq<T>) -> bool, Q: (S, seq<T>) -> bool)
    requires PageKeeps(consume, P, Q) && P(s, ys0)
    requires fuel >= 2
    requires var reply := o(n, request(page));
             reply.err.None? && reply.nextPage != 0 && Drain(consume, n + 1, items(reply), s).more
    ensures var r := Follow(o, n, request, items, consume, page, s, fuel);
            Q(r.state, ys0 + r.yielded)
    decreases fuel, 0
  {
    var reply := o(n, request(page));
    var d := Drain(consume, n + 1, items(reply), s);
    var m := n + 1 + |d.calls|;
    FollowPageKeeps(o, m, request, items, consume, reply.nextPage, d.state, fuel - 1, ys0 + d.yielded, P, Q);
    var rest := Follow(o, m, request, items, consume, reply.nextPage, d.state, fuel - 1);
    assert Q(rest.state, ys0 + d.yielded + rest.yielded);
    FollowJoin(o, n, request, items, consume, page, s, fuel, ys0, Q);
  }

  /** Q of the run after a page, with that page's items in front, is Q of the whole run. */
  lemma FollowJoin<S, T>(o: ApiOracle, n: nat, request: int -> ApiCall, items: ApiReply -> seq<T>,
                         consume: Consumer<S, T>, page: int, s: S, fuel: nat, ys0: seq<T>, Q: (S, seq<T>) -> bool)
    requires fuel >= 2
    requires var reply := o(n, request(page));
             reply.err.None? && reply.nextPage != 0 && Drain(consume, n + 1, items(reply), s).more
    requires var reply := o(n, request(page));
             var d := Drain(consume, n + 1, items(reply), s);
             var rest := Follow(o, n + 1 + |d.calls|, request, items, consume, reply.nextPage, d.state, fuel - 1);
             Q(rest.state, ys0 + d.yielded + rest.yielded)
    ensures var r := Follow(o, n, request, items, consume, page, s, fuel);
            Q(r.state, ys0 + r.yielded)
  {
    var reply := o(n, request(page));
    var d := Drain(consume, n + 1, items(reply), s);
    var rest := Follow(o, n + 1 + |d.calls|, request, items, consume, reply.nextPage, d.state, fuel - 1);
    FollowNext(o, n, request, items, consume, page, s, fuel);
    Concat3(ys0, d.yielded, rest.yielded);
  }

  /** Follow past a page after which the consumer wants more, NextPage is not 0 and fuel remains: that page, then the run from NextPage. */
  lemma FollowNext<S, T>(o: ApiOracle, n: nat, request: int -> ApiCall, items: ApiReply -> seq<T>,
                         consume: Consumer<S, T>, page: int, s: S, fuel: nat)
    requires fuel >= 2
    requires var reply := o(n, request(page));
             reply.err.None? && reply.nextPage != 0 && Drain(consume, n + 1, items(reply), s).more
    ensures var reply := o(n, request(page));
            var d := Drain(consume, n + 1, items(reply), s);
            var rest := Follow(o, n + 1 + |d.calls|, request, items, consume, reply.nextPage, d.state, fuel - 1);
            Follow(o, n, request, items, consume, page, s, fuel)
              == Paged(rest.state, [request(page)] + d.calls + rest.calls, d.yielded + rest.yielded, rest.page)
  {
  }
}
