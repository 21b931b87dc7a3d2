/** What following NextToken yields: the calls of a chain, taken together. */
module PagingChain {
  import opened Wrappers
  import opened Paging

  /** The listings of a chain of calls that starts at `token`, each call going on
      at the NextToken of the one before. As in the responses, a NextToken that
      is not positive ends the chain. */
  function Chain<T>(items: seq<T>, p: nat, token: int32, maxEntries: int32): seq<seq<T>>
    requires 0 <= token
    decreases TWO_31 - token
  {
    var next := NextToken(|items|, p, token, maxEntries);
    var window := Window(items, p, token, maxEntries);
    if next <= 0 then [window]
    else
      NextTokenGrows(|items|, p, token, maxEntries);
      [window] + Chain(items, p, next, maxEntries)
  }

  lemma WrapGrows(token: int32, maxEntries: int32)
    requires 0 <= token && 0 < maxEntries
    ensures var next := Wrap32(Wrap32(token + maxEntries) + (if token == 0 then 1 else 0));
            0 < next ==> next == token + maxEntries + (if token == 0 then 1 else 0)
  {
  }

  lemma NextTokenGrows(n: nat, p: nat, token: int32, maxEntries: int32)
    requires 0 <= token && 0 < NextToken(n, p, token, maxEntries)
    ensures 0 < maxEntries
    ensures NextToken(n, p, token, maxEntries) == token + maxEntries + (if token == 0 then 1 else 0)
  {
    if 0 < maxEntries {
      WrapGrows(token, maxEntries);
    }
  }

  function Flatten<T>(xss: seq<seq<T>>): seq<T> {
    if xss == [] then [] else xss[0] + Flatten(xss[1..])
  }

  function CeilDiv(a: nat, b: nat): nat
    requires 0 < b
  {
    if a <= b then (if a == 0 then 0 else 1) else 1 + CeilDiv(a - b, b)
  }

  lemma {:induction false} CeilDivIsRoundedUp(a: nat, b: nat)
    requires 0 < b
    ensures (CeilDiv(a, b) as int - 1) * b < a <= CeilDiv(a, b) * b || a == CeilDiv(a, b) == 0
  {
    if b < a {
      CeilDivIsRoundedUp(a - b, b);
      var k := CeilDiv(a - b, b);
      assert k * b == (k - 1) * b + b && (k + 1) * b == k * b + b;
    }
  }

  /** The pages needed are the first and as many more as hold the rest. */
  lemma {:induction false} PagesToIsRoundedUp(end: nat, last: nat, p: nat)
    requires 0 < p
    ensures PagesTo(end, last, p) == 1 + CeilDiv(Max(0, last - end), p)
    decreases if last <= end then 0 else last - end
  {
    if end < last {
      PagesToIsRoundedUp(end + p, last, p);
    }
  }

  // ---- Single windows ------------------------------------------------------

  lemma DivModStep(t: nat, m: nat)
    requires 0 < m
    ensures (t + m) / m == t / m + 1 && (t + m) % m == t % m
  {
    assert t == m * (t / m) + t % m;
    assert t + m == m * (t / m + 1) + t % m;
    DivModUnique(t + m, m, t / m + 1, t % m);
  }

  lemma DivModUnique(x: nat, m: nat, q: nat, r: nat)
    requires 0 < m && r < m && x == m * q + r
    ensures x / m == q && x % m == r
  {
    var d := x / m - q;
    assert m * d == r - x % m;
    if 0 < d {
      MulAtLeast(m, d);
    } else if d < 0 {
      assert m * d == -(m * -d);
      MulAtLeast(m, -d);
    }
  }

  lemma MulAtLeast(m: nat, d: nat)
    requires 0 < d
    ensures m <= m * d
  {
  }

  /** Where a call starts when no page size cap is in the way: at the item before
      the token, except that a multiple of maxEntries skips one item. */
  lemma UncappedOffset(n: nat, token: nat, maxEntries: nat)
    requires 0 < maxEntries
    ensures Offset(n, maxEntries, token, maxEntries)
         == Min(n, if token % maxEntries == 0 then token else token - 1)
  {
    var q, r := token / maxEntries, token % maxEntries;
    PageStartIsProduct(q + 1, maxEntries);
    DivMod(token, maxEntries, q, r);
    assert FirstPage(token, maxEntries) == q + 1 && Skip(token, maxEntries) == Max(r - 1, 0);
  }

  lemma DivMod(x: nat, m: nat, q: nat, r: nat)
    requires 0 < m && q == x / m && r == x % m
    ensures x == (q + 1 - 1) * m + r && r < m
  {
  }

  /** Window exactness. The stated meaning of the token, "the n-th item", is met
      exactly by the tokens that maxEntries does not divide; the others are off by
      one, and NextToken stays in its class. */
  lemma WindowExact<T>(items: seq<T>, token: int32, maxEntries: int32)
    requires |items| < TWO_31 && 1 <= token && 1 <= maxEntries
    ensures var n := |items|;
            var b := Min(n, if token % maxEntries == 0 then token else token - 1);
            var next := NextToken(n, maxEntries, token, maxEntries);
            && Window(items, maxEntries, token, maxEntries) == items[b..Min(b + maxEntries, n)]
            && next == (if b + maxEntries < n then token + maxEntries else 0)
            && (next != 0 ==> next % maxEntries == token % maxEntries)
  {
    UncappedOffset(|items|, token, maxEntries);
    DivModStep(token, maxEntries);
  }

  /** The first call is right whatever the page size: several pages are stitched
      together when the API caps them below maxEntries. */
  lemma FirstCallExact<T>(items: seq<T>, p: nat, maxEntries: int32)
    requires |items| < TWO_31
    ensures Window(items, p, 0, maxEntries)
         == if 0 < maxEntries && maxEntries < |items| then items[..maxEntries] else items
    ensures NextToken(|items|, p, 0, maxEntries) == if 0 < maxEntries && maxEntries < |items| then maxEntries + 1 else 0
  {
    assert TruncDiv(0, Max(maxEntries, 1)) == 0;
    assert Offset(|items|, p, 0, maxEntries) == 0;
  }

  /** Without maxEntries, a token within the first page yields the whole suffix
      from there; one beyond it yields all that follows the first page. */
  lemma UnlimitedExact<T>(items: seq<T>, p: nat, token: int32, maxEntries: int32)
    requires maxEntries <= 0
    ensures Window(items, p, token, maxEntries) == items[Min(|items|, Min(Max(token - 1, 0), p))..]
    ensures NextToken(|items|, p, token, maxEntries) == 0
  {
  }

  lemma TruncExact(a: int, b: int)
    requires 0 < b && a < 0
    ensures TruncDiv(a, b) <= -2 <==> a <= -2 * b
    ensures TruncDiv(a, b) <= 0 && TruncMod(a, b) <= 0
  {
    var q := (-a) / b;
    assert -a == q * b + (-a) % b;
    if 2 <= q {
      assert 2 * b <= q * b;
    } else {
      assert q * b <= b;
    }
  }

  /** A negative token starts at the first item, except that one below twice the
      negated maxEntries asks for a page before the first, which fails. */
  lemma NegativeToken<T>(server: Server<T>, token: int32, maxEntries: int32)
    requires server.Valid() && server.failing == {} && token < 0 < maxEntries
    ensures ListingFails(server, token, maxEntries) <==> token <= -2 * maxEntries
    ensures -2 * maxEntries < token ==>
              var items := server.items;
              Window(items, server.PageSize(maxEntries), token, maxEntries) == items[..Min(maxEntries, |items|)]
  {
    TruncExact(token, maxEntries);
    var k := PagesFor(|server.items|, server.PageSize(maxEntries), token, maxEntries);
    if token <= -2 * maxEntries {
      assert server.Fails(PageAt(FirstPage(token, maxEntries), 0));
    }
  }

  // ---- Chains --------------------------------------------------------------

  /** The next call starts where this one ends. */
  lemma NextOffset(n: nat, token: int32, maxEntries: int32)
    requires n < TWO_31 && 1 <= token && 1 <= maxEntries
    ensures var b := Offset(n, maxEntries, token, maxEntries);
            var next := NextToken(n, maxEntries, token, maxEntries);
            if n <= b + maxEntries then next == 0
            else next == token + maxEntries && Offset(n, maxEntries, next, maxEntries) == b + maxEntries
  {
    UncappedOffset(n, token, maxEntries);
    UncappedOffset(n, token + maxEntries, maxEntries);
    DivModStep(token, maxEntries);
  }

  lemma SecondOffset(n: nat, maxEntries: nat)
    requires 1 <= maxEntries < n
    ensures Offset(n, maxEntries, maxEntries + 1, maxEntries) == if maxEntries == 1 then 2 else maxEntries
  {
    UncappedOffset(n, maxEntries + 1, maxEntries);
    if 1 < maxEntries {
      DivModUnique(maxEntries + 1, maxEntries, 1, 1);
    }
  }

  /** From any token, a chain without a page size cap leaves no gap and repeats
      nothing, in the fewest calls. */
  lemma {:induction false} ChainFromToken<T>(items: seq<T>, token: int32, maxEntries: int32)
    requires |items| < TWO_31 && 1 <= token && 1 <= maxEntries
    ensures var b := Offset(|items|, maxEntries, token, maxEntries);
            && Flatten(Chain(items, maxEntries, token, maxEntries)) == items[b..]
            && |Chain(items, maxEntries, token, maxEntries)| == Max(1, CeilDiv(|items| - b, maxEntries))
    decreases TWO_31 - token
  {
    var n := |items|;
    var b := Offset(n, maxEntries, token, maxEntries);
    var chain := Chain(items, maxEntries, token, maxEntries);
    var next := NextToken(n, maxEntries, token, maxEntries);
    NextOffset(n, token, maxEntries);
    if 0 < next {
      ChainFromToken(items, next, maxEntries);
      assert chain[1..] == Chain(items, maxEntries, next, maxEntries);
      assert items[b..b + maxEntries] + items[b + maxEntries..] == items[b..];
    } else {
      assert chain[1..] == [];
      assert chain[0] == items[b..];
    }
  }

  lemma PrefixAndRest<T>(items: seq<T>, k: nat)
    ensures k <= |items| ==> items[..k] + items[k..] == items
  {
  }

  /** Chain completeness: from the empty token, every item exactly once, in order,
      in the fewest calls that maxEntries allows. */
  lemma ChainComplete<T>(items: seq<T>, maxEntries: int32)
    requires |items| < TWO_31 && 2 <= maxEntries
    ensures Flatten(Chain(items, maxEntries, 0, maxEntries)) == items
    ensures |Chain(items, maxEntries, 0, maxEntries)| == Max(1, CeilDiv(|items|, maxEntries))
  {
    ChainFromStart(items, maxEntries);
    PrefixAndRest(items, maxEntries);
  }

  /** A chain is its first call and the chain from its NextToken. */
  lemma ChainStep<T>(items: seq<T>, p: nat, token: int32, maxEntries: int32)
    requires 0 <= token
    ensures var chain, window := Chain(items, p, token, maxEntries), Window(items, p, token, maxEntries);
            var next := NextToken(|items|, p, token, maxEntries);
            if next <= 0 then chain == [window] && Flatten(chain) == window
            else
              && |chain| == 1 + |Chain(items, p, next, maxEntries)|
              && Flatten(chain) == window + Flatten(Chain(items, p, next, maxEntries))
  {
    var chain, next := Chain(items, p, token, maxEntries), NextToken(|items|, p, token, maxEntries);
    if next <= 0 {
      assert chain[1..] == [];
    } else {
      assert chain[1..] == Chain(items, p, next, maxEntries);
    }
  }

  /** The first call of a chain, and what is left to the others. */
  lemma ChainFromStart<T>(items: seq<T>, maxEntries: int32)
    requires |items| < TWO_31 && 1 <= maxEntries
    ensures var chain := Chain(items, maxEntries, 0, maxEntries);
            if |items| <= maxEntries then chain == [items] && Flatten(chain) == items
            else
              var b := if maxEntries == 1 then 2 else maxEntries;
              && Flatten(chain) == items[..maxEntries] + items[b..]
              && |chain| == 1 + Max(1, CeilDiv(|items| - b, maxEntries))
  {
    FirstCallExact(items, maxEntries, maxEntries);
    ChainStep(items, maxEntries, 0, maxEntries);
    if maxEntries < |items| {
      ChainFromToken(items, maxEntries + 1, maxEntries);
      SecondOffset(|items|, maxEntries);
    }
  }

  /** With maxEntries 1 the second token is 2, a multiple of maxEntries, and the
      chain omits exactly the second item. */
  lemma ChainOfOneOmitsSecond<T>(items: seq<T>)
    requires 2 <= |items| < TWO_31
    ensures Flatten(Chain(items, 1, 0, 1)) == items[..1] + items[2..]
  {
    ChainFromStart(items, 1);
  }

  ghost predicate Distinct<T(!new)>(items: seq<T>) {
    forall i, j :: 0 <= i < j < |items| ==> items[i] != items[j]
  }

  /** Above the page size cap, the second call starts at the second page of the
      API although the first one has already gone past it. */
  lemma CappedSecondCall<T>(items: seq<T>, p: nat, maxEntries: int32)
    requires |items| < TWO_31 && 1 <= p < maxEntries < |items|
    ensures var flat := Flatten(Chain(items, p, 0, maxEntries));
            && maxEntries < |flat|
            && flat[maxEntries] == items[p]
  {
    var chain := Chain(items, p, 0, maxEntries);
    FirstCallExact(items, p, maxEntries);
    var next := maxEntries + 1;
    DivModUnique(next, maxEntries, 1, 1);
    assert PageStart(2, p) == p;
    assert Offset(|items|, p, next, maxEntries) == p;
    assert chain[1..] == Chain(items, p, next, maxEntries);
    assert chain[1][0] == items[p];
    assert Flatten(chain[1..])[0] == items[p];
  }

  /** Exactly when following NextToken from the empty token returns the inventory:
      when one call suffices, or when maxEntries is at least two and no larger than
      the pages the API serves. */
  lemma ChainExact<T(!new)>(server: Server<T>, maxEntries: int32)
    requires server.Valid() && |server.items| < TWO_31 && Distinct(server.items)
    ensures Flatten(Chain(server.items, server.PageSize(maxEntries), 0, maxEntries)) == server.items
       <==> maxEntries <= 0 || |server.items| <= maxEntries || 2 <= maxEntries <= server.cap
  {
    var items, p := server.items, server.PageSize(maxEntries);
    var chain := Chain(items, p, 0, maxEntries);
    FirstCallExact(items, p, maxEntries);
    if maxEntries <= 0 || |items| <= maxEntries {
      assert chain == [items] && chain[1..] == [];
    } else if server.cap < maxEntries {
      CappedSecondCall(items, p, maxEntries);
      assert items[p] != items[maxEntries];
    } else if maxEntries == 1 {
      ChainOfOneOmitsSecond(items);
      assert |Flatten(chain)| == |items| - 1;
    } else {
      ChainComplete(items, maxEntries);
    }
  }

  // ---- Filtering -----------------------------------------------------------

  function Filter<T>(keep: T -> bool, xs: seq<T>): seq<T> {
    if xs == [] then [] else (if keep(xs[0]) then [xs[0]] else []) + Filter(keep, xs[1..])
  }

  lemma {:induction false} FilterConcat<T>(keep: T -> bool, xs: seq<T>, ys: seq<T>)
    ensures Filter(keep, xs + ys) == Filter(keep, xs) + Filter(keep, ys)
  {
    if xs == [] {
      assert xs + ys == ys;
    } else {
      FilterConcat(keep, xs[1..], ys);
      assert (xs + ys)[0] == xs[0] && (xs + ys)[1..] == xs[1..] + ys;
      var head := if keep(xs[0]) then [xs[0]] else [];
      assert head + (Filter(keep, xs[1..]) + Filter(keep, ys)) == (head + Filter(keep, xs[1..])) + Filter(keep, ys);
    }
  }

  function FilterEach<T>(keep: T -> bool, xss: seq<seq<T>>): seq<seq<T>> {
    if xss == [] then [] else [Filter(keep, xss[0])] + FilterEach(keep, xss[1..])
  }

  /** Filtering page by page is filtering the whole. */
  lemma {:induction false} FilterFlatten<T>(keep: T -> bool, xss: seq<seq<T>>)
    ensures Flatten(FilterEach(keep, xss)) == Filter(keep, Flatten(xss))
  {
    if xss != [] {
      FilterFlatten(keep, xss[1..]);
      FilterConcat(keep, xss[0], Flatten(xss[1..]));
      assert FilterEach(keep, xss)[1..] == FilterEach(keep, xss[1..]);
    }
  }
}
