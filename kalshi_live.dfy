/** The live-leader resolver of api/kalshi-live.js: for a date, read the markets
    of the event under its long ticker spelling, keep the open ones, and report
    the one with the highest implied YES probability. The HTTP reply is an input. */
module KalshiLive {
  import opened Js
  import Kalshi

  /** `toKalshiEventTicker(date)`: only the long spelling. */
  function ToKalshiEventTicker(date: string): (t: string)
    requires Kalshi.DateShape(date)
    ensures t == Kalshi.MakeTickers(date)[1]
    ensures |t| >= 9 && t[..9] == Kalshi.LongPrefix
  {
    "KXHIGHNY-" + date[2..4] + Kalshi.MonthAbbrev(Kalshi.MonthNumber(date)) + date[8..10]
  }

  // ---------------------------------------------------------------------------
  // Defensive numeric extraction

  /** `numOrNull(x)`: `Number(x)` when it is finite. */
  function NumOrNull(x: Json): (r: Option<real>)
    ensures r.Some? <==> ToNumber(x).Finite?
    ensures r.Some? ==> r.value == ToNumber(x).r
    ensures x.Null? ==> r == Some(0.0)
    ensures x.Undefined? ==> r == None
    ensures x.Num? ==> r == Some(x.n)
  {
    match ToNumber(x)
    case Finite(v) => Some(v)
    case _ => None
  }

  /** A step of a property path: a property name or an array index. */
  datatype Key = Name(name: string) | Index(index: nat)

  function DigitChar(d: nat): char
    requires d < 10
  {
    ('0' as int + d) as char
  }

  /** The decimal spelling of a number, as a property key. */
  function NatToString(n: nat): (s: string)
    ensures |s| >= 1
    decreases n
  {
    if n < 10 then [DigitChar(n)] else NatToString(n / 10) + [DigitChar(n % 10)]
  }

  function KeyString(k: Key): string {
    match k
    case Name(s) => s
    case Index(i) => NatToString(i)
  }

  /** `typeof cur === "object"` */
  predicate TypeofObject(v: Json) {
    v.Null? || v.Arr? || v.Obj?
  }

  /** `k in cur` for an object or an array. Array properties named by a string
      (`length`, numeric strings) are not modelled: the paths walked here index
      arrays by number only. */
  predicate Has(cur: Json, k: Key) {
    match cur
    case Obj(fields) => KeyString(k) in fields
    case Arr(items) => k.Index? && k.index < |items|
    case _ => false
  }

  function Child(cur: Json, k: Key): Json
    requires Has(cur, k)
  {
    match cur
    case Obj(fields) => fields[KeyString(k)]
    case Arr(items) => items[k.index]
  }

  /** The value at the end of a path, if every step lands on an object or array
      that has the next key. */
  function Walk(v: Json, path: seq<Key>): (r: Option<Json>)
    ensures path == [] ==> r == Some(v)
    decreases |path|
  {
    if path == [] then Some(v)
    else if Truthy(v) && TypeofObject(v) && Has(v, path[0]) then Walk(Child(v, path[0]), path[1..])
    else None
  }

  /** What `pathNum(obj, path)` returns. */
  function PathValue(obj: Json, path: seq<Key>): Option<real> {
    match Walk(obj, path)
    case None => None
    case Some(leaf) => NumOrNull(leaf)
  }

  /** Walking a path in two pieces is walking it at once. */
  lemma {:induction false} WalkAppend(v: Json, p: seq<Key>, q: seq<Key>)
    ensures Walk(v, p + q) == match Walk(v, p) case None => None case Some(u) => Walk(u, q)
    decreases |p|
  {
    if p == [] {
      assert p + q == q;
    } else {
      assert (p + q)[0] == p[0] && (p + q)[1..] == p[1..] + q;
      if Truthy(v) && TypeofObject(v) && Has(v, p[0]) {
        WalkAppend(Child(v, p[0]), p[1..], q);
      }
    }
  }

  /** `pathNum` gives null as soon as a step meets a falsy value, a value that is
      not an object, or a missing key, whatever the rest of the path is. */
  lemma PathStopsAtFailedStep(obj: Json, path: seq<Key>, i: nat)
    requires i < |path|
    requires Walk(obj, path[..i]).Some?
    requires var cur := Walk(obj, path[..i]).value;
      !Truthy(cur) || !TypeofObject(cur) || !Has(cur, path[i])
    ensures PathValue(obj, path) == None
  {
    assert path == path[..i] + path[i..];
    WalkAppend(obj, path[..i], path[i..]);
  }

  /** `pathNum(obj, path)` */
  method PathNum(obj: Json, path: seq<Key>) returns (r: Option<real>)
    ensures r == PathValue(obj, path)
  {
    var cur := obj;
    for i := 0 to |path|
      invariant Walk(obj, path) == Walk(cur, path[i..])
    {
      var k := path[i];
      assert path[i..][0] == k && path[i..][1..] == path[i + 1..];
      if !Truthy(cur) || !TypeofObject(cur) || !Has(cur, k) {
        return None;
      }
      cur := Child(cur, k);
    }
    assert path[|path|..] == [];
    return NumOrNull(cur);
  }

  // ---------------------------------------------------------------------------
  // Implied YES probability

  const PriceFields: seq<string> := ["last_price", "last_trade_price", "yes_price", "last_trade", "close_price"]
  const BidPath: seq<Key> := [Name("order_book"), Name("yes"), Name("best_bid"), Name("price")]
  const BidsPath: seq<Key> := [Name("order_book"), Name("bids"), Index(0), Name("price")]
  const AskPath: seq<Key> := [Name("order_book"), Name("yes"), Name("best_ask"), Name("price")]
  const AsksPath: seq<Key> := [Name("order_book"), Name("asks"), Index(0), Name("price")]

  /** fields[i] is the first field of m whose value converts to a finite number. */
  predicate FirstFinite(m: Json, fields: seq<string>, i: int)
    requires !Nullish(m)
  {
    0 <= i < |fields| && NumOrNull(Prop(m, fields[i])).Some?
    && forall j :: 0 <= j < i ==> NumOrNull(Prop(m, fields[j])).None?
  }

  /** `fields.map(f => numOrNull(m[f])).filter(n => n != null)`: the finite
      values among the fields, in field order. */
  function Candidates(m: Json, fields: seq<string>): (cs: seq<real>)
    requires !Nullish(m)
    ensures |cs| <= |fields|
  {
    if fields == [] then []
    else
      var rest := Candidates(m, fields[1..]);
      match NumOrNull(Prop(m, fields[0]))
      case Some(x) => [x] + rest
      case None => rest
  }

  /** The first candidate is the value of the first field that converts to a
      finite number, and there is none exactly when no field does. */
  lemma {:induction false} CandidatesFirst(m: Json, fields: seq<string>)
    requires !Nullish(m)
    ensures Candidates(m, fields) == [] <==> forall i :: 0 <= i < |fields| ==> NumOrNull(Prop(m, fields[i])).None?
    ensures forall i :: FirstFinite(m, fields, i) ==> Candidates(m, fields)[0] == NumOrNull(Prop(m, fields[i])).value
  {
    if fields != [] {
      CandidatesFirst(m, fields[1..]);
      assert forall i :: 1 <= i < |fields| ==> fields[i] == fields[1..][i - 1];
      forall i | FirstFinite(m, fields, i)
        ensures Candidates(m, fields)[0] == NumOrNull(Prop(m, fields[i])).value
      {
        if i > 0 {
          assert FirstFinite(m, fields[1..], i - 1);
        }
      }
    }
  }

  /** The best bid: `order_book.yes.best_bid.price`, else `order_book.bids[0].price`. */
  function BestBid(m: Json): Option<real> {
    OrElse(PathValue(m, BidPath), PathValue(m, BidsPath))
  }

  /** The best ask, found the same way. */
  function BestAsk(m: Json): Option<real> {
    OrElse(PathValue(m, AskPath), PathValue(m, AsksPath))
  }

  /** The order-book price: the midpoint when both sides are present, otherwise
      the side that is. A crossed book is not rejected. */
  function BookPrice(m: Json): Option<real> {
    Midpoint(BestBid(m), BestAsk(m))
  }

  function Midpoint(bid: Option<real>, ask: Option<real>): Option<real> {
    if bid.Some? && ask.Some? then Some((bid.value + ask.value) / 2.0)
    else if bid.Some? then bid
    else ask
  }

  /** The book price lies between the bid and the ask; with one side missing
      it is the other side, and with both missing there is none. */
  lemma BookPriceBetween(m: Json)
    ensures BookPrice(m).None? <==> BestBid(m).None? && BestAsk(m).None?
    ensures BestBid(m).Some? && BestAsk(m).Some? ==>
      var p, bid, ask := BookPrice(m).value, BestBid(m).value, BestAsk(m).value;
      (bid <= p <= ask || ask <= p <= bid) && p - bid == ask - p
    ensures BestBid(m).Some? && BestAsk(m).None? ==> BookPrice(m) == BestBid(m)
    ensures BestBid(m).None? && BestAsk(m).Some? ==> BookPrice(m) == BestAsk(m)
  {
  }

  /** The raw price before unit normalisation: the first finite direct field,
      else the order book when `m.order_book` is truthy. */
  function RawPrice(m: Json): Option<real>
    requires !Nullish(m)
  {
    var cs := Candidates(m, PriceFields);
    if cs != [] then Some(cs[0])
    else if Truthy(Prop(m, "order_book")) then BookPrice(m)
    else None
  }

  /** Prices in (1, 100] are read as cents; anything outside [0, 1] after that
      is no signal. */
  function Normalize(p: Option<real>): (r: Option<real>)
    ensures r.Some? ==> 0.0 <= r.value <= 1.0
    ensures p.Some? && 0.0 <= p.value <= 1.0 ==> r == p
    ensures p.Some? && 1.0 < p.value <= 100.0 ==> r == Some(p.value / 100.0)
    ensures p.None? || p.value < 0.0 || p.value > 100.0 ==> r.None?
  {
    if p.None? then None
    else
      var x := if p.value > 1.0 && p.value <= 100.0 then p.value / 100.0 else p.value;
      if x < 0.0 || x > 1.0 then None else Some(x)
  }

  /** What `impliedYesProb(m)` returns. */
  function Score(m: Json): Option<real>
    requires !Nullish(m)
  {
    Normalize(RawPrice(m))
  }

  /** Normalising twice is normalising once. */
  lemma NormalizeIdempotent(p: Option<real>)
    ensures Normalize(Normalize(p)) == Normalize(p)
  {
  }

  /** A price of 100x dollars, for x above one cent, reads as x dollars. */
  lemma CentsReadAsDollars(x: real)
    requires 0.01 < x <= 1.0
    ensures Normalize(Some(100.0 * x)) == Some(x)
  {
  }

  lemma {:induction false} CandidatesIgnoreOtherFields(m: Json, v: Json, key: string, fields: seq<string>)
    requires m.Obj? && key !in fields
    ensures Candidates(Obj(m.fields[key := v]), fields) == Candidates(m, fields)
  {
    if fields != [] {
      CandidatesIgnoreOtherFields(m, v, key, fields[1..]);
    }
  }

  lemma OrderBookIsNoPriceField()
    ensures "order_book" !in PriceFields
  {
    assert forall i :: 0 <= i < |PriceFields| ==> PriceFields[i][0] != 'o';
  }

  /** When a direct price field is finite, the order book is never consulted:
      replacing `order_book` with anything leaves the probability unchanged. */
  lemma DirectPriceShadowsBook(m: Json, book: Json)
    requires m.Obj? && Candidates(m, PriceFields) != []
    ensures Score(Obj(m.fields["order_book" := book])) == Score(m)
  {
    OrderBookIsNoPriceField();
    CandidatesIgnoreOtherFields(m, book, "order_book", PriceFields);
  }

  /** `Number(null)` is 0, so a JSON null in `last_price` is a price of 0, not a
      missing one. */
  lemma NullPriceIsZero()
    ensures Score(Obj(map["last_price" := Null, "yes_price" := Num(0.4)])) == Some(0.0)
  {
    var m := Obj(map["last_price" := Null, "yes_price" := Num(0.4)]);
    assert Prop(m, PriceFields[0]) == Null;
  }

  /** A market with no price fields whose book quotes `yes.best_bid` and
      `yes.best_ask`. */
  function QuotedBook(bid: real, ask: real): Json {
    var side := map["best_bid" := Obj(map["price" := Num(bid)]), "best_ask" := Obj(map["price" := Num(ask)])];
    Obj(map["order_book" := Obj(map["yes" := Obj(side)])])
  }

  lemma QuotedBookBid(bid: real, ask: real)
    ensures BestBid(QuotedBook(bid, ask)) == Some(bid)
  {
    var m := QuotedBook(bid, ask);
    var book := Prop(m, "order_book");
    var side := Prop(book, "yes");
    assert Walk(m, BidPath) == Walk(book, BidPath[1..]);
    assert Walk(book, BidPath[1..]) == Walk(side, BidPath[2..]);
    assert Walk(side, BidPath[2..]) == Walk(Obj(map["price" := Num(bid)]), BidPath[3..]);
    assert Walk(Obj(map["price" := Num(bid)]), BidPath[3..]) == Some(Num(bid));
  }

  lemma QuotedBookAsk(bid: real, ask: real)
    ensures BestAsk(QuotedBook(bid, ask)) == Some(ask)
  {
    assert "best_bid"[5] != "best_ask"[5];
    var m := QuotedBook(bid, ask);
    var book := Prop(m, "order_book");
    var side := Prop(book, "yes");
    assert Walk(m, AskPath) == Walk(book, AskPath[1..]);
    assert Walk(book, AskPath[1..]) == Walk(side, AskPath[2..]);
    assert Walk(side, AskPath[2..]) == Walk(Obj(map["price" := Num(ask)]), AskPath[3..]);
    assert Walk(Obj(map["price" := Num(ask)]), AskPath[3..]) == Some(Num(ask));
  }

  lemma QuotedBookPrice(bid: real, ask: real)
    ensures BookPrice(QuotedBook(bid, ask)) == Some((bid + ask) / 2.0)
  {
    QuotedBookBid(bid, ask);
    QuotedBookAsk(bid, ask);
  }

  /** A market with none of the price fields has no direct price. */
  lemma NoPriceFields(m: Json)
    requires m.Obj? && forall f :: f in PriceFields ==> f !in m.fields
    ensures Candidates(m, PriceFields) == []
  {
    CandidatesFirst(m, PriceFields);
    assert forall i :: 0 <= i < |PriceFields| ==> Prop(m, PriceFields[i]) == Undefined;
  }

  /** Without a finite price field, a truthy `order_book` decides the price. */
  lemma BookFallback(m: Json)
    requires !Nullish(m) && Candidates(m, PriceFields) == [] && Truthy(Prop(m, "order_book"))
    ensures Score(m) == Normalize(BookPrice(m))
  {
  }

  /** A book quoted in cents reads as the midpoint in dollars (a bid of 62 and
      an ask of 68 give 0.65). A crossed book, bid above ask, is not rejected. */
  lemma BookMidpointInCents(bid: real, ask: real)
    requires 1.0 < bid <= 100.0 && 1.0 < ask <= 100.0
    ensures Score(QuotedBook(bid, ask)) == Some((bid + ask) / 200.0)
  {
    assert Normalize(Some((bid + ask) / 2.0)) == Some((bid + ask) / 200.0);
    var m := QuotedBook(bid, ask);
    assert Candidates(m, PriceFields) == [] by {
      OrderBookIsNoPriceField();
      assert m.fields.Keys == {"order_book"};
      NoPriceFields(m);
    }
    QuotedBookPrice(bid, ask);
    BookFallback(m);
  }

  // ---------------------------------------------------------------------------
  // Open markets and the leader

  /** `String(status || "").toLowerCase() === "open"`. A one-element array
      stringifies as its element; every other non-string value stringifies to
      something other than "open", or throws when it is (or holds) an object
      with its own `toString` key: that throw is not modelled here. */
  predicate StatusReadsOpen(status: Json)
    decreases status
  {
    match status
    case Str(s) => Lower(s) == "open"
    case Arr(xs) => |xs| == 1 && !Nullish(xs[0]) && StatusReadsOpen(xs[0])
    case _ => false
  }

  predicate IsOpen(m: Json)
    requires !Nullish(m)
  {
    StatusReadsOpen(Prop(m, "status"))
  }

  /** `markets.filter(m => String(m.status || "").toLowerCase() === "open")`;
      reading the status of null or undefined throws. */
  function OpenMarkets(xs: seq<Json>): (r: Completion<seq<Json>>)
    ensures r.Throw? <==> exists m :: m in xs && Nullish(m)
    ensures r.Normal? ==> forall m :: m in r.value ==> m in xs && m.Obj? && IsOpen(m)
    ensures r.Normal? ==> forall m :: m in xs && !Nullish(m) && IsOpen(m) ==> m in r.value
  {
    if xs == [] then Normal([])
    else if Nullish(xs[0]) then Throw
    else
      match OpenMarkets(xs[1..])
      case Throw => Throw
      case Normal(rest) => Normal(if IsOpen(xs[0]) then [xs[0]] + rest else rest)
  }

  /** The filter works element by element and keeps the list order: a
      single market is kept exactly when it is open, and the open markets of
      a concatenation are those of its halves, concatenated. */
  lemma {:induction false} OpenMarketsAppend(xs: seq<Json>, ys: seq<Json>)
    ensures OpenMarkets(xs + ys) ==
      match (OpenMarkets(xs), OpenMarkets(ys))
      case (Normal(a), Normal(b)) => Normal(a + b)
      case _ => Throw
  {
    if xs == [] {
      assert xs + ys == ys;
      if OpenMarkets(ys).Normal? {
        assert [] + OpenMarkets(ys).value == OpenMarkets(ys).value;
      }
    } else {
      var x, zs := xs[0], xs + ys;
      assert zs[0] == x && zs[1..] == xs[1..] + ys;
      OpenMarketsAppend(xs[1..], ys);
      if !Nullish(x) {
        match (OpenMarkets(xs[1..]), OpenMarkets(ys))
        case (Normal(a), Normal(b)) =>
          if IsOpen(x) {
            assert [x] + (a + b) == ([x] + a) + b;
          }
        case _ =>
      }
    }
  }

  lemma OpenMarketsSingle(x: Json)
    ensures OpenMarkets([x]) ==
      if Nullish(x) then Throw else Normal(if IsOpen(x) then [x] else [])
  {
    assert [x][0] == x && [x][1..] == [] && [x] + [] == [x];
    assert OpenMarkets([]) == Normal([]);
  }

  /** `Array.isArray(j?.markets) ? j.markets : []` */
  function MarketList(j: Json): (xs: seq<Json>)
    ensures OptProp(j, "markets").Arr? ==> xs == OptProp(j, "markets").items
    ensures !OptProp(j, "markets").Arr? ==> xs == []
  {
    var listed := OptProp(j, "markets");
    if listed.Arr? then listed.items else []
  }

  /** `m.subtitle || m.title || m.ticker || "Range"` */
  function LabelOf(m: Json): (shown: Json)
    requires !Nullish(m)
    ensures Truthy(shown)
  {
    FirstTruthy([Prop(m, "subtitle"), Prop(m, "title"), Prop(m, "ticker")], Str("Range"))
  }

  /** `{ prob, label, ticker }` */
  datatype Best = Best(prob: real, shown: Json, ticker: Json)

  function BestOf(m: Json): Best
    requires !Nullish(m) && Score(m).Some?
  {
    Best(Score(m).value, LabelOf(m), Prop(m, "ticker"))
  }

  /** The implied probability of each market, in list order. */
  function Scores(open: seq<Json>): (s: seq<Option<real>>)
    requires forall m :: m in open ==> !Nullish(m)
    ensures |s| == |open|
    ensures forall j :: 0 <= j < |open| ==> s[j] == Score(open[j])
  {
    seq(|open|, j requires 0 <= j < |open| => Score(open[j]))
  }

  /** s[i] is the highest score among the scores of s[..n], and every earlier
      one is strictly lower. */
  predicate LeadsPrefix(s: seq<Option<real>>, i: int, n: int)
    requires 0 <= n <= |s|
  {
    0 <= i < n && s[i].Some?
    && forall j :: 0 <= j < n && s[j].Some? ==> s[j].value <= s[i].value && (j < i ==> s[j].value < s[i].value)
  }

  /** open[i] is the market the handler reports: the first market with the
      highest implied probability. */
  predicate IsLeader(open: seq<Json>, i: int)
    requires forall m :: m in open ==> !Nullish(m)
  {
    LeadsPrefix(Scores(open), i, |open|)
  }

  /** The leader is unique. */
  lemma LeaderUnique(open: seq<Json>, i: int, k: int)
    requires forall m :: m in open ==> !Nullish(m)
    requires IsLeader(open, i) && IsLeader(open, k)
    ensures i == k
  {
  }

  /** If some market has a score, a leader exists. */
  lemma {:induction false} LeaderExists(s: seq<Option<real>>, n: nat)
    requires n <= |s|
    requires exists j :: 0 <= j < n && s[j].Some?
    ensures exists i :: LeadsPrefix(s, i, n)
  {
    if n > 0 {
      if exists j :: 0 <= j < n - 1 && s[j].Some? {
        LeaderExists(s, n - 1);
        var i :| LeadsPrefix(s, i, n - 1);
        if s[n - 1].Some? && s[n - 1].value > s[i].value {
          assert LeadsPrefix(s, n - 1, n);
        } else {
          assert LeadsPrefix(s, i, n);
        }
      } else {
        assert LeadsPrefix(s, n - 1, n);
      }
    }
  }

  lemma LeadsKeep(s: seq<Option<real>>, at: int, i: nat)
    requires i < |s| && LeadsPrefix(s, at, i)
    requires s[i].None? || s[i].value <= s[at].value
    ensures LeadsPrefix(s, at, i + 1)
  {
  }

  lemma LeadsTake(s: seq<Option<real>>, i: nat)
    requires i < |s| && s[i].Some?
    requires forall j :: 0 <= j < i ==> s[j].None? || s[j].value < s[i].value
    ensures LeadsPrefix(s, i, i + 1)
  {
  }

  /** The loop over the open markets: skip the unscored ones and keep the first
      market that beats the best so far (strict `>`). */
  method Leader(open: seq<Json>) returns (best: Option<Best>)
    requires forall m :: m in open ==> !Nullish(m)
    ensures best.None? <==> forall j :: 0 <= j < |open| ==> Score(open[j]).None?
    ensures best.Some? ==> exists i :: IsLeader(open, i) && best.value == BestOf(open[i])
  {
    best := None;
    ghost var s := Scores(open);
    ghost var at := 0;
    for i := 0 to |open|
      invariant best.None? <==> forall j :: 0 <= j < i ==> s[j].None?
      invariant best.Some? ==> LeadsPrefix(s, at, i) && best.value == BestOf(open[at])
    {
      var m := open[i];
      var prob := ImpliedYesProb(m);
      assert prob == s[i];
      if prob.None? {
        if best.Some? {
          LeadsKeep(s, at, i);
        }
        continue;
      }
      if best.None? || prob.value > best.value.prob {
        LeadsTake(s, i);
        best := Some(Best(prob.value, LabelOf(m), Prop(m, "ticker")));
        at := i;
      } else {
        LeadsKeep(s, at, i);
      }
    }
  }

  /** `pathNum(m, first) ?? pathNum(m, second)` */
  method EitherPathNum(m: Json, first: seq<Key>, second: seq<Key>) returns (r: Option<real>)
    ensures r == OrElse(PathValue(m, first), PathValue(m, second))
  {
    r := PathNum(m, first);
    if r.None? {
      r := PathNum(m, second);
    }
  }

  /** The order-book branch of `impliedYesProb`: each side from its first
      path, else its second; then the midpoint or the side present. */
  method BookQuote(m: Json) returns (p: Option<real>)
    ensures p == BookPrice(m)
  {
    var bestBid := EitherPathNum(m, BidPath, BidsPath);
    var bestAsk := EitherPathNum(m, AskPath, AsksPath);
    assert BookPrice(m) == Midpoint(bestBid, bestAsk);
    p := None;
    if bestBid.Some? && bestAsk.Some? {
      p := Some((bestBid.value + bestAsk.value) / 2.0);
    } else if bestBid.Some? {
      p := bestBid;
    } else if bestAsk.Some? {
      p := bestAsk;
    }
  }

  /** `impliedYesProb(m)` */
  method ImpliedYesProb(m: Json) returns (p: Option<real>)
    requires !Nullish(m)
    ensures p == Score(m)
    ensures p.Some? ==> 0.0 <= p.value <= 1.0
  {
    var candidates := Candidates(m, PriceFields);
    p := if |candidates| > 0 then Some(candidates[0]) else None;

    if p.None? && Truthy(Prop(m, "order_book")) {
      p := BookQuote(m);
    }
    assert p == RawPrice(m);
    assert Score(m) == Normalize(p);

    if p.None? {
      return None;
    }
    var x := p.value;
    if x > 1.0 && x <= 100.0 {
      x := x / 100.0;
    }
    if x < 0.0 || x > 1.0 {
      return None;
    }
    return Some(x);
  }

  // ---------------------------------------------------------------------------
  // The handler

  /** `Math.round(p * 100) / 100`; Math.round rounds halves up. */
  function RoundCents(p: real): (r: real)
    ensures p - 0.005 < r <= p + 0.005
    ensures 0.0 <= p <= 1.0 ==> 0.0 <= r <= 1.0
  {
    var n := (p * 100.0 + 0.5).Floor;
    assert n as real <= p * 100.0 + 0.5 < n as real + 1.0;
    n as real / 100.0
  }

  /** The handler's response: 400, 204, 200 with the leader, 502. */
  datatype Live =
    | BadRequest
    | NoContent
    | Leading(eventTicker: string, leadingLabel: Json, leadingProb: real)
    | UpstreamError

  /** The answer for the open markets of event t: 204 when no market has a
      usable price, otherwise the leader's label and its probability rounded
      to cents. */
  ghost predicate Reports(open: seq<Json>, t: string, res: Live)
    requires forall m :: m in open ==> !Nullish(m)
  {
    if forall j :: 0 <= j < |open| ==> Score(open[j]).None? then res == NoContent
    else
      res.Leading? && res.eventTicker == t
      && exists i :: 0 <= i < |open| && IsLeader(open, i)
           && res.leadingLabel == LabelOf(open[i])
           && res.leadingProb == RoundCents(Score(open[i]).value)
  }

  /** `handler(req, res)` of api/kalshi-live.js, with the one fetch answered by
      `upstream`. */
  method ResolveLive(date: Option<string>, upstream: Kalshi.Request -> Kalshi.Reply) returns (res: Live)
    ensures res == BadRequest <==> date.None? || !Kalshi.DateShape(date.value)
    ensures date.Some? && Kalshi.DateShape(date.value) ==>
      var reply := upstream(Kalshi.MarketsByEvent(ToKalshiEventTicker(date.value)));
      match reply
      case Body(j) =>
        (match OpenMarkets(MarketList(j))
         case Throw => res == UpstreamError
         case Normal(open) => Reports(open, ToKalshiEventTicker(date.value), res))
      case _ => res == UpstreamError
    ensures res.Leading? ==> 0.0 <= res.leadingProb <= 1.0
  {
    if date.None? || !Kalshi.DateShape(date.value) {
      return BadRequest;
    }
    var eventTicker := ToKalshiEventTicker(date.value);
    var reply := upstream(Kalshi.MarketsByEvent(eventTicker));
    if !reply.Body? {
      return UpstreamError;
    }
    var markets := MarketList(reply.json);
    var filtered := OpenMarkets(markets);
    if filtered.Throw? {
      return UpstreamError;
    }
    var open := filtered.value;
    if |open| == 0 {
      return NoContent;
    }
    var best := Leader(open);
    if best.None? {
      return NoContent;
    }
    ghost var i :| IsLeader(open, i) && best.value == BestOf(open[i]);
    res := Leading(eventTicker, best.value.shown, RoundCents(best.value.prob));
    assert Reports(open, eventTicker, res);
  }
}
