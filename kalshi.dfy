/** The settled-outcome resolver of api/kalshi.js: for a date, find the market of
    the "highest NYC temperature" event that settled, trying two ticker spellings
    and three upstream queries in a fixed order. The HTTP replies are inputs. */
module Kalshi {
  import opened Js

  // ---------------------------------------------------------------------------
  // Dates and tickers

  predicate IsDigit(c: char) {
    '0' <= c <= '9'
  }

  /** `/^\d{4}-\d{2}-\d{2}$/.test(date)`: shape only, no range check. */
  predicate DateShape(s: string) {
    |s| == 10 && s[4] == '-' && s[7] == '-'
    && IsDigit(s[0]) && IsDigit(s[1]) && IsDigit(s[2]) && IsDigit(s[3])
    && IsDigit(s[5]) && IsDigit(s[6]) && IsDigit(s[8]) && IsDigit(s[9])
  }

  const Months: seq<string> :=
    ["JAN", "FEB", "MAR", "APR", "MAY", "JUN", "JUL", "AUG", "SEP", "OCT", "NOV", "DEC"]

  /** `Number(M)` for the month field of a well-shaped date. */
  function MonthNumber(date: string): (m: nat)
    requires DateShape(date)
    ensures m <= 99
  {
    TwoDigitValue(date[5..7])
  }

  /** The month field is read the way `Number(M)` reads it. */
  lemma MonthIsNumber(date: string)
    requires DateShape(date)
    ensures StringToNumber(date[5..7]) == Finite(MonthNumber(date) as real)
  {
    TwoDigitNumber(date[5..7]);
  }

  /** `[...months][m - 1]` as a template literal renders it: an index outside the
      table reads `undefined`. */
  function MonthAbbrev(m: int): (r: string)
    ensures 1 <= m <= 12 ==> r == Months[m - 1] && |r| == 3
    ensures !(1 <= m <= 12) ==> r == "undefined"
  {
    if 1 <= m <= 12 then Months[m - 1] else "undefined"
  }

  /** `${yy}${mon}${D}`: the last two characters of the year, the month
      abbreviation and the day field as written. */
  function Suffix(date: string): string
    requires DateShape(date)
  {
    date[2..4] + MonthAbbrev(MonthNumber(date)) + date[8..10]
  }

  const ShortPrefix := "HIGHNY-"
  const LongPrefix := "KXHIGHNY-"

  /** The two event-ticker spellings, in the order they are tried. */
  function MakeTickers(date: string): (ts: seq<string>)
    requires DateShape(date)
    ensures |ts| == 2
    ensures ts[0] == ShortPrefix + Suffix(date) && ts[1] == LongPrefix + Suffix(date)
  {
    [ShortPrefix + Suffix(date), LongPrefix + Suffix(date)]
  }

  lemma MonthsDistinct(i: int, j: int)
    requires 0 <= i < 12 && 0 <= j < 12 && Months[i] == Months[j]
    ensures i == j
  {
    assert Months[i][0] == Months[j][0] && Months[i][1] == Months[j][1] && Months[i][2] == Months[j][2];
  }

  /** For dates whose month is in range, a ticker determines the year's last two
      digits, the month and the day field: distinct dates of this kind get
      distinct tickers, under either spelling. */
  lemma {:induction false} TickerDeterminesDate(d1: string, d2: string, k: nat)
    requires DateShape(d1) && DateShape(d2) && k < 2
    requires 1 <= MonthNumber(d1) <= 12 && 1 <= MonthNumber(d2) <= 12
    requires MakeTickers(d1)[k] == MakeTickers(d2)[k]
    ensures d1[2..4] == d2[2..4] && MonthNumber(d1) == MonthNumber(d2) && d1[8..10] == d2[8..10]
  {
    var p := if k == 0 then ShortPrefix else LongPrefix;
    var s1, s2 := Suffix(d1), Suffix(d2);
    assert p + s1 == p + s2;
    assert s1 == (p + s1)[|p|..] && s2 == (p + s2)[|p|..];
    assert |s1| == 7 && |s2| == 7;
    assert s1[..2] == d1[2..4] && s2[..2] == d2[2..4];
    assert s1[5..] == d1[8..10] && s2[5..] == d2[8..10];
    assert s1[2..5] == MonthAbbrev(MonthNumber(d1)) && s2[2..5] == MonthAbbrev(MonthNumber(d2));
    MonthsDistinct(MonthNumber(d1) - 1, MonthNumber(d2) - 1);
  }

  /** The month is not range-checked: every month outside 1..12 renders as
      `undefined`, so dates that differ only in such a month share their
      tickers. */
  lemma OutOfRangeMonthsCollide(d1: string, d2: string)
    requires DateShape(d1) && DateShape(d2)
    requires !(1 <= MonthNumber(d1) <= 12) && !(1 <= MonthNumber(d2) <= 12)
    requires d1[2..4] == d2[2..4] && d1[8..10] == d2[8..10]
    ensures MakeTickers(d1) == MakeTickers(d2)
    ensures MakeTickers(d1)[1] == LongPrefix + d1[2..4] + "undefined" + d1[8..10]
  {
  }

  /** "2024-00-05" and "2024-13-05" both give "KXHIGHNY-24undefined05". */
  lemma MonthZeroAndThirteenCollide()
    ensures DateShape("2024-00-05") && DateShape("2024-13-05")
    ensures MakeTickers("2024-00-05") == MakeTickers("2024-13-05")
    ensures MakeTickers("2024-13-05")[1] == "KXHIGHNY-24undefined05"
  {
    var d1, d2 := "2024-00-05", "2024-13-05";
    assert DateShape(d1) && DateShape(d2);
    assert MonthNumber(d1) == 0 && MonthNumber(d2) == 13;
    assert d1[2..4] == "24" == d2[2..4] && d1[8..10] == "05" == d2[8..10];
    OutOfRangeMonthsCollide(d1, d2);
  }

  // ---------------------------------------------------------------------------
  // Winner selection

  /** The three `markets.find` predicates, strongest signal first. */
  datatype Rule = ResultYes | HasSettlement | StatusClosed

  function Rank(rule: Rule): nat {
    match rule
    case ResultYes => 0
    case HasSettlement => 1
    case StatusClosed => 2
  }

  /** One `find` predicate applied to one element. Reading a property of null or
      undefined throws, and so does calling toLowerCase on a truthy status that
      is not a string. */
  function Test(rule: Rule, m: Json): (r: Completion<bool>)
    ensures r.Throw? <==>
      Nullish(m) || (rule == StatusClosed && Truthy(Prop(m, "status")) && !Prop(m, "status").Str?)
    ensures r == Normal(true) ==> m.Obj?
    ensures rule == ResultYes && !Nullish(m) ==> r == Normal(Prop(m, "result") == Str("yes"))
    ensures rule == HasSettlement && !Nullish(m) ==> r == Normal(!Nullish(Prop(m, "settlement_value")))
    ensures rule == StatusClosed && !Nullish(m) && !Truthy(Prop(m, "status")) ==> r == Normal(false)
    ensures rule == StatusClosed && !Nullish(m) && Prop(m, "status").Str? ==>
      r == Normal(Lower(Prop(m, "status").s) in {"finalized", "settled"})
  {
    if Nullish(m) then Throw
    else match rule
      case ResultYes => Normal(Prop(m, "result") == Str("yes"))
      case HasSettlement => Normal(!Nullish(Prop(m, "settlement_value")))
      case StatusClosed =>
        var status := Prop(m, "status");
        if !Truthy(status) then Normal(false)
        else if status.Str? then
          Normal(Lower(status.s) == "finalized" || Lower(status.s) == "settled")
        else Throw
  }

  /** xs[k] is the element `find` returns for the rule. */
  predicate FirstMatch(xs: seq<Json>, rule: Rule, k: int) {
    0 <= k < |xs| && Test(rule, xs[k]) == Normal(true)
    && forall j :: 0 <= j < k ==> Test(rule, xs[j]) == Normal(false)
  }

  /** The elements before index k neither match the rule nor throw. */
  predicate NoMatchBefore(xs: seq<Json>, rule: Rule, k: int)
    requires k <= |xs|
  {
    forall j :: 0 <= j < k ==> Test(rule, xs[j]) == Normal(false)
  }

  /** `find` scans every element and matches none. */
  predicate NoMatch(xs: seq<Json>, rule: Rule) {
    forall j :: 0 <= j < |xs| ==> Test(rule, xs[j]) == Normal(false)
  }

  /** `xs.find(rule)` from index i on, as an index into xs. */
  function FindFrom(xs: seq<Json>, rule: Rule, i: nat): (r: Completion<Option<nat>>)
    requires i <= |xs|
    requires forall j :: 0 <= j < i ==> Test(rule, xs[j]) == Normal(false)
    ensures r.Normal? && r.value.Some? ==> i <= r.value.value < |xs|
    decreases |xs| - i
  {
    if i == |xs| then Normal(None)
    else match Test(rule, xs[i])
      case Throw => Throw
      case Normal(true) => Normal(Some(i))
      case Normal(false) => FindFrom(xs, rule, i + 1)
  }

  /** `find` returns the first match, or nothing when no element matches, or
      throws at the first element whose test throws. */
  lemma {:induction false} FindFromSpec(xs: seq<Json>, rule: Rule, i: nat)
    requires i <= |xs|
    requires forall j :: 0 <= j < i ==> Test(rule, xs[j]) == Normal(false)
    ensures var r := FindFrom(xs, rule, i);
      && (r.Normal? && r.value.Some? ==> FirstMatch(xs, rule, r.value.value))
      && (r == Normal(None) ==> NoMatch(xs, rule))
      && (r.Throw? ==> exists k :: i <= k < |xs| && Test(rule, xs[k]).Throw? && NoMatchBefore(xs, rule, k))
      && (forall k :: FirstMatch(xs, rule, k) ==> r == Normal(Some(k)))
      && (NoMatch(xs, rule) ==> r == Normal(None))
    decreases |xs| - i
  {
    if i < |xs| && Test(rule, xs[i]) == Normal(false) {
      FindFromSpec(xs, rule, i + 1);
    }
  }

  function Find(xs: seq<Json>, rule: Rule): (r: Completion<Option<nat>>)
    ensures r.Normal? && r.value.Some? ==> r.value.value < |xs|
  {
    FindFrom(xs, rule, 0)
  }

  lemma FindSpec(xs: seq<Json>, rule: Rule)
    ensures var r := Find(xs, rule);
      && (r.Normal? && r.value.Some? ==> FirstMatch(xs, rule, r.value.value))
      && (r == Normal(None) ==> NoMatch(xs, rule))
      && (r.Throw? ==> exists k :: 0 <= k < |xs| && Test(rule, xs[k]).Throw? && NoMatchBefore(xs, rule, k))
      && (forall k :: FirstMatch(xs, rule, k) ==> r == Normal(Some(k)))
      && (NoMatch(xs, rule) ==> r == Normal(None))
  {
    FindFromSpec(xs, rule, 0);
  }

  /** xs[k] is the winner chosen by the rule: every stronger rule matched
      nothing and xs[k] is the first element the rule matches. */
  predicate Chosen(xs: seq<Json>, rule: Rule, k: int) {
    FirstMatch(xs, rule, k)
    && forall stronger: Rule :: Rank(stronger) < Rank(rule) ==> NoMatch(xs, stronger)
  }

  /** `pickWinner(markets)` */
  function PickWinner(markets: Json): (r: Completion<Option<Json>>)
    ensures !markets.Arr? ==> r == Normal(None)
  {
    if !markets.Arr? then Normal(None)
    else
      var xs := markets.items;
      match Find(xs, ResultYes)
      case Throw => Throw
      case Normal(Some(k)) => Normal(Some(xs[k]))
      case Normal(None) =>
        match Find(xs, HasSettlement)
        case Throw => Throw
        case Normal(Some(k)) => Normal(Some(xs[k]))
        case Normal(None) =>
          match Find(xs, StatusClosed)
          case Throw => Throw
          case Normal(Some(k)) => Normal(Some(xs[k]))
          case Normal(None) => Normal(None)
  }

  /** A winner is an element of the list chosen by one of the rules; no winner
      means no rule matched; a throw comes from some element's test. */
  lemma PickWinnerSpec(markets: Json)
    ensures var r := PickWinner(markets);
      && (r.Normal? && r.value.Some? ==>
            markets.Arr? && r.value.value.Obj?
            && exists rule: Rule, k :: Chosen(markets.items, rule, k) && r.value.value == markets.items[k])
      && (r == Normal(None) && markets.Arr? ==> forall rule: Rule :: NoMatch(markets.items, rule))
      && (r.Throw? ==>
            markets.Arr? && exists rule: Rule, k :: 0 <= k < |markets.items| && Test(rule, markets.items[k]).Throw?)
  {
    if markets.Arr? {
      var xs := markets.items;
      FindSpec(xs, ResultYes);
      FindSpec(xs, HasSettlement);
      FindSpec(xs, StatusClosed);
      match Find(xs, ResultYes)
      case Throw =>
      case Normal(Some(k)) => assert Chosen(xs, ResultYes, k);
      case Normal(None) =>
        match Find(xs, HasSettlement)
        case Throw =>
        case Normal(Some(k)) => assert Chosen(xs, HasSettlement, k);
        case Normal(None) =>
          match Find(xs, StatusClosed)
          case Throw =>
          case Normal(Some(k)) => assert Chosen(xs, StatusClosed, k);
          case Normal(None) =>
    }
  }

  lemma FindFirstMatch(xs: seq<Json>, rule: Rule, k: int)
    requires FirstMatch(xs, rule, k)
    ensures Find(xs, rule) == Normal(Some(k))
  {
    FindSpec(xs, rule);
  }

  /** The first market with result "yes" wins, whatever comes after it. */
  lemma YesWins(xs: seq<Json>, k: int)
    requires FirstMatch(xs, ResultYes, k)
    ensures PickWinner(Arr(xs)) == Normal(Some(xs[k]))
  {
    FindFirstMatch(xs, ResultYes, k);
  }

  /** With no "yes" market, the first market with a settlement value wins over
      any market whose status says it closed. */
  lemma SettlementBeatsStatus(xs: seq<Json>, k: int)
    requires NoMatch(xs, ResultYes) && FirstMatch(xs, HasSettlement, k)
    ensures PickWinner(Arr(xs)) == Normal(Some(xs[k]))
  {
    FindSpec(xs, ResultYes);
    FindFirstMatch(xs, HasSettlement, k);
  }

  /** The status rule is the last resort. */
  lemma StatusLast(xs: seq<Json>, k: int)
    requires NoMatch(xs, ResultYes) && NoMatch(xs, HasSettlement)
    requires FirstMatch(xs, StatusClosed, k)
    ensures PickWinner(Arr(xs)) == Normal(Some(xs[k]))
  {
    FindSpec(xs, ResultYes);
    FindSpec(xs, HasSettlement);
    FindFirstMatch(xs, StatusClosed, k);
  }

  /** [{result:"no"}, {result:"yes", settlement_value:5}, {settlement_value:9}]:
      the second market wins, never the third. */
  lemma PickWinnerExample()
    ensures
      var xs := [Obj(map["result" := Str("no")]),
                 Obj(map["result" := Str("yes"), "settlement_value" := Num(5.0)]),
                 Obj(map["settlement_value" := Num(9.0)])];
      PickWinner(Arr(xs)) == Normal(Some(xs[1]))
  {
    var xs := [Obj(map["result" := Str("no")]),
               Obj(map["result" := Str("yes"), "settlement_value" := Num(5.0)]),
               Obj(map["settlement_value" := Num(9.0)])];
    assert Test(ResultYes, xs[0]) == Normal(false);
    assert Test(ResultYes, xs[1]) == Normal(true);
    YesWins(xs, 1);
  }

  // ---------------------------------------------------------------------------
  // Winner to reported info

  /** `{ label, exactTemp }` */
  datatype Info = Info(labelText: Json, exactTemp: Option<JsNumber>)

  /** `winnerToInfo(w)` */
  function WinnerToInfo(w: Option<Json>): (r: Option<Info>)
    ensures r.Some? <==> w.Some? && Truthy(w.value)
    ensures r.Some? ==> Truthy(r.value.labelText)
  {
    if w.None? || !Truthy(w.value) then None
    else
      var m := w.value;
      var shown := FirstTruthy([Prop(m, "subtitle"), Prop(m, "title"), Prop(m, "ticker")], Str("Settled"));
      var exactTemp :=
        if !Nullish(Prop(m, "expiration_value")) then Some(ToNumber(Prop(m, "expiration_value")))
        else if !Nullish(Prop(m, "settlement_value")) then Some(ToNumber(Prop(m, "settlement_value")))
        else None;
      Some(Info(shown, exactTemp))
  }

  /** The label falls back from subtitle to title to ticker to "Settled"; the
      temperature prefers `expiration_value` to `settlement_value` and is
      absent only when both are null or undefined. */
  lemma InfoFallbacks(m: Json)
    requires Truthy(m)
    ensures var info, sub, title, ticker := WinnerToInfo(Some(m)).value, Prop(m, "subtitle"), Prop(m, "title"), Prop(m, "ticker");
      && (Truthy(sub) ==> info.labelText == sub)
      && (!Truthy(sub) && Truthy(title) ==> info.labelText == title)
      && (!Truthy(sub) && !Truthy(title) && Truthy(ticker) ==> info.labelText == ticker)
      && (!Truthy(sub) && !Truthy(title) && !Truthy(ticker) ==> info.labelText == Str("Settled"))
    ensures var info, exp, settle := WinnerToInfo(Some(m)).value, Prop(m, "expiration_value"), Prop(m, "settlement_value");
      && (info.exactTemp.None? <==> Nullish(exp) && Nullish(settle))
      && (!Nullish(exp) ==> info.exactTemp == Some(ToNumber(exp)))
      && (Nullish(exp) && !Nullish(settle) ==> info.exactTemp == Some(ToNumber(settle)))
  {
    var xs := [Prop(m, "subtitle"), Prop(m, "title"), Prop(m, "ticker")];
    assert !Truthy(xs[0]) && !Truthy(xs[1]) && Truthy(xs[2]) ==> FirstTruthy(xs, Str("Settled")) == xs[2];
  }

  /** {expiration_value: 82, settlement_value: 80} reports 82. */
  lemma ExpirationPreferred()
    ensures WinnerToInfo(Some(Obj(map["expiration_value" := Num(82.0), "settlement_value" := Num(80.0)])))
      == Some(Info(Str("Settled"), Some(Finite(82.0))))
  {
    var m := Obj(map["expiration_value" := Num(82.0), "settlement_value" := Num(80.0)]);
    assert Prop(m, "subtitle") == Undefined && Prop(m, "title") == Undefined && Prop(m, "ticker") == Undefined;
  }

  // ---------------------------------------------------------------------------
  // The upstream queries and the cascade

  /** The three upstream queries. */
  datatype Request =
    | EventWithMarkets(ticker: string)   // events/{t}?with_nested_markets=true
    | MarketsByEvent(ticker: string)     // markets?event_ticker={t}
    | SettledSeries                      // markets?series_ticker=KXHIGHNY&status=settled

  /** What a fetch yields: `fetch` or `r.json()` rejected, a non-ok status, or a parsed body. */
  datatype Reply = Rejected | NotOk | Body(json: Json)

  /** The effect of one attempt on the cascade: go on, stop with a winner, or
      stop because something threw. */
  datatype Verdict = Skip | Hit(info: Info, eventTicker: string) | Abort

  /** The handler's response: 400, 204, 200 with the info, 502. */
  datatype Settled = BadRequest | NoContent | Found(info: Info, eventTicker: string) | UpstreamError

  /** `info = winnerToInfo(pickWinner(...)); if (info) { info.eventTicker = t; break; }` */
  function WinnerVerdict(winner: Completion<Option<Json>>, t: string): (v: Verdict)
    ensures v.Hit? ==> v.eventTicker == t
  {
    match winner
    case Throw => Abort
    case Normal(w) =>
      match WinnerToInfo(w)
      case None => Skip
      case Some(info) => Hit(info, t)
  }

  /** `(listed || []).filter(m => m.event_ticker === t)`: a truthy value that is
      not an array has no filter method, and a null or undefined element has no
      event_ticker. */
  function FilterByEvent(listed: Json, t: string): (r: Completion<seq<Json>>)
    ensures r.Normal? ==> forall m :: m in r.value ==> m.Obj? && Prop(m, "event_ticker") == Str(t)
    ensures r.Normal? && listed.Arr? ==> forall m :: m in r.value ==> m in listed.items
    ensures r.Normal? && listed.Arr? ==>
      forall m :: m in listed.items && !Nullish(m) && Prop(m, "event_ticker") == Str(t) ==> m in r.value
    ensures r.Normal? && !listed.Arr? ==> r.value == []
    ensures r.Throw? <==> Truthy(listed) && (!listed.Arr? || exists m :: m in listed.items && Nullish(m))
  {
    if !Truthy(listed) then Normal([])
    else if !listed.Arr? then Throw
    else KeepTicker(listed.items, t)
  }

  function KeepTicker(xs: seq<Json>, t: string): (r: Completion<seq<Json>>)
    ensures r.Normal? ==> forall m :: m in r.value ==> m in xs && m.Obj? && Prop(m, "event_ticker") == Str(t)
    ensures r.Normal? ==> forall m :: m in xs && !Nullish(m) && Prop(m, "event_ticker") == Str(t) ==> m in r.value
    ensures r.Throw? <==> exists m :: m in xs && Nullish(m)
  {
    if xs == [] then Normal([])
    else if Nullish(xs[0]) then Throw
    else
      match KeepTicker(xs[1..], t)
      case Throw => Throw
      case Normal(rest) =>
        Normal(if Prop(xs[0], "event_ticker") == Str(t) then [xs[0]] + rest else rest)
  }

  /** The filter works element by element and keeps the list order: a
      single market is kept exactly when its event ticker is `t`, and the
      kept markets of a concatenation are those of its halves, concatenated. */
  lemma {:induction false} KeepTickerAppend(xs: seq<Json>, ys: seq<Json>, t: string)
    ensures KeepTicker(xs + ys, t) ==
      match (KeepTicker(xs, t), KeepTicker(ys, t))
      case (Normal(a), Normal(b)) => Normal(a + b)
      case _ => Throw
  {
    if xs == [] {
      assert xs + ys == ys;
      if KeepTicker(ys, t).Normal? {
        assert [] + KeepTicker(ys, t).value == KeepTicker(ys, t).value;
      }
    } else {
      var x, zs := xs[0], xs + ys;
      assert zs[0] == x && zs[1..] == xs[1..] + ys;
      KeepTickerAppend(xs[1..], ys, t);
      if !Nullish(x) {
        match (KeepTicker(xs[1..], t), KeepTicker(ys, t))
        case (Normal(a), Normal(b)) =>
          if Prop(x, "event_ticker") == Str(t) {
            assert [x] + (a + b) == ([x] + a) + b;
          }
        case _ =>
      }
    }
  }

  lemma KeepTickerSingle(x: Json, t: string)
    ensures KeepTicker([x], t) ==
      if Nullish(x) then Throw else Normal(if Prop(x, "event_ticker") == Str(t) then [x] else [])
  {
    assert [x][0] == x && [x][1..] == [] && [x] + [] == [x];
    assert KeepTicker([], t) == Normal([]);
  }

  /** One ticker of the series fallback: `mkts = (listed || []).filter(...)`,
      `w = pickWinner(mkts)`; a winner stops the loop with its info. */
  function TickerVerdict(listed: Json, t: string): (v: Verdict)
    ensures v == Skip <==>
      FilterByEvent(listed, t).Normal? && PickWinner(Arr(FilterByEvent(listed, t).value)) == Normal(None)
    ensures v == Abort <==>
      FilterByEvent(listed, t).Throw? || PickWinner(Arr(FilterByEvent(listed, t).value)).Throw?
    ensures v.Hit? ==>
      && v.eventTicker == t
      && FilterByEvent(listed, t).Normal?
      && exists w :: PickWinner(Arr(FilterByEvent(listed, t).value)) == Normal(Some(w))
                    && WinnerToInfo(Some(w)) == Some(v.info)
  {
    match FilterByEvent(listed, t)
    case Throw => Abort
    case Normal(kept) =>
      PickWinnerSpec(Arr(kept));
      match PickWinner(Arr(kept))
      case Throw => Abort
      case Normal(None) => Skip
      case Normal(Some(w)) => Hit(WinnerToInfo(Some(w)).value, t)
  }

  /** The verdict of each ticker, in order. */
  function TickerVerdicts(listed: Json, tickers: seq<string>): (vs: seq<Verdict>)
    ensures |vs| == |tickers|
    ensures forall k :: 0 <= k < |tickers| ==> vs[k] == TickerVerdict(listed, tickers[k])
  {
    seq(|tickers|, k requires 0 <= k < |tickers| => TickerVerdict(listed, tickers[k]))
  }

  /** The series fallback's local loop: the tickers in order, the first one
      that does not skip decides. */
  function SeriesScan(listed: Json, tickers: seq<string>): (v: Verdict)
    ensures v.Hit? ==> v.eventTicker in tickers
    decreases |tickers|
  {
    if tickers == [] then Skip
    else
      match TickerVerdict(listed, tickers[0])
      case Skip => SeriesScan(listed, tickers[1..])
      case v => v
  }

  /** The loop over the tickers is the same first-decides cascade as the
      sequence of queries, over the tickers' verdicts. */
  lemma {:induction false} SeriesScanIsCascade(listed: Json, tickers: seq<string>)
    ensures SeriesScan(listed, tickers) == Cascade(TickerVerdicts(listed, tickers)).0
    decreases |tickers|
  {
    if tickers != [] {
      var vs, rest := TickerVerdicts(listed, tickers), tickers[1..];
      SeriesScanIsCascade(listed, rest);
      assert forall k :: 0 <= k < |rest| ==> rest[k] == tickers[k + 1];
      assert vs[1..] == TickerVerdicts(listed, rest);
    }
  }

  /** The scan skips exactly when every ticker skips; otherwise its verdict is
      that of the first ticker that does not skip. */
  lemma SeriesScanFirst(listed: Json, tickers: seq<string>)
    ensures SeriesScan(listed, tickers) == Skip <==>
      forall k :: 0 <= k < |tickers| ==> TickerVerdict(listed, tickers[k]) == Skip
    ensures SeriesScan(listed, tickers) != Skip ==>
      exists k :: 0 <= k < |tickers|
        && SeriesScan(listed, tickers) == TickerVerdict(listed, tickers[k])
        && forall j :: 0 <= j < k ==> TickerVerdict(listed, tickers[j]) == Skip
  {
    SeriesScanIsCascade(listed, tickers);
    CascadeFirst(TickerVerdicts(listed, tickers));
  }


  /** One step of the cascade: the query, its reply, what it decides. */
  function Attempt(req: Request, reply: Reply, tickers: seq<string>): (v: Verdict)
    ensures reply.Rejected? ==> v == Abort
    ensures reply.NotOk? ==> v == Skip
    ensures v.Hit? && !req.SettledSeries? ==> v.eventTicker == req.ticker
    ensures v.Hit? && req.SettledSeries? ==> v.eventTicker in tickers
  {
    match reply
    case Rejected => Abort
    case NotOk => Skip
    case Body(j) =>
      match req
      case EventWithMarkets(t) => WinnerVerdict(PickWinner(OptProp(OptProp(j, "event"), "markets")), t)
      case MarketsByEvent(t) => WinnerVerdict(PickWinner(OptProp(j, "markets")), t)
      case SettledSeries => SeriesScan(OptProp(j, "markets"), tickers)
  }

  /** An ok reply to the event query or the markets query decides by its
      winner: a throwing `pickWinner` aborts (502), no winner goes on to the
      next query, and a winner stops the cascade with its info and the ticker
      queried. */
  lemma AttemptDecides(req: Request, j: Json, tickers: seq<string>)
    requires !req.SettledSeries?
    ensures var w := PickWinner(if req.EventWithMarkets? then OptProp(OptProp(j, "event"), "markets")
                                else OptProp(j, "markets"));
      var v := Attempt(req, Body(j), tickers);
      && (v == Abort <==> w.Throw?)
      && (v == Skip <==> w == Normal(None))
      && (v.Hit? ==> v.eventTicker == req.ticker
                     && exists m :: w == Normal(Some(m)) && WinnerToInfo(Some(m)) == Some(v.info))
  {
    var listing := if req.EventWithMarkets? then OptProp(OptProp(j, "event"), "markets") else OptProp(j, "markets");
    PickWinnerSpec(listing);
  }

  /** The order of the queries: strategy 1 on every ticker, then strategy 2 on
      every ticker, then the single series query. */
  function Plan(tickers: seq<string>): (p: seq<Request>)
    requires |tickers| == 2
    ensures |p| == 5
    ensures forall i {:trigger p[i]} :: 0 <= i < 2 ==> p[i] == EventWithMarkets(tickers[i])
    ensures forall i {:trigger p[i]} :: 2 <= i < 4 ==> p[i] == MarketsByEvent(tickers[i - 2])
    ensures p[4] == SettledSeries
  {
    [EventWithMarkets(tickers[0]), EventWithMarkets(tickers[1]),
     MarketsByEvent(tickers[0]), MarketsByEvent(tickers[1]),
     SettledSeries]
  }

  function Verdicts(plan: seq<Request>, upstream: Request -> Reply, tickers: seq<string>): (vs: seq<Verdict>)
    ensures |vs| == |plan|
    ensures forall i :: 0 <= i < |plan| ==> vs[i] == Attempt(plan[i], upstream(plan[i]), tickers)
  {
    seq(|plan|, i requires 0 <= i < |plan| => Attempt(plan[i], upstream(plan[i]), tickers))
  }

  /** The first attempt that does not skip decides, and nothing after it is
      fetched; the number is how many attempts were made. */
  function Cascade(vs: seq<Verdict>): (r: (Verdict, nat))
    ensures r.1 <= |vs|
    ensures r.0 == Skip ==> r.1 == |vs|
    ensures r.0 != Skip ==> 1 <= r.1 && vs[r.1 - 1] == r.0
  {
    if vs == [] then (Skip, 0)
    else if vs[0] != Skip then (vs[0], 1)
    else
      var rest := Cascade(vs[1..]);
      (rest.0, rest.1 + 1)
  }

  function Classify(v: Verdict): Settled {
    match v
    case Skip => NoContent
    case Hit(info, t) => Found(info, t)
    case Abort => UpstreamError
  }

  /** What the `try` block yields for the two tickers: the first attempt of
      the plan that does not skip decides, and the queries made are the plan
      up to it. */
  function Strategies(tickers: seq<string>, upstream: Request -> Reply): (r: (Settled, seq<Request>))
    requires |tickers| == 2
    ensures r.0 != BadRequest
    ensures r.0.Found? ==> r.0.eventTicker in tickers
    ensures 1 <= |r.1| && r.1 <= Plan(tickers)
    ensures r.0 == NoContent ==> r.1 == Plan(tickers)
  {
    var plan := Plan(tickers);
    var decided := Run(plan, upstream, tickers);
    RunIsCascade(plan, upstream, tickers);
    (Classify(decided.0), plan[..decided.1])
  }

  /** The handler's response and the queries it made, in order. */
  function Settle(date: Option<string>, upstream: Request -> Reply): (r: (Settled, seq<Request>))
    ensures r.0 == BadRequest <==> date.None? || !DateShape(date.value)
    ensures r.0.Found? ==> r.0.eventTicker in MakeTickers(date.value)
    ensures r.0 != BadRequest ==> 1 <= |r.1| && r.1 <= Plan(MakeTickers(date.value))
    ensures r.0 == NoContent ==> r.1 == Plan(MakeTickers(date.value))
  {
    if date.None? || !DateShape(date.value) then (BadRequest, [])
    else Strategies(MakeTickers(date.value), upstream)
  }

  // ---------------------------------------------------------------------------
  // Properties of the cascade

  /** Every attempt before the deciding one skipped; when none decides, all of
      them skipped. */
  lemma {:induction false} CascadeSkipsBefore(vs: seq<Verdict>)
    ensures Cascade(vs).0 == Skip ==> forall j :: 0 <= j < |vs| ==> vs[j] == Skip
    ensures forall j :: 0 <= j < Cascade(vs).1 - 1 ==> vs[j] == Skip
  {
    if vs != [] && vs[0] == Skip {
      CascadeSkipsBefore(vs[1..]);
      assert forall j :: 1 <= j < |vs| ==> vs[j] == vs[1..][j - 1];
    }
  }

  /** The cascade skips exactly when every attempt skips; otherwise it is
      decided by the first attempt that does not skip. */
  lemma CascadeFirst(vs: seq<Verdict>)
    ensures Cascade(vs).0 == Skip <==> forall k :: 0 <= k < |vs| ==> vs[k] == Skip
    ensures Cascade(vs).0 != Skip ==>
      exists k :: 0 <= k < |vs| && Cascade(vs).0 == vs[k] && forall j :: 0 <= j < k ==> vs[j] == Skip
  {
    CascadeSkipsBefore(vs);
    if Cascade(vs).0 != Skip {
      var k := Cascade(vs).1 - 1;
      assert Cascade(vs).0 == vs[k];
    }
  }

  /** The attempt at index k decides when it is the first that does not skip. */
  lemma {:induction false} CascadeAt(vs: seq<Verdict>, k: nat)
    requires k < |vs| && vs[k] != Skip
    requires forall j :: 0 <= j < k ==> vs[j] == Skip
    ensures Cascade(vs) == (vs[k], k + 1)
  {
    if k > 0 {
      assert vs[0] == Skip;
      assert forall j :: 0 <= j < k - 1 ==> vs[1..][j] == vs[j + 1];
      CascadeAt(vs[1..], k - 1);
    }
  }

  /** An all-Skip list of verdicts runs to its end. */
  lemma {:induction false} CascadeAllSkip(vs: seq<Verdict>)
    requires forall j :: 0 <= j < |vs| ==> vs[j] == Skip
    ensures Cascade(vs) == (Skip, |vs|)
  {
    if vs != [] {
      CascadeAllSkip(vs[1..]);
    }
  }

  /** The cascade attempt by attempt, as the handler's loops walk it: each
      query's reply is looked at only when every earlier one skipped. */
  function Run(plan: seq<Request>, upstream: Request -> Reply, tickers: seq<string>): (r: (Verdict, nat))
    ensures r.1 <= |plan|
    ensures r.0 == Skip ==> r.1 == |plan|
    ensures r.0 != Skip ==> 1 <= r.1
    decreases |plan|
  {
    if plan == [] then (Skip, 0)
    else
      var v := Attempt(plan[0], upstream(plan[0]), tickers);
      if v != Skip then (v, 1)
      else Later(1, Run(plan[1..], upstream, tickers))
  }

  /** A cascade result counted from k attempts further back. */
  function Later(k: nat, r: (Verdict, nat)): (Verdict, nat) {
    (r.0, r.1 + k)
  }

  /** Walking the plan attempt by attempt is the cascade over its verdicts. */
  lemma {:induction false} RunIsCascade(plan: seq<Request>, upstream: Request -> Reply, tickers: seq<string>)
    ensures Run(plan, upstream, tickers) == Cascade(Verdicts(plan, upstream, tickers))
    decreases |plan|
  {
    if plan != [] {
      var vs := Verdicts(plan, upstream, tickers);
      RunIsCascade(plan[1..], upstream, tickers);
      VerdictsTail(plan, upstream, tickers);
      RunStep(plan, upstream, tickers);
      CascadeStep(vs);
    }
  }

  lemma RunStep(plan: seq<Request>, upstream: Request -> Reply, tickers: seq<string>)
    requires plan != []
    ensures var v := Attempt(plan[0], upstream(plan[0]), tickers);
      Run(plan, upstream, tickers) == if v != Skip then (v, 1) else Later(1, Run(plan[1..], upstream, tickers))
  {
  }

  /** The walk from position k of the plan, one attempt at a time. */
  lemma RunAt(plan: seq<Request>, k: nat, upstream: Request -> Reply, tickers: seq<string>)
    requires k < |plan|
    ensures var v := Attempt(plan[k], upstream(plan[k]), tickers);
      Run(plan[k..], upstream, tickers) == if v != Skip then (v, 1) else Later(1, Run(plan[k + 1..], upstream, tickers))
  {
    assert plan[k..][0] == plan[k] && plan[k..][1..] == plan[k + 1..];
    RunStep(plan[k..], upstream, tickers);
  }

  lemma CascadeStep(vs: seq<Verdict>)
    requires vs != []
    ensures Cascade(vs) == if vs[0] != Skip then (vs[0], 1) else Later(1, Cascade(vs[1..]))
  {
  }

  lemma VerdictsTail(plan: seq<Request>, upstream: Request -> Reply, tickers: seq<string>)
    requires plan != []
    ensures Verdicts(plan, upstream, tickers)[1..] == Verdicts(plan[1..], upstream, tickers)
  {
    var vs, ws := Verdicts(plan, upstream, tickers)[1..], Verdicts(plan[1..], upstream, tickers);
    assert forall i :: 0 <= i < |ws| ==> plan[1..][i] == plan[i + 1];
    assert forall i :: 0 <= i < |ws| ==> vs[i] == ws[i];
  }

  /** `Strategies` read off the run of the plan. */
  lemma StrategiesFromRun(tickers: seq<string>, upstream: Request -> Reply)
    requires |tickers| == 2
    ensures var run := Run(Plan(tickers), upstream, tickers);
      Strategies(tickers, upstream) == (Classify(run.0), Plan(tickers)[..run.1])
  {
  }

  lemma PrefixJoin<T>(s: seq<T>, a: nat, b: nat)
    requires a <= b <= |s|
    ensures s[..a] + s[a..b] == s[..b]
  {
  }

  /** The series query is the last one of the plan. */
  lemma RunLast(plan: seq<Request>, upstream: Request -> Reply, tickers: seq<string>)
    requires |plan| == 5 && plan[4] == SettledSeries
    ensures var last := Attempt(SettledSeries, upstream(SettledSeries), tickers);
      Run(plan[4..], upstream, tickers) == (last, 1)
  {
    assert plan[4..][0] == SettledSeries && plan[4..][1..] == [];
  }

  /** Only the replies to the queries actually made matter: any upstream that
      answers those queries the same way leads to the same response and the
      same queries. So the cascade stops at the first decisive attempt. */
  lemma {:induction false} CascadePrefix(vs: seq<Verdict>, ws: seq<Verdict>)
    requires |vs| == |ws|
    requires forall j :: 0 <= j < Cascade(vs).1 ==> vs[j] == ws[j]
    ensures Cascade(ws) == Cascade(vs)
  {
    var n := Cascade(vs).1;
    CascadeSkipsBefore(vs);
    if Cascade(vs).0 != Skip {
      CascadeAt(ws, n - 1);
    }
  }

  lemma OnlyQueriedRepliesMatter(date: Option<string>, u1: Request -> Reply, u2: Request -> Reply)
    requires forall q :: q in Settle(date, u1).1 ==> u1(q) == u2(q)
    ensures Settle(date, u2) == Settle(date, u1)
  {
    if date.Some? && DateShape(date.value) {
      var tickers := MakeTickers(date.value);
      var plan := Plan(tickers);
      var vs, ws := Verdicts(plan, u1, tickers), Verdicts(plan, u2, tickers);
      RunIsCascade(plan, u1, tickers);
      RunIsCascade(plan, u2, tickers);
      var n := Cascade(vs).1;
      forall j | 0 <= j < n ensures vs[j] == ws[j] {
        assert plan[j] in plan[..n];
      }
      CascadePrefix(vs, ws);
    }
  }

  /** Strategy 2 runs for a ticker, and the series query runs, only after
      strategy 1 came back empty for every ticker. */
  lemma EventsFirst(date: string, upstream: Request -> Reply, q: Request)
    requires DateShape(date)
    requires q in Settle(Some(date), upstream).1
    requires q.MarketsByEvent? || q.SettledSeries?
    ensures var tickers := MakeTickers(date);
      forall t :: t in tickers ==>
        EventWithMarkets(t) in Settle(Some(date), upstream).1
        && Attempt(EventWithMarkets(t), upstream(EventWithMarkets(t)), tickers) == Skip
  {
    var tickers := MakeTickers(date);
    var plan := Plan(tickers);
    var trace := Strategies(tickers, upstream).1;
    var i :| 0 <= i < |trace| && trace[i] == q;
    SkippedBefore(tickers, upstream, i);
    assert i >= 2 by { assert plan[i] == q; }
    assert plan[0] == trace[0] && plan[1] == trace[1];
  }

  /** The series query runs only after strategy 2 came back empty for every
      ticker. */
  lemma MarketsBeforeSeries(date: string, upstream: Request -> Reply)
    requires DateShape(date)
    requires SettledSeries in Settle(Some(date), upstream).1
    ensures var tickers := MakeTickers(date);
      forall t :: t in tickers ==>
        MarketsByEvent(t) in Settle(Some(date), upstream).1
        && Attempt(MarketsByEvent(t), upstream(MarketsByEvent(t)), tickers) == Skip
  {
    var tickers := MakeTickers(date);
    var plan := Plan(tickers);
    var trace := Strategies(tickers, upstream).1;
    var i :| 0 <= i < |trace| && trace[i] == SettledSeries;
    SkippedBefore(tickers, upstream, i);
    assert i == 4 by { assert plan[i] == SettledSeries; }
    assert plan[2] == trace[2] && plan[3] == trace[3];
  }

  /** Every query the handler made before the `i`-th one skipped. */
  lemma SkippedBefore(tickers: seq<string>, upstream: Request -> Reply, i: nat)
    requires |tickers| == 2
    requires i < |Strategies(tickers, upstream).1|
    ensures var trace := Strategies(tickers, upstream).1;
      trace == Plan(tickers)[..|trace|]
      && forall j :: 0 <= j < i ==> Attempt(trace[j], upstream(trace[j]), tickers) == Skip
  {
    var plan := Plan(tickers);
    var vs := Verdicts(plan, upstream, tickers);
    RunIsCascade(plan, upstream, tickers);
    CascadeSkipsBefore(vs);
  }

  /** Replies that are not ok only skip: if no query gets an ok reply, every
      query is made and the answer is 204. */
  lemma AllNotOkIsNoContent(date: string, upstream: Request -> Reply)
    requires DateShape(date)
    requires forall q :: upstream(q) == NotOk
    ensures Settle(Some(date), upstream) == (NoContent, Plan(MakeTickers(date)))
  {
    var tickers := MakeTickers(date);
    var plan := Plan(tickers);
    var vs := Verdicts(plan, upstream, tickers);
    RunIsCascade(plan, upstream, tickers);
    assert forall j :: 0 <= j < |vs| ==> vs[j] == Skip;
    assert plan[..|plan|] == plan;
  }

  // ---------------------------------------------------------------------------
  // The handler

  /** Strategy 1 for one ticker: `events/{t}?with_nested_markets=true`, then
      a winner among `j.event.markets`. */
  method FetchEvent(t: string, upstream: Request -> Reply, tickers: seq<string>) returns (v: Verdict)
    ensures v == Attempt(EventWithMarkets(t), upstream(EventWithMarkets(t)), tickers)
  {
    var reply := upstream(EventWithMarkets(t));
    if reply.Rejected? {
      return Abort;
    }
    if reply.NotOk? {
      return Skip;
    }
    var winner := PickWinner(OptProp(OptProp(reply.json, "event"), "markets"));
    if winner.Throw? {
      return Abort;
    }
    var info := WinnerToInfo(winner.value);
    if info.None? {
      return Skip;
    }
    return Hit(info.value, t);
  }

  /** Strategy 2 for one ticker: `markets?event_ticker={t}`, then a winner
      among `j.markets`. */
  method FetchMarkets(t: string, upstream: Request -> Reply, tickers: seq<string>) returns (v: Verdict)
    ensures v == Attempt(MarketsByEvent(t), upstream(MarketsByEvent(t)), tickers)
  {
    var reply := upstream(MarketsByEvent(t));
    if reply.Rejected? {
      return Abort;
    }
    if reply.NotOk? {
      return Skip;
    }
    var winner := PickWinner(OptProp(reply.json, "markets"));
    if winner.Throw? {
      return Abort;
    }
    var info := WinnerToInfo(winner.value);
    if info.None? {
      return Skip;
    }
    return Hit(info.value, t);
  }

  /** Strategy 3: the settled markets of the whole series, filtered locally
      by each ticker in turn. */
  method FetchSeries(upstream: Request -> Reply, tickers: seq<string>) returns (v: Verdict)
    ensures v == Attempt(SettledSeries, upstream(SettledSeries), tickers)
  {
    var reply := upstream(SettledSeries);
    if reply.Rejected? {
      return Abort;
    }
    if reply.NotOk? {
      return Skip;
    }
    var listed := OptProp(reply.json, "markets");
    for i := 0 to |tickers|
      invariant SeriesScan(listed, tickers) == SeriesScan(listed, tickers[i..])
    {
      var t := tickers[i];
      assert tickers[i..][0] == t && tickers[i..][1..] == tickers[i + 1..];
      var kept := FilterByEvent(listed, t);
      if kept.Throw? {
        return Abort;
      }
      var w := PickWinner(Arr(kept.value));
      PickWinnerSpec(Arr(kept.value));
      if w.Throw? {
        return Abort;
      }
      if w.value.Some? {
        return Hit(WinnerToInfo(w.value).value, t);
      }
    }
    assert tickers[|tickers|..] == [];
    return Skip;
  }

  /** `handler(req, res)` of api/kalshi.js, with the fetches answered by
      `upstream`; `trace` lists the queries made, in order. */
  method Resolve(date: Option<string>, upstream: Request -> Reply) returns (res: Settled, trace: seq<Request>)
    ensures (res, trace) == Settle(date, upstream)
  {
    if date.None? || !DateShape(date.value) {
      return BadRequest, [];
    }
    var tickers := MakeTickers(date.value);
    res, trace := RunStrategies(tickers, upstream);
  }

  /** Strategy 1 over every ticker in order: stop at the first attempt that
      finds a winner or throws. `made` lists the queries made. */
  method EventStage(tickers: seq<string>, upstream: Request -> Reply) returns (v: Verdict, made: seq<Request>)
    requires |tickers| == 2
    ensures |made| <= 2 && made == Plan(tickers)[..|made|]
    ensures v == Skip ==> |made| == 2
    ensures Run(Plan(tickers), upstream, tickers) ==
      if v != Skip then (v, |made|) else Later(2, Run(Plan(tickers)[2..], upstream, tickers))
  {
    ghost var plan := Plan(tickers);
    v, made := Skip, [];
    for i := 0 to |tickers|
      invariant v == Skip && made == plan[..i]
      invariant Run(plan, upstream, tickers) == Later(i, Run(plan[i..], upstream, tickers))
    {
      var t := tickers[i];
      v := FetchEvent(t, upstream, tickers);
      RunAt(plan, i, upstream, tickers);
      made := made + [EventWithMarkets(t)];
      assert made == plan[..i + 1];
      if v != Skip {
        return;
      }
    }
  }

  /** Strategy 2 over every ticker in order, the same way. */
  method MarketsStage(tickers: seq<string>, upstream: Request -> Reply) returns (v: Verdict, made: seq<Request>)
    requires |tickers| == 2
    ensures |made| <= 2 && made == Plan(tickers)[2..2 + |made|]
    ensures v == Skip ==> |made| == 2
    ensures Run(Plan(tickers)[2..], upstream, tickers) ==
      if v != Skip then (v, |made|) else Later(2, Run(Plan(tickers)[4..], upstream, tickers))
  {
    ghost var plan := Plan(tickers);
    v, made := Skip, [];
    for i := 0 to |tickers|
      invariant v == Skip && made == plan[2..2 + i]
      invariant Run(plan[2..], upstream, tickers) == Later(i, Run(plan[2 + i..], upstream, tickers))
    {
      var t := tickers[i];
      v := FetchMarkets(t, upstream, tickers);
      RunAt(plan, 2 + i, upstream, tickers);
      made := made + [MarketsByEvent(t)];
      assert made == plan[2..2 + i + 1];
      if v != Skip {
        return;
      }
    }
  }

  /** Strategies 2 and 3: the series listing is fetched only when no
      markets listing decided. */
  method TailStages(tickers: seq<string>, upstream: Request -> Reply) returns (v: Verdict, made: seq<Request>)
    requires |tickers| == 2
    ensures |made| <= 3 && made == Plan(tickers)[2..2 + |made|]
    ensures Run(Plan(tickers)[2..], upstream, tickers) == (v, |made|)
  {
    ghost var plan := Plan(tickers);
    v, made := MarketsStage(tickers, upstream);
    if v != Skip {
      return;
    }
    v := FetchSeries(upstream, tickers);
    RunLast(plan, upstream, tickers);
    made := made + [SettledSeries];
  }

  /** The handler's `try` block: strategy 2 runs only when strategy 1 found
      nothing, and the series query only when both found nothing. A throw
      leaves the block with 502. */
  method RunStrategies(tickers: seq<string>, upstream: Request -> Reply) returns (res: Settled, trace: seq<Request>)
    requires |tickers| == 2
    ensures (res, trace) == Strategies(tickers, upstream)
  {
    ghost var plan := Plan(tickers);
    // 1) the event with its nested markets
    var v, made := EventStage(tickers, upstream);
    trace := made;
    // 2) and 3) the markets listed by event ticker, then the series listing
    if v == Skip {
      v, made := TailStages(tickers, upstream);
      PrefixJoin(plan, 2, 2 + |made|);
      trace := trace + made;
    }
    assert Run(plan, upstream, tickers) == (v, |trace|) && trace == plan[..|trace|];
    StrategiesFromRun(tickers, upstream);
    if v.Abort? {
      return UpstreamError, trace;
    }
    if v.Skip? {
      return NoContent, trace;
    }
    return Found(v.info, v.eventTicker), trace;
  }
}
