/**
 * What the chat commands send, as functions of what their collaborators returned:
 * the manual analysis, the top-gainers listing and the alert-type check, plus which
 * scheduled tasks the startup handler launches.
 */
module Commands {
  import opened Common
  import opened Trace
  import opened Market

  const MANUAL_LIMIT: nat := 3
  const MANUAL_PAUSE: nat := 2

  // ------------------------------------------------------------ manual analysis

  /**
   * The numbered opportunity alerts, the first one numbered `first`; a pause follows
   * every alert numbered below three.
   */
  function Numbered(rs: seq<Record>, first: nat): seq<Event>
    decreases |rs|
  {
    if rs == [] then []
    else [Send(OpportunityAlert(first), rs[0].symbol)] + (if first < MANUAL_LIMIT then [Sleep(MANUAL_PAUSE)] else [])
         + Numbered(rs[1..], first + 1)
  }

  lemma {:induction false} NumberedAppend(a: seq<Record>, b: seq<Record>, first: nat)
    ensures Numbered(a + b, first) == Numbered(a, first) + Numbered(b, first + |a|)
    decreases |a|
  {
    if a == [] {
      assert a + b == b;
    } else {
      assert (a + b)[1..] == a[1..] + b;
      NumberedAppend(a[1..], b, first + 1);
    }
  }

  /** The events of one numbered alert. */
  function NumberedStep(r: Record, n: nat): seq<Event> {
    [Send(OpportunityAlert(n), r.symbol)] + (if n < MANUAL_LIMIT then [Sleep(MANUAL_PAUSE)] else [])
  }

  /** One more alert adds its send, numbered after those before it, and its pause if it is among the first two. */
  lemma NumberedSnoc(rs: seq<Record>, x: Record)
    ensures Numbered(rs + [x], 1) == Numbered(rs, 1) + NumberedStep(x, 1 + |rs|)
  {
    NumberedAppend(rs, [x], 1);
    assert Numbered([x], 1 + |rs|) == NumberedStep(x, 1 + |rs|) + Numbered([], 2 + |rs|);
  }

  /** Where a prefix of the alerts ends, the next alert's send follows. */
  lemma NumberedAt(shown: seq<Record>, x: Record, all: seq<Record>)
    requires shown + [x] <= all
    ensures Numbered(shown, 1) + [Send(OpportunityAlert(1 + |shown|), x.symbol)] <= Numbered(all, 1)
  {
    var rest := all[|shown| + 1..];
    assert all == (shown + [x]) + rest;
    NumberedAppend(shown + [x], rest, 1);
    NumberedSnoc(shown, x);
    var e := Send(OpportunityAlert(1 + |shown|), x.symbol);
    var pause := if 1 + |shown| < MANUAL_LIMIT then [Sleep(MANUAL_PAUSE)] else [];
    assert NumberedStep(x, 1 + |shown|) == [e] + pause;
    var later := Numbered(rest, 1 + |shown + [x]|);
    var done := Numbered(shown, 1);
    assert Numbered(all, 1) == done + ([e] + pause) + later;
    Regroup(done, [e], pause, later);
    assert (done + [e]) + (pause + later) == Numbered(all, 1);
  }

  /** The next numbered alert, after the events before it, is still within the plan. */
  lemma NumberedNextSend(before: seq<Event>, shown: seq<Record>, x: Record, all: seq<Record>, planned: seq<Event>)
    requires shown + [x] <= all && before + Numbered(all, 1) <= planned
    ensures before + Numbered(shown, 1) + [Send(OpportunityAlert(1 + |shown|), x.symbol)] <= planned
  {
    NumberedAt(shown, x, all);
    var done := Numbered(shown, 1);
    var e := Send(OpportunityAlert(1 + |shown|), x.symbol);
    SnocAfter(before, done, e, Numbered(all, 1), planned);
  }

  /**
   * Numbered from one and at most three long: the i-th alert (from 0) carries number
   * i + 1 and the i-th record's symbol at position 2i, a pause follows the first
   * two alerts, and none follows the third.
   */
  lemma {:induction false} NumberedShape(rs: seq<Record>, first: nat)
    requires 1 <= first && first + |rs| <= MANUAL_LIMIT + 1
    ensures var es := Numbered(rs, first);
      && SendCount(es) == |rs|
      && |es| == 2 * |rs| - (if rs != [] && first + |rs| == MANUAL_LIMIT + 1 then 1 else 0)
      && (forall i :: 0 <= i < |rs| ==> es[2 * i] == Send(OpportunityAlert(first + i), rs[i].symbol))
      && (forall i :: 0 <= i < |rs| && first + i < MANUAL_LIMIT ==> es[2 * i + 1] == Sleep(MANUAL_PAUSE))
    decreases |rs|
  {
    if rs != [] {
      var head := NumberedStep(rs[0], first);
      var tail := Numbered(rs[1..], first + 1);
      assert Numbered(rs, first) == head + tail;
      NumberedShape(rs[1..], first + 1);
      SendCountAppend(head, tail);
      assert SendCount(head) == 1;
      if |rs| > 1 {
        assert first < MANUAL_LIMIT && |head| == 2;
      }
    }
  }

  /** `if coin:` in the command: a coin was given and it is not the empty string. */
  predicate CoinGiven(coin: Option<string>) {
    coin.Some? && coin.value != ""
  }

  function ManualPlan(coin: Option<string>, market: Try<MarketData>, deep: Try<Results>,
                      john: Try<Results>, alpha: Try<Results>, ranked: Try<seq<Record>>): Run
  {
    var head := [Send(Analyzing, None)];
    if market.Raise? then Run(head, Raised)
    else if market.value == [] then Run(head + [Send(FetchFailed, None)], Returned)
    else if CoinGiven(coin) then
      var c := Upper(coin.value);
      if c !in Listed(market.value) then Run(head + [Send(CoinNotFound, Some(c))], Completed)
      else if deep.Raise? then Run(head, Raised)
      else Run(head + [Send(CoinReport, Some(c))], Completed)
    else if john.Raise? || alpha.Raise? || ranked.Raise? then Run(head, Raised)
    else Run(head + Numbered(Take(ranked.value, MANUAL_LIMIT), 1), Completed)
  }

  const MANUAL_ERROR: seq<Event> := [Send(AnalysisFailed, None)]

  function Manual(coin: Option<string>, market: Try<MarketData>, deep: Try<Results>,
                  john: Try<Results>, alpha: Try<Results>, ranked: Try<seq<Record>>, failSend: Option<nat>): Run
  {
    WithFailure(ManualPlan(coin, market, deep, john, alpha, ranked), failSend, MANUAL_ERROR)
  }

  /**
   * On the single-coin path the coin is looked up upper-cased: a symbol that is not
   * listed gets exactly one "not found" reply, a listed one exactly one report.
   */
  lemma ManualCoinLookup(coin: string, md: MarketData, deep: Try<Results>,
                         john: Try<Results>, alpha: Try<Results>, ranked: Try<seq<Record>>)
    requires coin != "" && md != []
    ensures Upper(coin) !in Listed(md) ==>
      Manual(Some(coin), Ok(md), deep, john, alpha, ranked, None)
        == Run([Send(Analyzing, None), Send(CoinNotFound, Some(Upper(coin)))], Completed)
    ensures Upper(coin) in Listed(md) && deep.Ok? ==>
      Manual(Some(coin), Ok(md), deep, john, alpha, ranked, None)
        == Run([Send(Analyzing, None), Send(CoinReport, Some(Upper(coin)))], Completed)
  {
  }

  /**
   * On the whole-market path (no coin, or an empty one) a completed command sends the
   * first min(3, |ranked|) records as alerts numbered 1, 2, 3, with a 2-second pause
   * after each of the first two.
   */
  lemma ManualMarketAlerts(coin: Option<string>, market: Try<MarketData>, deep: Try<Results>,
                           john: Try<Results>, alpha: Try<Results>, ranked: Try<seq<Record>>, failSend: Option<nat>)
    requires !CoinGiven(coin)
    requires Manual(coin, market, deep, john, alpha, ranked, failSend).ending == Completed
    ensures ranked.Ok?
    ensures var es := Manual(coin, market, deep, john, alpha, ranked, failSend).events;
      var n := Min(MANUAL_LIMIT, |ranked.value|);
      && |es| == 1 + 2 * n - (if n == MANUAL_LIMIT then 1 else 0)
      && es[0] == Send(Analyzing, None)
      && SendCount(es) == 1 + n
      && (forall i :: 0 <= i < n ==> es[1 + 2 * i] == Send(OpportunityAlert(i + 1), ranked.value[i].symbol))
      && (forall i :: 0 <= i < n && i + 1 < MANUAL_LIMIT ==> es[2 + 2 * i] == Sleep(MANUAL_PAUSE))
  {
    var top := Take(ranked.value, MANUAL_LIMIT);
    NumberedShape(top, 1);
    SendCountAppend([Send(Analyzing, None)], Numbered(top, 1));
  }

  /** The manual command's body never sends the failure message itself. */
  lemma ManualPlanNoFailure(coin: Option<string>, market: Try<MarketData>, deep: Try<Results>,
                            john: Try<Results>, alpha: Try<Results>, ranked: Try<seq<Record>>)
    ensures SentOf(ManualPlan(coin, market, deep, john, alpha, ranked).events, AnalysisFailed) == []
  {
    var head := [Send(Analyzing, None)];
    var es := ManualPlan(coin, market, deep, john, alpha, ranked).events;
    SentOfSingle(Send(Analyzing, None), AnalysisFailed);
    if market.Ok? && market.value != [] {
      var reply: Event;
      if !CoinGiven(coin) {
        if john.Ok? && alpha.Ok? && ranked.Ok? {
          var numbered := Numbered(Take(ranked.value, MANUAL_LIMIT), 1);
          assert es == head + numbered;
          SentOfAppend(head, numbered, AnalysisFailed);
          NumberedNoFailure(Take(ranked.value, MANUAL_LIMIT), 1);
        } else {
          assert es == head;
        }
      } else {
        var c := Upper(coin.value);
        if c !in Listed(market.value) {
          reply := Send(CoinNotFound, Some(c));
          assert es == head + [reply];
        } else {
          reply := Send(CoinReport, Some(c));
          assert es == head + [reply] || es == head;
        }
        SentOfAppend(head, [reply], AnalysisFailed);
        SentOfSingle(reply, AnalysisFailed);
      }
    } else if market.Ok? {
      assert es == head + [Send(FetchFailed, None)];
      SentOfAppend(head, [Send(FetchFailed, None)], AnalysisFailed);
      SentOfSingle(Send(FetchFailed, None), AnalysisFailed);
    }
  }

  /** The manual command reports a failure with exactly one message, as its last. */
  lemma ManualErrorReported(coin: Option<string>, market: Try<MarketData>, deep: Try<Results>,
                            john: Try<Results>, alpha: Try<Results>, ranked: Try<seq<Record>>, failSend: Option<nat>)
    requires Manual(coin, market, deep, john, alpha, ranked, failSend).ending == Raised
    ensures var es := Manual(coin, market, deep, john, alpha, ranked, failSend).events;
      es[|es| - 1] == Send(AnalysisFailed, None) && SentOf(es, AnalysisFailed) == [None]
  {
    ManualPlanNoFailure(coin, market, deep, john, alpha, ranked);
    SentOfSingle(Send(AnalysisFailed, None), AnalysisFailed);
    RaisedSendsHandler(ManualPlan(coin, market, deep, john, alpha, ranked), failSend, MANUAL_ERROR, AnalysisFailed);
  }

  lemma {:induction false} NumberedNoFailure(rs: seq<Record>, first: nat)
    ensures SentOf(Numbered(rs, first), AnalysisFailed) == []
    decreases |rs|
  {
    if rs != [] {
      NumberedNoFailure(rs[1..], first + 1);
      SentOfAppend(NumberedStep(rs[0], first), Numbered(rs[1..], first + 1), AnalysisFailed);
    }
  }

  // ---------------------------------------------------------------- top gainers

  /** The timeframe `!top` uses when none is given. */
  const DEFAULT_TIMEFRAME: string := "24h"

  function TopPlan(timeframe: string, market: Try<MarketData>): Run {
    var head := [Send(FetchingTopGainers, None)];
    if market.Raise? then Run(head, Raised)
    else if market.value == [] then Run(head + [Send(FetchFailed, None)], Returned)
    else Run(head + [Send(TopGainersTable(CoinSymbols(TopGainers(market.value, timeframe))), None)], Completed)
  }

  const TOP_ERROR: seq<Event> := [Send(CommandError, None)]

  function Top(timeframe: string, market: Try<MarketData>, failSend: Option<nat>): Run {
    WithFailure(TopPlan(timeframe, market), failSend, TOP_ERROR)
  }

  /**
   * A completed top-gainers command sends exactly two messages, the second listing the
   * symbols of the top min(10, |market|) coins in descending order of their change.
   */
  lemma TopListing(timeframe: string, market: Try<MarketData>, failSend: Option<nat>)
    requires Top(timeframe, market, failSend).ending == Completed
    ensures market.Ok? && market.value != []
    ensures var es := Top(timeframe, market, failSend).events;
      && |es| == 2 && es[0] == Send(FetchingTopGainers, None)
      && es[1].Send? && es[1].kind == TopGainersTable(CoinSymbols(TopGainers(market.value, timeframe)))
      && |es[1].kind.symbols| == Min(TOP_GAINERS_LIMIT, |market.value|)
  {
  }

  // ----------------------------------------------------------------- alerts

  const ALERT_TYPES: seq<string> := ["volume", "whale", "technical", "all"]
  const DEFAULT_ALERT_TYPE: string := "all"

  /** The reply to `!alerts <alertType>`: a confirmation exactly for the four known types. */
  function AlertsReply(alertType: string): (k: Kind)
    ensures k == AlertSettingsUpdated(alertType) <==>
      alertType == "volume" || alertType == "whale" || alertType == "technical" || alertType == "all"
    ensures k != AlertSettingsUpdated(alertType) ==> k == InvalidAlertType
  {
    if alertType in ALERT_TYPES then AlertSettingsUpdated(alertType) else InvalidAlertType
  }

  /** The command's default argument is accepted. */
  lemma DefaultAlertTypeAccepted()
    ensures AlertsReply(DEFAULT_ALERT_TYPE) == AlertSettingsUpdated("all")
  {
  }

  // ---------------------------------------------------------- scheduled tasks

  datatype Task = HourlyTask | FourHourTask | VolumeTask

  /** The position of a task's start-if-not-running check in the startup handler. */
  function StartOrder(t: Task): nat {
    match t
    case HourlyTask => 0
    case FourHourTask => 1
    case VolumeTask => 2
  }

  /**
   * The tasks the startup handler launches: exactly those not yet running, each once,
   * in the handler's order.
   */
  function ToLaunch(running: set<Task>): (launch: seq<Task>)
    ensures forall t :: t in launch ==> t !in running
    ensures HourlyTask !in running ==> HourlyTask in launch
    ensures FourHourTask !in running ==> FourHourTask in launch
    ensures VolumeTask !in running ==> VolumeTask in launch
    ensures forall i, j :: 0 <= i < j < |launch| ==> StartOrder(launch[i]) < StartOrder(launch[j])
  {
    (if HourlyTask in running then [] else [HourlyTask])
    + (if FourHourTask in running then [] else [FourHourTask])
    + (if VolumeTask in running then [] else [VolumeTask])
  }
}
