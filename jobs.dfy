/**
 * What each scheduled job sends, as a function of what its collaborators returned:
 * the hourly analysis, the four-hour deep analysis and the volume/whale monitor.
 * `XPlan` is the body of the job's `try` block; `X` adds the exception handler and
 * a send that may raise (see Trace.WithFailure).
 */
module Jobs {
  import opened Common
  import opened Trace
  import opened Market

  const BTC: string := "BTC"
  const HOURLY_KEY: string := "hourly"
  const FOUR_HOUR_KEY: string := "four_hour"
  const ALTCOIN_LIMIT: nat := 5
  const HOURLY_PAUSE: nat := 2
  const PREMIUM_LIMIT: nat := 3
  const PREMIUM_PAUSE: nat := 3
  const VOLUME_SPIKE_THRESHOLD: real := 300.0

  /** What the hourly handler sends after an exception. */
  const HOURLY_ERROR: seq<Event> := [Send(AnalysisError, None)]

  // ---------------------------------------------------------------- hourly

  /** `opportunity.get('symbol') != 'BTC'`: a record without a symbol counts as an altcoin. */
  predicate IsAltcoin(r: Record) {
    r.symbol != Some(BTC)
  }

  /** The dedicated Bitcoin report is due: BTC is listed and one of the two analyses of it is truthy. */
  predicate BtcReportDue(md: MarketData, john: Results, alpha: Results) {
    BTC in Listed(md) && (Reported(john, BTC) || Reported(alpha, BTC))
  }

  function BtcSection(md: MarketData, john: Results, alpha: Results): seq<Event> {
    if BtcReportDue(md, john, alpha) then [Send(BitcoinReport, Some(BTC)), Sleep(HOURLY_PAUSE)] else []
  }

  /** The ranked records the hourly job alerts on: the first five that are not BTC. */
  function AltcoinPicks(ranked: seq<Record>): seq<Record> {
    Take(Filter(IsAltcoin, ranked), ALTCOIN_LIMIT)
  }

  /** What a run in which nothing raised sends: the Bitcoin report, the altcoin alerts, the overview. */
  function HourlyMessages(md: MarketData, john: Results, alpha: Results, ranked: seq<Record>): seq<Event> {
    BtcSection(md, john, alpha) + Paced(HighPotential, AltcoinPicks(ranked), HOURLY_PAUSE) + [Send(MarketOverview, None)]
  }

  function HourlyPlan(market: Try<MarketData>, john: Try<Results>, alpha: Try<Results>, ranked: Try<seq<Record>>): Run {
    if market.Raise? then Run([], Raised)
    else if market.value == [] then Run([Send(MarketDataUnavailable, None)], Returned)
    else if john.Raise? || alpha.Raise? then Run([], Raised)
    else if ranked.Raise? then Run(BtcSection(market.value, john.value, alpha.value), Raised)
    else Run(HourlyMessages(market.value, john.value, alpha.value, ranked.value), Completed)
  }

  function Hourly(market: Try<MarketData>, john: Try<Results>, alpha: Try<Results>, ranked: Try<seq<Record>>,
                  failSend: Option<nat>): Run
  {
    WithFailure(HourlyPlan(market, john, alpha, ranked), failSend, HOURLY_ERROR)
  }

  /** An empty snapshot sends exactly the one warning and returns without completing. */
  lemma HourlyNoData(john: Try<Results>, alpha: Try<Results>, ranked: Try<seq<Record>>, failSend: Option<nat>)
    requires failSend != Some(0)
    ensures Hourly(Ok([]), john, alpha, ranked, failSend) == Run([Send(MarketDataUnavailable, None)], Returned)
  {
    assert SendCount([Send(MarketDataUnavailable, None)]) == 1;
  }

  /** The picks are the first (at most) five non-BTC records, in ranked order. */
  lemma AltcoinPicksSpec(ranked: seq<Record>)
    ensures |AltcoinPicks(ranked)| == Min(ALTCOIN_LIMIT, |Filter(IsAltcoin, ranked)|)
    ensures AltcoinPicks(ranked) <= Filter(IsAltcoin, ranked)
    ensures forall r :: r in AltcoinPicks(ranked) ==> r in ranked && r.symbol != Some(BTC)
    ensures |AltcoinPicks(ranked)| < ALTCOIN_LIMIT ==>
      forall r :: r in ranked && IsAltcoin(r) ==> r in AltcoinPicks(ranked)
  {
    var picks := AltcoinPicks(ranked);
    forall r | r in picks
      ensures r in ranked && r.symbol != Some(BTC)
    {
      var i :| 0 <= i < |picks| && picks[i] == r;
      assert r in Filter(IsAltcoin, ranked);
    }
    if |picks| < ALTCOIN_LIMIT {
      forall r | r in ranked && IsAltcoin(r)
        ensures r in picks
      {
        FilterKeeps(IsAltcoin, ranked, r);
      }
    }
  }

  /** Looking at one more ranked record adds it to the picks exactly when it is an altcoin and fewer than five were picked. */
  lemma AltcoinPicksStep(ranked: seq<Record>, i: nat)
    requires i < |ranked|
    ensures AltcoinPicks(ranked[..i + 1])
         == if IsAltcoin(ranked[i]) && |AltcoinPicks(ranked[..i])| < ALTCOIN_LIMIT
            then AltcoinPicks(ranked[..i]) + [ranked[i]] else AltcoinPicks(ranked[..i])
  {
    FilterStep(IsAltcoin, ranked, i);
  }

  /** The picks among the first `i` ranked records, in the order the hourly loop visits them. */
  function PicksUpTo(ranked: seq<Record>, i: nat): (picks: seq<Record>)
    requires i <= |ranked|
  {
    if i == 0 then []
    else
      var before := PicksUpTo(ranked, i - 1);
      if IsAltcoin(ranked[i - 1]) && |before| < ALTCOIN_LIMIT then before + [ranked[i - 1]] else before
  }

  lemma {:induction false} PicksUpToSpec(ranked: seq<Record>, i: nat)
    requires i <= |ranked|
    ensures PicksUpTo(ranked, i) == AltcoinPicks(ranked[..i])
  {
    if i > 0 {
      PicksUpToSpec(ranked, i - 1);
      AltcoinPicksStep(ranked, i - 1);
    }
  }

  /** Visiting every ranked record yields exactly the picks. */
  lemma PicksUpToAll(ranked: seq<Record>)
    ensures PicksUpTo(ranked, |ranked|) == AltcoinPicks(ranked)
  {
    PicksUpToSpec(ranked, |ranked|);
    assert ranked[..|ranked|] == ranked;
  }

  lemma {:induction false} PicksUpToPrefix(ranked: seq<Record>, i: nat, j: nat)
    requires i <= j <= |ranked|
    ensures PicksUpTo(ranked, i) <= PicksUpTo(ranked, j)
    decreases j - i
  {
    if i < j {
      PicksUpToPrefix(ranked, i, j - 1);
    }
  }

  lemma HourlyMessagesSendCount(md: MarketData, john: Results, alpha: Results, ranked: seq<Record>)
    ensures SendCount(HourlyMessages(md, john, alpha, ranked))
         == (if BtcReportDue(md, john, alpha) then 1 else 0) + |AltcoinPicks(ranked)| + 1
  {
    var btc := BtcSection(md, john, alpha);
    var paced := Paced(HighPotential, AltcoinPicks(ranked), HOURLY_PAUSE);
    SendCountAppend(btc + paced, [Send(MarketOverview, None)]);
    SendCountAppend(btc, paced);
    PacedSendCount(HighPotential, AltcoinPicks(ranked), HOURLY_PAUSE);
    assert SendCount(btc) == if BtcReportDue(md, john, alpha) then 1 else 0;
  }

  /** A completed run is one whose collaborators all returned and whose messages all went out. */
  lemma HourlyCompletedRun(market: Try<MarketData>, john: Try<Results>, alpha: Try<Results>, ranked: Try<seq<Record>>,
                           failSend: Option<nat>)
    requires Hourly(market, john, alpha, ranked, failSend).ending == Completed
    ensures market.Ok? && market.value != [] && john.Ok? && alpha.Ok? && ranked.Ok?
    ensures Hourly(market, john, alpha, ranked, failSend).events
         == HourlyMessages(market.value, john.value, alpha.value, ranked.value)
  {
  }

  /** A run completes, and so stamps its time, exactly when nothing raised. */
  lemma HourlyCompletes(market: Try<MarketData>, john: Try<Results>, alpha: Try<Results>, ranked: Try<seq<Record>>,
                        failSend: Option<nat>)
    ensures Hourly(market, john, alpha, ranked, failSend).ending == Completed <==>
      market.Ok? && market.value != [] && john.Ok? && alpha.Ok? && ranked.Ok? &&
      !FailsWithin(failSend, (if BtcReportDue(market.value, john.value, alpha.value) then 1 else 0)
                             + |AltcoinPicks(ranked.value)| + 1)
  {
    if market.Ok? && market.value != [] && john.Ok? && alpha.Ok? && ranked.Ok? {
      HourlyMessagesSendCount(market.value, john.value, alpha.value, ranked.value);
    }
  }

  /** The Bitcoin section sends one Bitcoin report, for BTC, exactly when it is due. */
  lemma BtcSentOf(md: MarketData, john: Results, alpha: Results, kind: Kind)
    ensures SentOf(BtcSection(md, john, alpha), kind) ==
      (if BtcReportDue(md, john, alpha) && kind == BitcoinReport then [Some(BTC)] else [])
  {
    if BtcReportDue(md, john, alpha) {
      SentOfAppend([Send(BitcoinReport, Some(BTC))], [Sleep(HOURLY_PAUSE)], kind);
      SentOfSingle(Send(BitcoinReport, Some(BTC)), kind);
      SentOfSingle(Sleep(HOURLY_PAUSE), kind);
      assert [Send(BitcoinReport, Some(BTC))] + [Sleep(HOURLY_PAUSE)] == BtcSection(md, john, alpha);
    }
  }

  /** The sends of `kind` in the hourly messages, section by section. */
  lemma HourlyMessagesSentOf(md: MarketData, john: Results, alpha: Results, ranked: seq<Record>, kind: Kind)
    ensures SentOf(HourlyMessages(md, john, alpha, ranked), kind) ==
      SentOf(BtcSection(md, john, alpha), kind) +
      SentOf(Paced(HighPotential, AltcoinPicks(ranked), HOURLY_PAUSE), kind) +
      (if kind == MarketOverview then [None] else [])
  {
    var btc := BtcSection(md, john, alpha);
    var paced := Paced(HighPotential, AltcoinPicks(ranked), HOURLY_PAUSE);
    SentOfAppend(btc + paced, [Send(MarketOverview, None)], kind);
    SentOfAppend(btc, paced, kind);
    SentOfSingle(Send(MarketOverview, None), kind);
  }

  /** The overview is the last message of a completed run, and it is sent once. */
  lemma HourlyOverviewLast(market: Try<MarketData>, john: Try<Results>, alpha: Try<Results>, ranked: Try<seq<Record>>,
                           failSend: Option<nat>)
    requires Hourly(market, john, alpha, ranked, failSend).ending == Completed
    ensures var es := Hourly(market, john, alpha, ranked, failSend).events;
      es[|es| - 1] == Send(MarketOverview, None) && SentOf(es, MarketOverview) == [None]
  {
    HourlyCompletedRun(market, john, alpha, ranked, failSend);
    var md, j, a, rs := market.value, john.value, alpha.value, ranked.value;
    HourlyMessagesSentOf(md, j, a, rs, MarketOverview);
    BtcSentOf(md, j, a, MarketOverview);
    SentOfPaced(HighPotential, MarketOverview, AltcoinPicks(rs), HOURLY_PAUSE);
  }

  /**
   * A completed run sends the Bitcoin report exactly when it is due, at most once, and
   * then as its very first message, followed by the pause.
   */
  lemma HourlyBitcoinFirst(market: Try<MarketData>, john: Try<Results>, alpha: Try<Results>, ranked: Try<seq<Record>>,
                           failSend: Option<nat>)
    requires Hourly(market, john, alpha, ranked, failSend).ending == Completed
    ensures market.Ok? && john.Ok? && alpha.Ok?
    ensures var es := Hourly(market, john, alpha, ranked, failSend).events;
      && SentOf(es, BitcoinReport) == (if BtcReportDue(market.value, john.value, alpha.value) then [Some(BTC)] else [])
      && (BtcReportDue(market.value, john.value, alpha.value) ==>
            es[0] == Send(BitcoinReport, Some(BTC)) && es[1] == Sleep(HOURLY_PAUSE))
  {
    HourlyCompletedRun(market, john, alpha, ranked, failSend);
    var md, j, a, rs := market.value, john.value, alpha.value, ranked.value;
    HourlyMessagesSentOf(md, j, a, rs, BitcoinReport);
    BtcSentOf(md, j, a, BitcoinReport);
    SentOfPaced(HighPotential, BitcoinReport, AltcoinPicks(rs), HOURLY_PAUSE);
  }

  /** Inside the hourly messages, every high-potential alert is followed by the pause. */
  lemma HourlyAlertsPaced(md: MarketData, john: Results, alpha: Results, ranked: seq<Record>, i: nat)
    requires i < |HourlyMessages(md, john, alpha, ranked)|
    requires HourlyMessages(md, john, alpha, ranked)[i].Send?
    requires HourlyMessages(md, john, alpha, ranked)[i].kind == HighPotential
    ensures i + 1 < |HourlyMessages(md, john, alpha, ranked)|
    ensures HourlyMessages(md, john, alpha, ranked)[i + 1] == Sleep(HOURLY_PAUSE)
  {
    var es := HourlyMessages(md, john, alpha, ranked);
    var btc := BtcSection(md, john, alpha);
    var paced := Paced(HighPotential, AltcoinPicks(ranked), HOURLY_PAUSE);
    PacedShape(HighPotential, AltcoinPicks(ranked), HOURLY_PAUSE);
    assert |btc| <= i < |btc| + |paced|;
    var off := i - |btc|;
    var k := off / 2;
    assert off == 2 * k || off == 2 * k + 1;
    assert es[i] == paced[off];
    assert off == 2 * k;
    assert es[i + 1] == paced[2 * k + 1];
  }

  /**
   * A completed run sends one high-potential alert per pick, in ranked order, and
   * hence at most five and none for BTC.
   */
  lemma HourlyAltcoinAlerts(market: Try<MarketData>, john: Try<Results>, alpha: Try<Results>, ranked: Try<seq<Record>>,
                            failSend: Option<nat>)
    requires Hourly(market, john, alpha, ranked, failSend).ending == Completed
    ensures ranked.Ok?
    ensures var es := Hourly(market, john, alpha, ranked, failSend).events;
      && SentOf(es, HighPotential) == Symbols(AltcoinPicks(ranked.value))
      && |SentOf(es, HighPotential)| <= ALTCOIN_LIMIT
      && Some(BTC) !in SentOf(es, HighPotential)
  {
    HourlyCompletedRun(market, john, alpha, ranked, failSend);
    HourlyMessagesAlerts(market.value, john.value, alpha.value, ranked.value);
    AltcoinPicksSpec(ranked.value);
    AltcoinSymbolsNotBtc(ranked.value);
  }

  lemma HourlyMessagesAlerts(md: MarketData, john: Results, alpha: Results, ranked: seq<Record>)
    ensures SentOf(HourlyMessages(md, john, alpha, ranked), HighPotential) == Symbols(AltcoinPicks(ranked))
  {
    HourlyMessagesSentOf(md, john, alpha, ranked, HighPotential);
    BtcSentOf(md, john, alpha, HighPotential);
    SentOfPaced(HighPotential, BitcoinReport, AltcoinPicks(ranked), HOURLY_PAUSE);
  }

  lemma AltcoinSymbolsNotBtc(ranked: seq<Record>)
    ensures Some(BTC) !in Symbols(AltcoinPicks(ranked))
  {
    var picks := AltcoinPicks(ranked);
    var syms := Symbols(picks);
    AltcoinPicksSpec(ranked);
  }

  /** In a completed run every high-potential alert is followed by the 2-second pause. */
  lemma HourlyAlertsPausedAfter(market: Try<MarketData>, john: Try<Results>, alpha: Try<Results>, ranked: Try<seq<Record>>,
                                failSend: Option<nat>)
    requires Hourly(market, john, alpha, ranked, failSend).ending == Completed
    ensures var es := Hourly(market, john, alpha, ranked, failSend).events;
      forall i :: 0 <= i < |es| && es[i].Send? && es[i].kind == HighPotential ==>
        i + 1 < |es| && es[i + 1] == Sleep(HOURLY_PAUSE)
  {
    HourlyCompletedRun(market, john, alpha, ranked, failSend);
    var md, j, a, rs := market.value, john.value, alpha.value, ranked.value;
    var es := HourlyMessages(md, j, a, rs);
    forall i | 0 <= i < |es| && es[i].Send? && es[i].kind == HighPotential
      ensures i + 1 < |es| && es[i + 1] == Sleep(HOURLY_PAUSE)
    {
      HourlyAlertsPaced(md, j, a, rs, i);
    }
  }

  lemma HourlyPlanSendsNoError(market: Try<MarketData>, john: Try<Results>, alpha: Try<Results>, ranked: Try<seq<Record>>)
    ensures SentOf(HourlyPlan(market, john, alpha, ranked).events, AnalysisError) == []
  {
    if market.Raise? {
    } else if market.value == [] {
      SentOfSingle(Send(MarketDataUnavailable, None), AnalysisError);
    } else if john.Ok? && alpha.Ok? {
      var md, j, a := market.value, john.value, alpha.value;
      BtcSentOf(md, j, a, AnalysisError);
      if ranked.Ok? {
        HourlyMessagesSentOf(md, j, a, ranked.value, AnalysisError);
        SentOfPaced(HighPotential, AnalysisError, AltcoinPicks(ranked.value), HOURLY_PAUSE);
      }
    }
  }

  /** A run that raised ends with exactly one error message, after a prefix of the planned sends. */
  lemma HourlyErrorReported(market: Try<MarketData>, john: Try<Results>, alpha: Try<Results>, ranked: Try<seq<Record>>,
                            failSend: Option<nat>)
    requires Hourly(market, john, alpha, ranked, failSend).ending == Raised
    ensures var es := Hourly(market, john, alpha, ranked, failSend).events;
      && es[|es| - 1] == Send(AnalysisError, None)
      && SentOf(es, AnalysisError) == [None]
      && es[..|es| - 1] <= HourlyPlan(market, john, alpha, ranked).events
  {
    HourlyPlanSendsNoError(market, john, alpha, ranked);
    WithFailureRaised(HourlyPlan(market, john, alpha, ranked), failSend, HOURLY_ERROR);
    SentOfSingle(Send(AnalysisError, None), AnalysisError);
    RaisedSendsHandler(HourlyPlan(market, john, alpha, ranked), failSend, HOURLY_ERROR, AnalysisError);
  }

  // ------------------------------------------------------------- four-hour

  function FourHourPlan(market: Try<MarketData>, john: Try<Results>, alpha: Try<Results>, ranked: Try<seq<Record>>): Run {
    if market.Raise? then Run([], Raised)
    else if market.value == [] then Run([], Returned)
    else if john.Raise? || alpha.Raise? || ranked.Raise? then Run([], Raised)
    else Run(Paced(PremiumSignal, Take(ranked.value, PREMIUM_LIMIT), PREMIUM_PAUSE), Completed)
  }

  /** The four-hour handler only logs, so it sends nothing. */
  function FourHour(market: Try<MarketData>, john: Try<Results>, alpha: Try<Results>, ranked: Try<seq<Record>>,
                    failSend: Option<nat>): Run
  {
    WithFailure(FourHourPlan(market, john, alpha, ranked), failSend, [])
  }

  /** An empty snapshot is a silent no-op. */
  lemma FourHourNoData(john: Try<Results>, alpha: Try<Results>, ranked: Try<seq<Record>>, failSend: Option<nat>)
    ensures FourHour(Ok([]), john, alpha, ranked, failSend) == Run([], Returned)
  {
  }

  /**
   * A run completes exactly when nothing raised, and then it has sent the first
   * min(3, |ranked|) records as premium signals, in order, each followed by a 3-second pause.
   */
  lemma FourHourPremium(market: Try<MarketData>, john: Try<Results>, alpha: Try<Results>, ranked: Try<seq<Record>>,
                        failSend: Option<nat>)
    ensures FourHour(market, john, alpha, ranked, failSend).ending == Completed <==>
      market.Ok? && market.value != [] && john.Ok? && alpha.Ok? && ranked.Ok? &&
      !FailsWithin(failSend, Min(PREMIUM_LIMIT, |ranked.value|))
    ensures FourHour(market, john, alpha, ranked, failSend).ending == Completed ==>
      var es := FourHour(market, john, alpha, ranked, failSend).events;
      && |es| == 2 * Min(PREMIUM_LIMIT, |ranked.value|)
      && SendCount(es) == Min(PREMIUM_LIMIT, |ranked.value|)
      && forall i :: 0 <= i < Min(PREMIUM_LIMIT, |ranked.value|) ==>
           es[2 * i] == Send(PremiumSignal, ranked.value[i].symbol) && es[2 * i + 1] == Sleep(PREMIUM_PAUSE)
  {
    if market.Ok? && market.value != [] && john.Ok? && alpha.Ok? && ranked.Ok? {
      PacedSendCount(PremiumSignal, Take(ranked.value, PREMIUM_LIMIT), PREMIUM_PAUSE);
      PacedShape(PremiumSignal, Take(ranked.value, PREMIUM_LIMIT), PREMIUM_PAUSE);
    }
  }

  /** A run that did not complete sent only a prefix of its planned signals, and no error message. */
  lemma FourHourSilentFailure(market: Try<MarketData>, john: Try<Results>, alpha: Try<Results>, ranked: Try<seq<Record>>,
                              failSend: Option<nat>)
    requires FourHour(market, john, alpha, ranked, failSend).ending != Completed
    ensures FourHour(market, john, alpha, ranked, failSend).events <= FourHourPlan(market, john, alpha, ranked).events
    ensures SentOf(FourHour(market, john, alpha, ranked, failSend).events, AnalysisError) == []
  {
    var plan := FourHourPlan(market, john, alpha, ranked);
    var es := FourHour(market, john, alpha, ranked, failSend).events;
    assert es[..|es| - 0] == es;
    assert plan.events == es + plan.events[|es|..];
    SentOfAppend(es, plan.events[|es|..], AnalysisError);
    if plan.ending == Completed {
      SentOfPaced(PremiumSignal, AnalysisError, Take(ranked.value, PREMIUM_LIMIT), PREMIUM_PAUSE);
    }
  }

  // ---------------------------------------------------- volume/whale monitor

  /** The index of the first volume alert without a 'volume_increase' key (a KeyError), or |alerts|. */
  function FirstMissing(alerts: seq<Record>): (k: nat)
    ensures k <= |alerts|
  {
    if alerts == [] || alerts[0].volumeIncrease.None? then 0 else 1 + FirstMissing(alerts[1..])
  }

  /** Every alert before the first missing key has the key, and the one there lacks it. */
  lemma {:induction false} FirstMissingSpec(alerts: seq<Record>)
    ensures forall i :: 0 <= i < FirstMissing(alerts) ==> alerts[i].volumeIncrease.Some?
    ensures FirstMissing(alerts) < |alerts| ==> alerts[FirstMissing(alerts)].volumeIncrease.None?
  {
    if alerts != [] && alerts[0].volumeIncrease.Some? {
      FirstMissingSpec(alerts[1..]);
      forall i | 1 <= i < FirstMissing(alerts)
        ensures alerts[i].volumeIncrease.Some?
      {
        assert alerts[i] == alerts[1..][i - 1];
      }
    }
  }

  /** Scanning the alerts in order, the first one without the key is at the first missing index. */
  lemma FirstMissingAt(alerts: seq<Record>, i: nat)
    requires i <= FirstMissing(alerts) && i < |alerts|
    ensures alerts[i].volumeIncrease.None? <==> i == FirstMissing(alerts)
  {
    FirstMissingSpec(alerts);
  }

  predicate IsSpike(r: Record) {
    r.volumeIncrease.Some? && r.volumeIncrease.value >= VOLUME_SPIKE_THRESHOLD
  }

  /** The selected alerts among the first `i`, in the order the monitor's loop visits them. */
  function SpikesUpTo(alerts: seq<Record>, i: nat): seq<Record>
    requires i <= |alerts|
  {
    if i == 0 then [] else SpikesUpTo(alerts, i - 1) + (if IsSpike(alerts[i - 1]) then [alerts[i - 1]] else [])
  }

  lemma {:induction false} SpikesUpToFilter(alerts: seq<Record>, i: nat)
    requires i <= |alerts|
    ensures SpikesUpTo(alerts, i) == Filter(IsSpike, alerts[..i])
  {
    if i > 0 {
      SpikesUpToFilter(alerts, i - 1);
      FilterStep(IsSpike, alerts, i - 1);
    }
  }

  lemma {:induction false} SpikesUpToPrefix(alerts: seq<Record>, i: nat, j: nat)
    requires i <= j <= |alerts|
    ensures SpikesUpTo(alerts, i) <= SpikesUpTo(alerts, j)
    decreases j - i
  {
    if i < j {
      SpikesUpToPrefix(alerts, i, j - 1);
    }
  }

  function VolumePlan(volume: Try<seq<Record>>, whales: Try<seq<Record>>): Run {
    if volume.Raise? then Run([], Raised)
    else
      var k := FirstMissing(volume.value);
      var spikes := Announce(VolumeSpike, Filter(IsSpike, volume.value[..k]));
      if k < |volume.value| || whales.Raise? then Run(spikes, Raised)
      else Run(spikes + Announce(WhaleMovement, whales.value), Completed)
  }

  /** The monitor's handler only logs, so it sends nothing. */
  function VolumeMonitor(volume: Try<seq<Record>>, whales: Try<seq<Record>>, failSend: Option<nat>): Run {
    WithFailure(VolumePlan(volume, whales), failSend, [])
  }

  /** A volume alert is selected exactly when its increase is at least 300 percent, and only input alerts are selected. */
  lemma SpikeSelection(alerts: seq<Record>)
    ensures forall r :: r in alerts ==> (r in Filter(IsSpike, alerts) <==> IsSpike(r))
    ensures forall r :: r in Filter(IsSpike, alerts) ==> r in alerts
  {
    forall r | r in alerts && IsSpike(r)
      ensures r in Filter(IsSpike, alerts)
    {
      FilterKeeps(IsSpike, alerts, r);
    }
  }

  /** The monitor completes exactly when both detectors returned, every alert had the key and every send went out. */
  lemma VolumeMonitorCompletes(volume: Try<seq<Record>>, whales: Try<seq<Record>>, failSend: Option<nat>)
    ensures VolumeMonitor(volume, whales, failSend).ending == Completed <==>
      volume.Ok? && FirstMissing(volume.value) == |volume.value| && whales.Ok? &&
      !FailsWithin(failSend, |Filter(IsSpike, volume.value)| + |whales.value|)
  {
    if volume.Ok? && FirstMissing(volume.value) == |volume.value| && whales.Ok? {
      var spikes := Filter(IsSpike, volume.value);
      assert volume.value[..|volume.value|] == volume.value;
      AnnounceSendCount(VolumeSpike, spikes);
      AnnounceSendCount(WhaleMovement, whales.value);
      SendCountAppend(Announce(VolumeSpike, spikes), Announce(WhaleMovement, whales.value));
    }
  }

  lemma VolumeCompletedRun(volume: Try<seq<Record>>, whales: Try<seq<Record>>, failSend: Option<nat>)
    requires VolumeMonitor(volume, whales, failSend).ending == Completed
    ensures volume.Ok? && whales.Ok?
    ensures VolumeMonitor(volume, whales, failSend).events
         == Announce(VolumeSpike, Filter(IsSpike, volume.value)) + Announce(WhaleMovement, whales.value)
  {
    assert volume.value[..|volume.value|] == volume.value;
  }

  /**
   * A completed run sent the selected volume alerts and every whale alert, each in
   * input order, and nothing else.
   */
  lemma VolumeMonitorSends(volume: Try<seq<Record>>, whales: Try<seq<Record>>, failSend: Option<nat>)
    requires VolumeMonitor(volume, whales, failSend).ending == Completed
    ensures volume.Ok? && whales.Ok?
    ensures var es := VolumeMonitor(volume, whales, failSend).events;
      && SentOf(es, VolumeSpike) == Symbols(Filter(IsSpike, volume.value))
      && SentOf(es, WhaleMovement) == Symbols(whales.value)
      && SendCount(es) == |es|
  {
    VolumeCompletedRun(volume, whales, failSend);
    var a := Announce(VolumeSpike, Filter(IsSpike, volume.value));
    var b := Announce(WhaleMovement, whales.value);
    AnnounceSendCount(VolumeSpike, Filter(IsSpike, volume.value));
    AnnounceSendCount(WhaleMovement, whales.value);
    SendCountAppend(a, b);
    SentOfAppend(a, b, VolumeSpike);
    SentOfAppend(a, b, WhaleMovement);
    SentOfAnnounce(VolumeSpike, WhaleMovement, Filter(IsSpike, volume.value));
    SentOfAnnounce(WhaleMovement, VolumeSpike, whales.value);
  }

  /** In a completed run every volume-spike send comes before every whale send. */
  lemma VolumeBeforeWhales(volume: Try<seq<Record>>, whales: Try<seq<Record>>, failSend: Option<nat>)
    requires VolumeMonitor(volume, whales, failSend).ending == Completed
    ensures var es := VolumeMonitor(volume, whales, failSend).events;
      forall i, j ::
        (0 <= i < |es| && 0 <= j < |es| && es[i].Send? && es[i].kind == VolumeSpike &&
         es[j].Send? && es[j].kind == WhaleMovement) ==> i < j
  {
    VolumeCompletedRun(volume, whales, failSend);
    AnnounceShape(VolumeSpike, Filter(IsSpike, volume.value));
    AnnounceShape(WhaleMovement, whales.value);
  }

  /** An alert without the key stops the monitor: later alerts and all whale alerts go unsent. */
  lemma {:induction false} VolumeMonitorKeyError(alerts: seq<Record>, whales: Try<seq<Record>>, failSend: Option<nat>)
    requires FirstMissing(alerts) < |alerts|
    ensures VolumeMonitor(Ok(alerts), whales, failSend).ending == Raised
    ensures SentOf(VolumeMonitor(Ok(alerts), whales, failSend).events, WhaleMovement) == []
  {
    var picked := Filter(IsSpike, alerts[..FirstMissing(alerts)]);
    var plan := VolumePlan(Ok(alerts), whales);
    assert plan.events == Announce(VolumeSpike, picked) && plan.ending == Raised;
    SentOfAnnounce(VolumeSpike, WhaleMovement, picked);
    if FailsWithin(failSend, SendCount(plan.events)) {
      var done := BeforeSend(plan.events, failSend.value);
      assert done + [] == done;
      SentOfPrefix(done, plan.events, WhaleMovement);
    } else {
      assert plan.events + [] == plan.events;
    }
  }
}
