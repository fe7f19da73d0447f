/**
 * The bot's mutable state and its handlers, step by step: the module-level
 * `last_analysis_time` dict, the running flags of the three scheduled loops, the
 * bot's start time, and the trace of everything sent to Discord. Each handler is
 * proved to append exactly the events of its specification function (Jobs, Commands)
 * and to stamp its time exactly when that function says the run completed.
 *
 * What the collaborators return is a parameter (`Try` values), and so is the index
 * of the send attempt that raises (`failSend`, none when every send goes out).
 */
module Orchestrator {
  import opened Common
  import opened Trace
  import opened Market
  import opened Jobs
  import opened Commands

  class Bot {
    /** `last_analysis_time`: job name to the time its last completed run stamped. */
    var lastAnalysisTime: map<string, Time>
    /** Every message sent and every pause taken, in order. */
    var trace: seq<Event>
    /** The scheduled loops for which `is_running()` holds. */
    var running: set<Task>
    /** Every `start()` call, in order. */
    var launched: seq<Task>
    /** `bot.start_time`, absent until the first `on_ready`. */
    var startTime: Option<Time>

    constructor ()
      ensures lastAnalysisTime == map[] && trace == [] && running == {} && launched == [] && startTime == None
    {
      lastAnalysisTime := map[];
      trace := [];
      running := {};
      launched := [];
      startTime := None;
    }

    /** One `send`, the send attempt with index `attempt`; it raises when that is `failSend`. */
    method Emit(e: Event, failSend: Option<nat>, attempt: nat) returns (ok: bool)
      requires e.Send?
      modifies this`trace
      ensures ok <==> failSend != Some(attempt)
      ensures trace == if ok then old(trace) + [e] else old(trace)
    {
      ok := failSend != Some(attempt);
      if ok {
        trace := trace + [e];
      }
    }

    /** `await asyncio.sleep(secs)`. */
    method Pause(secs: nat)
      modifies this`trace
      ensures trace == old(trace) + [Sleep(secs)]
    {
      trace := trace + [Sleep(secs)];
    }

    /**
     * The `except` clause of a job or command when the send `failed`, the one with index
     * `sends`, raised after the run sent `done` on top of `start`: the handler's events
     * `onError` follow.
     */
    method Fault(ghost plan: Run, failSend: Option<nat>, onError: seq<Event>, ghost start: seq<Event>,
                 ghost done: seq<Event>, sends: nat, ghost failed: Event)
      returns (completed: bool)
      requires trace == start + done && sends == SendCount(done)
      requires failed.Send? && done + [failed] <= plan.events && failSend == Some(sends)
      modifies this`trace
      ensures trace == start + WithFailure(plan, failSend, onError).events
      ensures completed <==> WithFailure(plan, failSend, onError).ending == Completed
    {
      BeforeSendPrefix(plan.events, done, failed);
      trace := trace + onError;
      completed := false;
    }

    /**
     * The end of a job or command none of whose sends raised: the body sent `done` on top
     * of `start` and ended as `ending` says; the handler's events `onError` follow a raise.
     */
    method Finish(ghost plan: Run, failSend: Option<nat>, onError: seq<Event>, ghost start: seq<Event>,
                  ghost done: seq<Event>, sends: nat, ending: Ending)
      returns (completed: bool)
      requires trace == start + done && sends == SendCount(done)
      requires done == plan.events && ending == plan.ending && (failSend.Some? ==> failSend.value >= sends)
      modifies this`trace
      ensures trace == start + WithFailure(plan, failSend, onError).events
      ensures completed <==> WithFailure(plan, failSend, onError).ending == Completed
    {
      if ending == Raised {
        trace := trace + onError;
      }
      completed := ending == Completed;
    }

    /**
     * Sends one `kind` alert per record of `rs`, each followed by a pause, until a send
     * raises; `shown` are the records whose alert went out.
     */
    method PacedAlerts(kind: Kind, rs: seq<Record>, secs: nat, failSend: Option<nat>, first: nat)
      returns (ok: bool, sends: nat, ghost shown: seq<Record>)
      requires failSend.Some? ==> failSend.value >= first
      modifies this`trace
      ensures trace == old(trace) + Paced(kind, shown, secs)
      ensures shown <= rs && sends == first + |shown|
      ensures ok ==> shown == rs && (failSend.Some? ==> failSend.value >= sends)
      ensures !ok ==> |shown| < |rs| && failSend == Some(sends)
    {
      shown, sends := [], first;
      for i := 0 to |rs|
        invariant shown == rs[..i] && sends == first + i
        invariant trace == old(trace) + Paced(kind, shown, secs)
        invariant failSend.Some? ==> failSend.value >= sends
      {
        ok := Emit(Send(kind, rs[i].symbol), failSend, sends);
        if !ok {
          return;
        }
        Pause(secs);
        PacedSnoc(kind, shown, rs[i], secs);
        assert rs[..i + 1] == shown + [rs[i]];
        shown, sends := shown + [rs[i]], sends + 1;
      }
      assert rs[..|rs|] == rs;
      ok := true;
    }

    /** Sends one `kind` alert per record of `rs`, without pauses, until a send raises. */
    method AnnounceAlerts(kind: Kind, rs: seq<Record>, failSend: Option<nat>, first: nat)
      returns (ok: bool, sends: nat, ghost shown: seq<Record>)
      requires failSend.Some? ==> failSend.value >= first
      modifies this`trace
      ensures trace == old(trace) + Announce(kind, shown)
      ensures shown <= rs && sends == first + |shown|
      ensures ok ==> shown == rs && (failSend.Some? ==> failSend.value >= sends)
      ensures !ok ==> |shown| < |rs| && failSend == Some(sends)
    {
      shown, sends := [], first;
      for i := 0 to |rs|
        invariant shown == rs[..i] && sends == first + i
        invariant trace == old(trace) + Announce(kind, shown)
        invariant failSend.Some? ==> failSend.value >= sends
      {
        ok := Emit(Send(kind, rs[i].symbol), failSend, sends);
        if !ok {
          return;
        }
        AnnounceSnoc(kind, shown, rs[i]);
        assert rs[..i + 1] == shown + [rs[i]];
        shown, sends := shown + [rs[i]], sends + 1;
      }
      assert rs[..|rs|] == rs;
      ok := true;
    }

    // ------------------------------------------------------------------ hourly

    /**
     * The altcoin loop of the hourly job (main.py:62-69): an alert and a pause for each
     * ranked record that is not BTC while fewer than five were sent, until a send raises.
     */
    method AltcoinAlerts(opportunities: seq<Record>, failSend: Option<nat>, first: nat, ghost all: seq<Record>)
      returns (ok: bool, sends: nat, ghost shown: seq<Record>)
      requires all == PicksUpTo(opportunities, |opportunities|)
      requires failSend.Some? ==> failSend.value >= first
      modifies this`trace
      ensures trace == old(trace) + Paced(HighPotential, shown, HOURLY_PAUSE)
      ensures shown <= all && sends == first + |shown|
      ensures ok ==> shown == all && (failSend.Some? ==> failSend.value >= sends)
      ensures !ok ==> |shown| < |all| && failSend == Some(sends)
    {
      shown, sends := [], first;
      var altcoinCount := 0;
      for i := 0 to |opportunities|
        invariant shown == PicksUpTo(opportunities, i)
        invariant altcoinCount == |shown| && sends == first + altcoinCount
        invariant trace == old(trace) + Paced(HighPotential, shown, HOURLY_PAUSE)
        invariant failSend.Some? ==> failSend.value >= sends
      {
        var opportunity := opportunities[i];
        if opportunity.symbol != Some(BTC) && altcoinCount < ALTCOIN_LIMIT {
          ok := Emit(Send(HighPotential, opportunity.symbol), failSend, sends);
          if !ok {
            PicksUpToPrefix(opportunities, i + 1, |opportunities|);
            return;
          }
          Pause(HOURLY_PAUSE);
          PacedSnoc(HighPotential, shown, opportunity, HOURLY_PAUSE);
          shown, sends := shown + [opportunity], sends + 1;
          altcoinCount := altcoinCount + 1;
        }
      }
      ok := true;
    }

    /** The hourly job (main.py:22-79). */
    method HourlyAnalysis(market: Try<MarketData>, john: Try<Results>, alpha: Try<Results>,
                          ranked: Try<seq<Record>>, failSend: Option<nat>, now: Time)
      modifies this`trace, this`lastAnalysisTime
      ensures trace == old(trace) + Hourly(market, john, alpha, ranked, failSend).events
      ensures lastAnalysisTime
           == if Hourly(market, john, alpha, ranked, failSend).ending == Completed
              then old(lastAnalysisTime)[HOURLY_KEY := now] else old(lastAnalysisTime)
    {
      var completed := HourlyBody(market, john, alpha, ranked, failSend, trace);
      if completed {
        lastAnalysisTime := lastAnalysisTime[HOURLY_KEY := now];
      }
    }

    /** The `try` block of the hourly job and its handler, up to the time stamp. */
    method HourlyBody(market: Try<MarketData>, john: Try<Results>, alpha: Try<Results>,
                      ranked: Try<seq<Record>>, failSend: Option<nat>, ghost start: seq<Event>)
      returns (completed: bool)
      requires trace == start
      modifies this`trace
      ensures trace == start + Hourly(market, john, alpha, ranked, failSend).events
      ensures completed <==> Hourly(market, john, alpha, ranked, failSend).ending == Completed
    {
      ghost var plan := HourlyPlan(market, john, alpha, ranked);
      if market.Raise? {
        completed := Finish(plan, failSend, HOURLY_ERROR, start, [], 0, Raised);
      } else if market.value == [] {
        var warning := Send(MarketDataUnavailable, None);
        var ok := Emit(warning, failSend, 0);
        if ok {
          assert SendCount([warning]) == 1;
          completed := Finish(plan, failSend, HOURLY_ERROR, start, [warning], 1, Returned);
        } else {
          completed := Fault(plan, failSend, HOURLY_ERROR, start, [], 0, warning);
        }
      } else if john.Raise? || alpha.Raise? {
        completed := Finish(plan, failSend, HOURLY_ERROR, start, [], 0, Raised);
      } else {
        completed := HourlyReports(market.value, john.value, alpha.value, ranked, failSend, plan, start);
      }
    }

    /** The hourly job once the snapshot and both analyses are in: the reports and the handler. */
    method HourlyReports(marketData: MarketData, johnResults: Results, alphaResults: Results,
                         ranked: Try<seq<Record>>, failSend: Option<nat>, ghost plan: Run, ghost start: seq<Event>)
      returns (completed: bool)
      requires trace == start
      requires plan == if ranked.Raise? then Run(BtcSection(marketData, johnResults, alphaResults), Raised)
                       else Run(HourlyMessages(marketData, johnResults, alphaResults, ranked.value), Completed)
      modifies this`trace
      ensures trace == start + WithFailure(plan, failSend, HOURLY_ERROR).events
      ensures completed <==> WithFailure(plan, failSend, HOURLY_ERROR).ending == Completed
    {
      ghost var btc := BtcSection(marketData, johnResults, alphaResults);
      var sends := 0;
      if BTC in Listed(marketData) && (Reported(johnResults, BTC) || Reported(alphaResults, BTC)) {
        var report := Send(BitcoinReport, Some(BTC));
        var ok := Emit(report, failSend, 0);
        if !ok {
          completed := Fault(plan, failSend, HOURLY_ERROR, start, [], 0, report);
          return;
        }
        Pause(HOURLY_PAUSE);
        sends := 1;
      }
      assert SendCount(btc) == sends && trace == start + btc;
      if ranked.Raise? {
        completed := Finish(plan, failSend, HOURLY_ERROR, start, btc, sends, Raised);
        return;
      }
      assert plan.events == btc + Paced(HighPotential, AltcoinPicks(ranked.value), HOURLY_PAUSE) + [Send(MarketOverview, None)];
      completed := HourlyTail(ranked.value, failSend, sends, plan, start, btc);
    }

    /** The hourly job from the altcoin alerts on. */
    method HourlyTail(opportunities: seq<Record>, failSend: Option<nat>, first: nat,
                      ghost plan: Run, ghost start: seq<Event>, ghost btc: seq<Event>)
      returns (completed: bool)
      requires plan.ending == Completed
      requires plan.events == btc + Paced(HighPotential, AltcoinPicks(opportunities), HOURLY_PAUSE) + [Send(MarketOverview, None)]
      requires trace == start + btc && first == SendCount(btc)
      requires failSend.Some? ==> failSend.value >= first
      modifies this`trace
      ensures trace == start + WithFailure(plan, failSend, HOURLY_ERROR).events
      ensures completed <==> WithFailure(plan, failSend, HOURLY_ERROR).ending == Completed
    {
      ghost var all := AltcoinPicks(opportunities);
      var overview := Send(MarketOverview, None);
      PicksUpToAll(opportunities);
      var ok, sends, shown := AltcoinAlerts(opportunities, failSend, first, all);
      ghost var done := btc + Paced(HighPotential, shown, HOURLY_PAUSE);
      SendCountAppend(btc, Paced(HighPotential, shown, HOURLY_PAUSE));
      PacedSendCount(HighPotential, shown, HOURLY_PAUSE);
      Assoc(start, btc, Paced(HighPotential, shown, HOURLY_PAUSE));
      if !ok {
        assert shown + [all[|shown|]] <= all;
        assert btc + Paced(HighPotential, all, HOURLY_PAUSE) <= btc + Paced(HighPotential, all, HOURLY_PAUSE) + [overview];
        PacedNextSend(HighPotential, btc, shown, all[|shown|], all, HOURLY_PAUSE, plan.events);
        completed := Fault(plan, failSend, HOURLY_ERROR, start, done, sends, Send(HighPotential, all[|shown|].symbol));
      } else {
        completed := LastSend(plan, failSend, HOURLY_ERROR, start, done, sends, overview, Completed);
      }
    }

    /** The last send of a body that ends with `ending`, after `done` went out. */
    method LastSend(ghost plan: Run, failSend: Option<nat>, onError: seq<Event>, ghost start: seq<Event>,
                    ghost done: seq<Event>, sends: nat, last: Event, ending: Ending)
      returns (completed: bool)
      requires last.Send? && plan == Run(done + [last], ending)
      requires trace == start + done && sends == SendCount(done)
      requires failSend.Some? ==> failSend.value >= sends
      modifies this`trace
      ensures trace == start + WithFailure(plan, failSend, onError).events
      ensures completed <==> WithFailure(plan, failSend, onError).ending == Completed
    {
      var ok := Emit(last, failSend, sends);
      SendCountAppend(done, [last]);
      assert start + (done + [last]) == start + done + [last];
      if ok {
        completed := Finish(plan, failSend, onError, start, done + [last], sends + 1, ending);
      } else {
        completed := Fault(plan, failSend, onError, start, done, sends, last);
      }
    }

    // --------------------------------------------------------------- four-hour

    /** The four-hour job (main.py:81-111). */
    method FourHourAnalysis(market: Try<MarketData>, john: Try<Results>, alpha: Try<Results>,
                            ranked: Try<seq<Record>>, failSend: Option<nat>, now: Time)
      modifies this`trace, this`lastAnalysisTime
      ensures trace == old(trace) + FourHour(market, john, alpha, ranked, failSend).events
      ensures lastAnalysisTime
           == if FourHour(market, john, alpha, ranked, failSend).ending == Completed
              then old(lastAnalysisTime)[FOUR_HOUR_KEY := now] else old(lastAnalysisTime)
    {
      var completed := FourHourBody(market, john, alpha, ranked, failSend, trace);
      if completed {
        lastAnalysisTime := lastAnalysisTime[FOUR_HOUR_KEY := now];
      }
    }

    /** The `try` block of the four-hour job and its handler, up to the time stamp. */
    method FourHourBody(market: Try<MarketData>, john: Try<Results>, alpha: Try<Results>,
                        ranked: Try<seq<Record>>, failSend: Option<nat>, ghost start: seq<Event>)
      returns (completed: bool)
      requires trace == start
      modifies this`trace
      ensures trace == start + FourHour(market, john, alpha, ranked, failSend).events
      ensures completed <==> FourHour(market, john, alpha, ranked, failSend).ending == Completed
    {
      ghost var plan := FourHourPlan(market, john, alpha, ranked);
      if market.Raise? {
        completed := Finish(plan, failSend, [], start, [], 0, Raised);
      } else if market.value == [] {
        completed := Finish(plan, failSend, [], start, [], 0, Returned);
      } else if john.Raise? || alpha.Raise? || ranked.Raise? {
        completed := Finish(plan, failSend, [], start, [], 0, Raised);
      } else {
        completed := PremiumSignals(ranked.value, failSend, plan, start);
      }
    }

    /** The premium-signal loop of the four-hour job and its handler. */
    method PremiumSignals(opportunities: seq<Record>, failSend: Option<nat>, ghost plan: Run, ghost start: seq<Event>)
      returns (completed: bool)
      requires plan == Run(Paced(PremiumSignal, Take(opportunities, PREMIUM_LIMIT), PREMIUM_PAUSE), Completed)
      requires trace == start
      modifies this`trace
      ensures trace == start + WithFailure(plan, failSend, []).events
      ensures completed <==> WithFailure(plan, failSend, []).ending == Completed
    {
      var top := Take(opportunities, PREMIUM_LIMIT);
      var ok, sends, shown := PacedAlerts(PremiumSignal, top, PREMIUM_PAUSE, failSend, 0);
      ghost var done := Paced(PremiumSignal, shown, PREMIUM_PAUSE);
      PacedSendCount(PremiumSignal, shown, PREMIUM_PAUSE);
      if !ok {
        assert shown + [top[|shown|]] <= top;
        assert [] + Paced(PremiumSignal, top, PREMIUM_PAUSE) == plan.events;
        PacedNextSend(PremiumSignal, [], shown, top[|shown|], top, PREMIUM_PAUSE, plan.events);
        assert [] + done == done;
        completed := Fault(plan, failSend, [], start, done, sends, Send(PremiumSignal, top[|shown|].symbol));
      } else {
        completed := Finish(plan, failSend, [], start, done, sends, Completed);
      }
    }

    // ------------------------------------------------------------ volume monitor

    /**
     * The volume-spike loop of the monitor (main.py:124-129): an alert for each record
     * whose increase is at least 300 percent, until a record without the key (a
     * `KeyError`, reported in `keyError`) or a send that raises (`!ok`).
     */
    method VolumeSpikes(alerts: seq<Record>, failSend: Option<nat>, ghost k: nat, ghost spikes: seq<Record>)
      returns (ok: bool, keyError: bool, sends: nat, ghost shown: seq<Record>)
      requires k == FirstMissing(alerts) && spikes == SpikesUpTo(alerts, k)
      modifies this`trace
      ensures trace == old(trace) + Announce(VolumeSpike, shown)
      ensures shown <= spikes && sends == |shown|
      ensures ok ==> shown == spikes && (keyError <==> k < |alerts|) && (failSend.Some? ==> failSend.value >= sends)
      ensures !ok ==> |shown| < |spikes| && failSend == Some(sends)
    {
      shown, sends := [], 0;
      ok, keyError := true, false;
      var i := 0;
      while i < |alerts|
        invariant i <= k && i <= |alerts|
        invariant shown == SpikesUpTo(alerts, i) && sends == |shown|
        invariant trace == old(trace) + Announce(VolumeSpike, shown)
        invariant failSend.Some? ==> failSend.value >= sends
      {
        var alert := alerts[i];
        FirstMissingAt(alerts, i);
        if alert.volumeIncrease.None? {
          keyError := true;
          break;
        }
        if alert.volumeIncrease.value >= VOLUME_SPIKE_THRESHOLD {
          ok := Emit(Send(VolumeSpike, alert.symbol), failSend, sends);
          if !ok {
            break;
          }
          AnnounceSnoc(VolumeSpike, shown, alert);
          shown, sends := shown + [alert], sends + 1;
        }
        i := i + 1;
      }
      if ok {
        assert i == k;
      } else {
        SpikesUpToPrefix(alerts, i + 1, k);
      }
    }

    /** The volume and whale monitor (main.py:113-138); it stamps no time. */
    method VolumeSpikeMonitor(volume: Try<seq<Record>>, whales: Try<seq<Record>>, failSend: Option<nat>)
      modifies this`trace
      ensures trace == old(trace) + VolumeMonitor(volume, whales, failSend).events
    {
      ghost var plan := VolumePlan(volume, whales);
      ghost var start := trace;
      var completed;
      if volume.Raise? {
        completed := Finish(plan, failSend, [], start, [], 0, Raised);
        return;
      }
      var alerts := volume.value;
      ghost var spikes := Filter(IsSpike, alerts[..FirstMissing(alerts)]);
      SpikesUpToFilter(alerts, FirstMissing(alerts));
      var ok, keyError, sends, shown := VolumeSpikes(alerts, failSend, FirstMissing(alerts), spikes);
      ghost var done := Announce(VolumeSpike, shown);
      AnnounceSendCount(VolumeSpike, shown);
      ghost var stopped := FirstMissing(alerts) < |alerts| || whales.Raise?;
      ghost var later := if stopped then [] else Announce(WhaleMovement, whales.value);
      assert plan.events == Announce(VolumeSpike, spikes) + later;
      if !ok {
        assert shown + [spikes[|shown|]] <= spikes;
        assert Announce(VolumeSpike, spikes) <= Announce(VolumeSpike, spikes) + later;
        AnnounceNextSend(VolumeSpike, [], shown, spikes[|shown|], spikes, plan.events);
        assert [] + done == done;
        completed := Fault(plan, failSend, [], start, done, sends, Send(VolumeSpike, spikes[|shown|].symbol));
        return;
      }
      if keyError || whales.Raise? {
        completed := Finish(plan, failSend, [], start, done, sends, Raised);
        return;
      }
      completed := WhaleAlerts(whales.value, failSend, sends, plan, start, done);
    }

    /** The whale loop of the monitor (main.py:131-135), after the volume spikes `before`, and the handler. */
    method WhaleAlerts(whales: seq<Record>, failSend: Option<nat>, first: nat,
                       ghost plan: Run, ghost start: seq<Event>, ghost before: seq<Event>)
      returns (completed: bool)
      requires plan == Run(before + Announce(WhaleMovement, whales), Completed)
      requires trace == start + before && first == SendCount(before)
      requires failSend.Some? ==> failSend.value >= first
      modifies this`trace
      ensures trace == start + WithFailure(plan, failSend, []).events
      ensures completed <==> WithFailure(plan, failSend, []).ending == Completed
    {
      var ok, sends, shown := AnnounceAlerts(WhaleMovement, whales, failSend, first);
      ghost var done := before + Announce(WhaleMovement, shown);
      SendCountAppend(before, Announce(WhaleMovement, shown));
      AnnounceSendCount(WhaleMovement, shown);
      Assoc(start, before, Announce(WhaleMovement, shown));
      if !ok {
        assert shown + [whales[|shown|]] <= whales;
        AnnounceNextSend(WhaleMovement, before, shown, whales[|shown|], whales, plan.events);
        completed := Fault(plan, failSend, [], start, done, sends, Send(WhaleMovement, whales[|shown|].symbol));
      } else {
        completed := Finish(plan, failSend, [], start, done, sends, Completed);
      }
    }

    // ------------------------------------------------------------------ commands

    /** The `!analisis [coin]` command (main.py:140-176). */
    method ManualAnalysis(coin: Option<string>, market: Try<MarketData>, deep: Try<Results>,
                          john: Try<Results>, alpha: Try<Results>, ranked: Try<seq<Record>>, failSend: Option<nat>)
      modifies this`trace
      ensures trace == old(trace) + Manual(coin, market, deep, john, alpha, ranked, failSend).events
    {
      ghost var plan := ManualPlan(coin, market, deep, john, alpha, ranked);
      ghost var start := trace;
      var completed;
      var analyzing := Send(Analyzing, None);
      var ok := Emit(analyzing, failSend, 0);
      if !ok {
        completed := Fault(plan, failSend, MANUAL_ERROR, start, [], 0, analyzing);
      } else if market.Raise? {
        assert SendCount([analyzing]) == 1;
        completed := Finish(plan, failSend, MANUAL_ERROR, start, [analyzing], 1, Raised);
      } else if market.value == [] {
        assert SendCount([analyzing]) == 1;
        completed := LastSend(plan, failSend, MANUAL_ERROR, start, [analyzing], 1, Send(FetchFailed, None), Returned);
      } else if coin.Some? && coin.value != "" {
        completed := ManualCoin(Upper(coin.value), market.value, deep, failSend, plan, start);
      } else if john.Raise? || alpha.Raise? || ranked.Raise? {
        assert SendCount([analyzing]) == 1;
        completed := Finish(plan, failSend, MANUAL_ERROR, start, [analyzing], 1, Raised);
      } else {
        completed := ManualMarket(ranked.value, failSend, plan, start);
      }
    }

    /** The single-coin path of the manual command, after the coin `c` was upper-cased. */
    method ManualCoin(c: string, marketData: MarketData, deep: Try<Results>, failSend: Option<nat>,
                      ghost plan: Run, ghost start: seq<Event>)
      returns (completed: bool)
      requires plan == if c !in Listed(marketData) then Run([Send(Analyzing, None), Send(CoinNotFound, Some(c))], Completed)
                       else if deep.Raise? then Run([Send(Analyzing, None)], Raised)
                       else Run([Send(Analyzing, None), Send(CoinReport, Some(c))], Completed)
      requires trace == start + [Send(Analyzing, None)]
      requires failSend.Some? ==> failSend.value >= 1
      modifies this`trace
      ensures trace == start + WithFailure(plan, failSend, MANUAL_ERROR).events
      ensures completed <==> WithFailure(plan, failSend, MANUAL_ERROR).ending == Completed
    {
      var analyzing := Send(Analyzing, None);
      if c in Listed(marketData) && deep.Raise? {
        assert SendCount([analyzing]) == 1;
        completed := Finish(plan, failSend, MANUAL_ERROR, start, [analyzing], 1, Raised);
      } else if c in Listed(marketData) {
        assert SendCount([analyzing]) == 1;
        completed := LastSend(plan, failSend, MANUAL_ERROR, start, [analyzing], 1, Send(CoinReport, Some(c)), Completed);
      } else {
        assert SendCount([analyzing]) == 1;
        completed := LastSend(plan, failSend, MANUAL_ERROR, start, [analyzing], 1, Send(CoinNotFound, Some(c)), Completed);
      }
    }

    /**
     * The numbered-alert loop of the manual command (main.py:169-174): alerts numbered
     * from one for the records of `top`, a pause after each numbered below three, until
     * a send raises.
     */
    method OpportunityAlerts(top: seq<Record>, failSend: Option<nat>, first: nat)
      returns (ok: bool, sends: nat, ghost shown: seq<Record>)
      requires failSend.Some? ==> failSend.value >= first
      modifies this`trace
      ensures trace == old(trace) + Numbered(shown, 1)
      ensures shown <= top && sends == first + |shown|
      ensures ok ==> shown == top && (failSend.Some? ==> failSend.value >= sends)
      ensures !ok ==> |shown| < |top| && failSend == Some(sends)
    {
      shown, sends := [], first;
      for i := 0 to |top|
        invariant shown == top[..i] && sends == first + i
        invariant trace == old(trace) + Numbered(shown, 1)
        invariant failSend.Some? ==> failSend.value >= sends
      {
        var n := i + 1;
        ok := Emit(Send(OpportunityAlert(n), top[i].symbol), failSend, sends);
        if !ok {
          return;
        }
        if n < MANUAL_LIMIT {
          Pause(MANUAL_PAUSE);
        }
        NumberedSnoc(shown, top[i]);
        assert top[..i + 1] == shown + [top[i]];
        shown, sends := shown + [top[i]], sends + 1;
      }
      assert top[..|top|] == top;
      ok := true;
    }

    /** The whole-market path of the manual command, once both analyses and the ranking are in. */
    method ManualMarket(opportunities: seq<Record>, failSend: Option<nat>, ghost plan: Run, ghost start: seq<Event>)
      returns (completed: bool)
      requires plan == Run([Send(Analyzing, None)] + Numbered(Take(opportunities, MANUAL_LIMIT), 1), Completed)
      requires trace == start + [Send(Analyzing, None)]
      requires failSend.Some? ==> failSend.value >= 1
      modifies this`trace
      ensures trace == start + WithFailure(plan, failSend, MANUAL_ERROR).events
      ensures completed <==> WithFailure(plan, failSend, MANUAL_ERROR).ending == Completed
    {
      ghost var head := [Send(Analyzing, None)];
      var top := Take(opportunities, MANUAL_LIMIT);
      var ok, sends, shown := OpportunityAlerts(top, failSend, 1);
      ghost var done := head + Numbered(shown, 1);
      NumberedShape(shown, 1);
      SendCountAppend(head, Numbered(shown, 1));
      assert SendCount(head) == 1;
      Assoc(start, head, Numbered(shown, 1));
      if !ok {
        assert shown + [top[|shown|]] <= top;
        NumberedNextSend(head, shown, top[|shown|], top, plan.events);
        completed := Fault(plan, failSend, MANUAL_ERROR, start, done, sends,
                           Send(OpportunityAlert(1 + |shown|), top[|shown|].symbol));
      } else {
        completed := Finish(plan, failSend, MANUAL_ERROR, start, done, sends, Completed);
      }
    }

    /** The `!top [timeframe]` command (main.py:178-217). */
    method TopGainersCommand(timeframe: string, market: Try<MarketData>, failSend: Option<nat>)
      modifies this`trace
      ensures trace == old(trace) + Top(timeframe, market, failSend).events
    {
      ghost var plan := TopPlan(timeframe, market);
      ghost var start := trace;
      var completed;
      var fetching := Send(FetchingTopGainers, None);
      var ok := Emit(fetching, failSend, 0);
      if !ok {
        completed := Fault(plan, failSend, TOP_ERROR, start, [], 0, fetching);
      } else if market.Raise? {
        assert SendCount([fetching]) == 1;
        completed := Finish(plan, failSend, TOP_ERROR, start, [fetching], 1, Raised);
      } else {
        var reply;
        var ending;
        if market.value == [] {
          reply, ending := Send(FetchFailed, None), Returned;
        } else {
          var sortedCoins := TopGainers(market.value, timeframe);
          reply, ending := Send(TopGainersTable(CoinSymbols(sortedCoins)), None), Completed;
        }
        assert SendCount([fetching]) == 1;
        completed := LastSend(plan, failSend, TOP_ERROR, start, [fetching], 1, reply, ending);
      }
    }

    /** The `!alerts [type]` command (main.py:219-228): one reply, a confirmation only for a known type. */
    method ToggleAlerts(alertType: string)
      modifies this`trace
      ensures trace == old(trace) + [Send(AlertsReply(alertType), None)]
    {
      if alertType !in ALERT_TYPES {
        trace := trace + [Send(InvalidAlertType, None)];
        return;
      }
      trace := trace + [Send(AlertSettingsUpdated(alertType), None)];
    }

    // ------------------------------------------------------------------ startup

    /** `if not task.is_running(): task.start()`. */
    method StartIfStopped(t: Task)
      modifies this`running, this`launched
      ensures running == old(running) + {t}
      ensures launched == old(launched) + (if t in old(running) then [] else [t])
    {
      if t !in running {
        launched := launched + [t];
        running := running + {t};
      }
    }

    /**
     * The startup handler (main.py:260-292): records the start time, starts each of the
     * three scheduled tasks that is not already running, in order, and announces itself.
     */
    method OnReady(now: Time)
      modifies this`startTime, this`running, this`launched, this`trace
      ensures startTime == Some(now)
      ensures launched == old(launched) + ToLaunch(old(running))
      ensures running == old(running) + {HourlyTask, FourHourTask, VolumeTask}
      ensures trace == old(trace) + [Send(BotOnline, None)]
    {
      startTime := Some(now);
      ghost var r0, l0 := running, launched;
      ghost var a := if HourlyTask in r0 then [] else [HourlyTask];
      ghost var b := if FourHourTask in r0 then [] else [FourHourTask];
      ghost var c := if VolumeTask in r0 then [] else [VolumeTask];
      StartIfStopped(HourlyTask);
      assert launched == l0 + a;
      StartIfStopped(FourHourTask);
      assert launched == l0 + a + b;
      StartIfStopped(VolumeTask);
      assert launched == l0 + a + b + c;
      assert ToLaunch(r0) == a + b + c;
      Assoc(l0, a + b, c);
      Assoc(l0, a, b);
      trace := trace + [Send(BotOnline, None)];
    }
  }
}
