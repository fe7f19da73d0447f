# Crypto analysis bot: the decision core of `main.py`

This project models the part of the Discord crypto-analysis bot that decides what gets
sent to the channel. It covers the three scheduled jobs (hourly analysis, four-hour deep
analysis, volume/whale monitor) and the chat commands (`!analisis`, `!top`, `!alerts`),
plus the start-if-not-running logic of the startup handler. For each of them it models
which messages go out, in what order, with which pauses between them, and when the
shared `last_analysis_time` map is stamped.

A message is modelled by its kind and, where it is about one coin, the coin's symbol
(`Trace.Event.Send`). An `await asyncio.sleep(n)` is `Trace.Event.Sleep(n)`. The
collaborators (market snapshot, the two AI analyses, the ranking, deep coin analysis,
the volume and whale detectors) are parameters of type `Try<T>`: either the value they
returned or an exception they raised. Any `send` may raise as well. The parameter
`failSend` names the 0-based index of the send attempt that raises, or none.

The model has two layers:

- **Specification functions.** Every job and command has a function `XPlan` describing
  its `try` body: the events it emits and how it ends (it completes, returns early, or
  raises). The function `X = WithFailure(XPlan, failSend, handler)` adds the failing send
  and the `except` handler (`Jobs`, `Commands`, `Trace.WithFailure`).
- **The class.** `Orchestrator.Bot` holds the state: `lastAnalysisTime`, the trace, the
  running set and the launch record of the scheduled loops, and `startTime`. Each handler
  is a method that runs the source's loops and sends step by step. It is proved to append
  exactly `X(...).events` and to stamp its key exactly when `X(...)` completed. The lemmas
  in `Jobs`, `Commands` and `Market` prove about `X` what the source promises.

Files:

- `common.dfy`: `Option`, `Try`, `Filter`, `Take` (Python's `s[:n]`).
- `trace.dfy`: events, runs, counting sends, and the failure model `WithFailure`.
- `market.dfy`: the snapshot, analysis results, the stable descending sort, top gainers, upper-casing.
- `jobs.dfy`: the hourly, four-hour and volume-monitor specifications and their properties.
- `commands.dfy`: the manual analysis, top gainers, alert types, and which tasks startup launches.
- `bot.dfy`: the `Bot` class and its handler methods.

## Model

| member | source | states |
|---|---|---|
| Orchestrator.Bot.HourlyAnalysis | main.py:22-79 | appends exactly the hourly job's events; sets `last_analysis_time["hourly"]` to `now` exactly when the run completed, and leaves every other key (and the map on any other ending) unchanged |
| Orchestrator.Bot.HourlyReports | main.py:43-59 | the BTC report and its pause are sent only when due; a raising ranking ends the body after them |
| Orchestrator.Bot.AltcoinAlerts | main.py:62-69 | the counter loop sends, in ranked order, each record that is not BTC while fewer than five were sent, with a 2-second pause after each; the records sent are exactly the picks of `Jobs.PicksUpTo` (a prefix of them when a send raises) |
| Orchestrator.Bot.HourlyTail | main.py:61-74 | after the altcoin alerts comes the market overview as the last send |
| Orchestrator.Bot.FourHourAnalysis | main.py:81-111 | appends exactly the four-hour job's events; stamps `last_analysis_time["four_hour"]` exactly when the run completed |
| Orchestrator.Bot.PremiumSignals | main.py:102-106 | sends `ranked[:3]` in order, each followed by a 3-second pause |
| Orchestrator.Bot.VolumeSpikes | main.py:124-129 | visits the volume alerts in order and sends each one with increase >= 300; stops with a key error at the first alert missing `volume_increase`, having sent exactly the selected alerts before it |
| Orchestrator.Bot.VolumeSpikeMonitor | main.py:113-138 | appends exactly the monitor's events and changes nothing but the trace |
| Orchestrator.Bot.WhaleAlerts | main.py:131-135 | sends every whale alert, unfiltered and in order, after the volume alerts |
| Orchestrator.Bot.ManualAnalysis | main.py:140-176 | appends exactly the manual command's events |
| Orchestrator.Bot.ManualCoin | main.py:151-160 | the upper-cased coin gets one report if listed (unless deep analysis raises) and one "not found" reply otherwise |
| Orchestrator.Bot.OpportunityAlerts | main.py:169-174 | sends `ranked[:3]` numbered from 1, pausing 2 seconds after alerts 1 and 2 only |
| Orchestrator.Bot.ManualMarket | main.py:161-174 | the general-market path after the "Analyzing" reply |
| Orchestrator.Bot.TopGainersCommand | main.py:178-217 | appends exactly the top-gainers command's events |
| Orchestrator.Bot.ToggleAlerts | main.py:219-228 | sends exactly one reply: the confirmation for a known alert type, the error otherwise |
| Orchestrator.Bot.StartIfStopped | main.py:270-280 | starts a task exactly when it is not already running; afterwards it is running |
| Orchestrator.Bot.OnReady | main.py:260-292 | records the start time; launches exactly the not-yet-running tasks, each once, in the handler's order; afterwards all three run; announces itself once |
| Trace.WithFailure | main.py:25-79 | the definition of a body run inside its `try`: a raising send ends the body, keeps the events before it and appends the handler's; a body that raised by itself gets the handler's events after its own; its properties are `Trace.WithFailureEnding`, `Trace.WithFailureRaised`, `Trace.BeforeSendPrefix` and `Trace.RaisedSendsHandler` |
| Trace.WithFailureEnding | main.py:25-79 | a run raises exactly when one of the body's sends raised or the body raised, and a run that did not raise is the body's run unchanged |
| Trace.WithFailureRaised | main.py:76-79 | a run that raised ends with exactly the handler's events; what precedes them is a prefix of the body's events, which is the whole body when no send raised, and otherwise holds exactly the sends before the raising one and stops right before it |
| Trace.BeforeSendPrefix | main.py:25-79 | the events before the send that raised are exactly the prefix of the body preceding it |
| Trace.RaisedSendsHandler | main.py:76-79 | in a raised run whose body never sends a kind, the sends of that kind are exactly the handler's |
| Jobs.HourlyPlan | main.py:25-74 | the hourly `try` body: a raising snapshot fetch ends it raised with nothing sent; empty data sends the "Market Data Unavailable" warning and returns; a raising AI analysis ends it raised with nothing sent; a raising ranking ends it raised after the BTC section; otherwise it completes after the BTC section (report and 2-second pause when due), each altcoin pick with a 2-second pause, and the overview |
| Jobs.BtcReportDue | main.py:44-47 | the Bitcoin report is due when BTC is a key of the snapshot and at least one of the two analyses has a non-empty record for it |
| Market.Reported | main.py:45-47 | `results.get(symbol, {})` is truthy: the symbol has a record with at least one entry |
| Market.Listed | main.py:44 | the symbols `in market_data` tests against: the keys of the snapshot |
| Jobs.HourlyMessages | main.py:43-72 | what a run in which nothing raised sends: the BTC section, then each pick with a 2-second pause, then the overview |
| Jobs.IsAltcoin | main.py:64 | a record is an altcoin unless its symbol is "BTC"; a record with no symbol counts as an altcoin |
| Orchestrator.Bot.HourlyBody | main.py:25-79 | runs the fetch, the empty-data branch, the analyses, the BTC report, the altcoin loop and the overview step by step, appends exactly the hourly job's events and reports whether it completed |
| Jobs.Hourly | main.py:22-79 | the hourly job: its body under the failing send, with the handler sending one "Analysis Error" message when the run raised |
| Jobs.AltcoinPicks | main.py:62-68 | the records the counter loop alerts on: the first five ranked records whose symbol is not BTC |
| Jobs.HourlyNoData | main.py:34-37 | empty market data sends exactly the one "Market Data Unavailable" message and returns without completing (so nothing is stamped) |
| Jobs.HourlyCompletes | main.py:22-74 | the hourly job completes exactly when every collaborator returned, the data is non-empty and none of the 1 + picks + BTC-report sends raised |
| Jobs.HourlyCompletedRun | main.py:43-72 | a completed run sent exactly the BTC section, the paced altcoin alerts and the overview |
| Jobs.HourlyBitcoinFirst | main.py:44-56 | a completed run sends the BTC report exactly when BTC is listed and one of its two analyses is non-empty; then it is sent once, it is the first event, and the 2-second pause follows it |
| Jobs.HourlyOverviewLast | main.py:71-72 | the overview is the last event of a completed run and is sent exactly once |
| Jobs.AltcoinPicksSpec | main.py:62-68 | the picks are the first min(5, n) non-BTC records of the ranking, in ranked order; all are in the ranking, none is BTC, and with fewer than five every non-BTC record is picked |
| Jobs.PicksUpToSpec | main.py:62-68 | the counter loop's picks after `i` records equal the picks of the first `i` records |
| Jobs.HourlyAltcoinAlerts | main.py:62-68 | a completed run sends one high-potential alert per pick, in ranked order: at most five, none for BTC |
| Jobs.HourlyAlertsPausedAfter | main.py:65-67 | in a completed run every high-potential alert is followed by the 2-second pause |
| Jobs.HourlyMessagesSendCount | main.py:43-72 | a completed run makes 1 + picks + (1 if the BTC report is due) sends |
| Jobs.HourlyPlanSendsNoError | main.py:25-74 | the body of the hourly job never sends the error message itself |
| Jobs.HourlyErrorReported | main.py:76-79 | a raised run ends with exactly one "Analysis Error" message, after a prefix of the planned events |
| Jobs.FourHourPlan | main.py:84-108 | the four-hour `try` body: a raising fetch, AI analysis or ranking ends it raised with nothing sent; empty data returns with nothing sent; otherwise it completes after `ranked[:3]`, each followed by a 3-second pause |
| Orchestrator.Bot.FourHourBody | main.py:84-111 | runs the fetch, the empty-data return, the analyses and the premium loop step by step, appends exactly the four-hour job's events and reports whether it completed |
| Jobs.FourHour | main.py:81-111 | the four-hour job: its body under the failing send, with a handler that sends nothing |
| Jobs.FourHourNoData | main.py:91-93 | empty data sends nothing and returns without completing |
| Jobs.FourHourPremium | main.py:99-108 | the job completes exactly when every collaborator returned, the data is non-empty and none of the min(3, n) sends raised; then it sent exactly the first min(3, n) ranked records in order, each followed by the 3-second pause |
| Jobs.FourHourSilentFailure | main.py:110-111 | a run that did not complete sent a prefix of its planned events and no error message |
| Jobs.VolumePlan | main.py:116-135 | the monitor's `try` body: a raising spike detector ends it raised with nothing sent; otherwise the selected alerts before the first one missing `volume_increase` are sent; a missing key or a raising whale detector then ends it raised, and otherwise every whale alert is sent and it completes |
| Jobs.VolumeMonitor | main.py:113-138 | the monitor: its body under the failing send, with a handler that sends nothing |
| Jobs.IsSpike | main.py:127 | an alert is a spike when it has `volume_increase` and that is at least 300 |
| Jobs.FirstMissing | main.py:126-127 | the index of the first alert without `volume_increase` (the length when all have it), never beyond the end |
| Jobs.FirstMissingSpec | main.py:126-127 | every alert before the first missing `volume_increase` has one, and the alert there lacks it |
| Jobs.SpikesUpToFilter | main.py:126-127 | the loop's selections after `i` alerts are exactly the alerts among the first `i` with increase >= 300, in order |
| Jobs.SpikeSelection | main.py:127 | an input alert is selected exactly when its increase is at least 300, and every selected alert is an input alert |
| Jobs.VolumeMonitorCompletes | main.py:113-135 | the monitor completes exactly when both detectors returned, every volume alert has the key and no send raised |
| Jobs.VolumeCompletedRun | main.py:124-135 | a completed run sent exactly the selected volume alerts, then every whale alert |
| Jobs.VolumeMonitorSends | main.py:124-135 | a completed run's volume-spike sends carry the symbols of the selected alerts, its whale sends those of all whale alerts, and it sleeps nowhere |
| Jobs.VolumeBeforeWhales | main.py:124-135 | in a completed run every volume-spike send precedes every whale send |
| Jobs.VolumeMonitorKeyError | main.py:126-127 | an alert missing `volume_increase` makes the monitor raise before any whale alert is sent |
| Commands.ManualPlan | main.py:143-174 | the manual `try` body, after the "Analyzing" reply: a raising fetch ends it raised; empty data sends the fetch-failed reply and returns; with a coin, the upper-cased symbol gets "not found" when unlisted, and otherwise one report unless deep analysis raises; without one, a raising AI analysis or ranking ends it raised, and otherwise `ranked[:3]` is sent numbered from 1 and it completes |
| Commands.CoinGiven | main.py:151 | `if coin:`: a coin counts as given when it was passed and is not the empty string |
| Commands.Manual | main.py:140-176 | the manual command: its body under the failing send, with the handler sending one "Analysis failed" message when the run raised |
| Commands.Numbered | main.py:169-174 | the numbered alerts: each record's alert numbered in order from the given start, followed by a 2-second pause while its number is below 3 |
| Commands.ManualCoinLookup | main.py:151-160 | a given coin is upper-cased; when no send raises, an unlisted symbol gets exactly the "Analyzing" reply and one "not found" reply, and a listed one whose deep analysis returned gets the "Analyzing" reply and exactly one report |
| Commands.ManualMarketAlerts | main.py:161-174 | with no coin, a completed run sends "Analyzing", then the first min(3, n) ranked records numbered from 1, with a 2-second pause after every alert numbered below 3 |
| Commands.NumberedShape | main.py:169-174 | the numbered alerts sit at even positions, numbered in order, with the pause after each one numbered below 3 |
| Commands.ManualPlanNoFailure | main.py:143-174 | the manual command's body never sends the failure message itself |
| Commands.ManualErrorReported | main.py:175-176 | a raised manual command ends with exactly one "Analysis failed" message |
| Commands.TopPlan | main.py:181-214 | the `!top` `try` body, after the "Fetching" reply: a raising fetch ends it raised; empty data sends the fetch-failed reply and returns; otherwise it completes after one message listing the symbols of the top gainers |
| Commands.Top | main.py:178-217 | the `!top` command: its body under the failing send, with the handler sending one error message when the run raised; without an argument the timeframe is `DEFAULT_TIMEFRAME`, "24h" |
| Commands.TopListing | main.py:182-214 | a completed `!top` sends exactly two messages; the second lists the symbols of the top gainers, min(10, n) of them |
| Market.Key | main.py:190-193 | the sort key of a coin: its `percent_change_<timeframe>` field, 0 when the field is missing |
| Market.Insert | main.py:191-194 | one insertion step of the stable descending sort: the coin goes before the first coin whose key is not larger; the result holds exactly the coins of the input and the new one |
| Market.SortDescending | main.py:191-194 | the sort result is a permutation of the snapshot, ordered non-increasingly by the key |
| Market.SortStable | main.py:191-194 | the sort is stable: for every key value the coins with that key keep their snapshot order |
| Market.TopGainers | main.py:191-195 | the result has length min(10, n), is a prefix of the stable sort, and is non-increasing by key |
| Market.TopGainersAreTheLargest | main.py:191-195 | no coin left out of the top gainers has a larger key than a coin on the list |
| Market.InsertDescending | main.py:191-194 | inserting into a descending sequence keeps it descending |
| Market.InsertWithKey | main.py:191-194 | an insertion puts the new coin before all coins of equal key, which keeps the sort stable |
| Market.Upper | main.py:153 | upper-casing keeps the length and upper-cases every character in place |
| Market.UpperNormalises | main.py:153 | the upper-cased symbol has no lower-case ASCII letter, and upper-casing again changes nothing |
| Commands.AlertsReply | main.py:222-228 | the reply is the confirmation exactly for "volume", "whale", "technical" and "all", and the invalid-type error otherwise |
| Commands.DefaultAlertTypeAccepted | main.py:220-228 | the default argument "all" is confirmed |
| Commands.ToLaunch | main.py:270-280 | startup launches only tasks not running, every such task, in hourly, four-hour, volume order |

## Left out

- Discord: the client, intents, channel lookup, embed construction and all message text (main.py:14-16, 197-214, 285-292). A send is only its kind and its symbol. The channel is assumed found, so the early returns at main.py:27-29, 86-87 and 118-119 and the unbound-`channel` case of the hourly handler (main.py:78) are not modelled.
- Time: real sleeping and `datetime.datetime.now()`. Sleeps are trace events; "now" is the `now` parameter.
- Concurrency between the three `tasks.loop` jobs and their intervals (main.py:22, 81, 113). These belong to the scheduler.
- Collaborators: the internals of `get_comprehensive_market_data`, `john_analysis`, `alpha_analysis`, `rank_opportunities`, `deep_coin_analysis`, `detect_volume_spikes` and `detect_whale_movements` are not part of this model. Their results are parameters. The ranking is used as given, with no assumption that it is sorted or filtered.
- Market data: a falsy snapshot (`None` or `{}`) is the empty sequence. Only a record's symbol, its percent-change fields and (for alert records) `volume_increase` are kept.
- `bot_status` (main.py:230-258): read-only formatting of uptime and minutes-ago floats.
- `on_command_error` (main.py:294-303) and `keep_alive`/`bot.run` (main.py:305-313): framework glue.
- Console `print` output and exception message texts.
- Trace.WithFailure: the handler's own send (main.py:79, 176, 217) is modelled as never raising. If it did raise, the exception would leave the handler and be logged by the framework.
- Orchestrator.Bot.ToggleAlerts: its reply send is outside any `try` and is modelled as never raising.
- Orchestrator.Bot.OnReady: the startup announcement (main.py:283-292) is modelled as one send that never raises, with the channel found.
- Market.Upper: `str.upper()` is modelled for ASCII letters only. Other Unicode case mappings are not modelled.
- Market.Key: percent-change values are reals. The `TypeError` that `sorted` raises on a field whose values cannot be compared is not modelled.
- Jobs.HourlyNoData: it states the outcome when the warning send itself does not raise. A raising warning send is covered by `Jobs.HourlyErrorReported`.
