/**
 * The observable output of the bot: an ordered trace of sends (a message kind and,
 * where the message is about one coin, its symbol) and pacing sleeps, plus the model
 * of an exception raised by one of the sends of a run.
 */
module Trace {
  import opened Common

  /** The message kinds the jobs and commands send; one per distinct message. */
  datatype Kind =
    | MarketDataUnavailable
    | BitcoinReport
    | HighPotential
    | MarketOverview
    | AnalysisError
    | PremiumSignal
    | VolumeSpike
    | WhaleMovement
    | Analyzing
    | FetchFailed
    | CoinReport
    | CoinNotFound
    | OpportunityAlert(rank: nat)
    | AnalysisFailed
    | FetchingTopGainers
    | TopGainersTable(symbols: seq<string>)
    | CommandError
    | InvalidAlertType
    | AlertSettingsUpdated(alertType: string)
    | BotOnline

  datatype Event = Send(kind: Kind, symbol: Option<string>) | Sleep(seconds: nat)

  /**
   * A collaborator's alert or opportunity record. Only the two keys the core reads are
   * kept: 'symbol' (looked up with `.get`) and 'volume_increase' (looked up with `[]`,
   * so a missing key raises).
   */
  datatype Record = Record(symbol: Option<string>, volumeIncrease: Option<real>)

  /** How a job body ended: past its last line, at an early `return`, or by an exception. */
  datatype Ending = Completed | Returned | Raised

  datatype Run = Run(events: seq<Event>, ending: Ending)

  function SendCount(es: seq<Event>): (n: nat)
    ensures n <= |es|
  {
    if es == [] then 0 else (if es[0].Send? then 1 else 0) + SendCount(es[1..])
  }

  lemma {:induction false} SendCountAppend(a: seq<Event>, b: seq<Event>)
    ensures SendCount(a + b) == SendCount(a) + SendCount(b)
  {
    if a == [] {
      assert a + b == b;
    } else {
      assert (a + b)[1..] == a[1..] + b;
      SendCountAppend(a[1..], b);
    }
  }

  /** The events that happen before the send with index `k` (counting from 0) is attempted. */
  function BeforeSend(es: seq<Event>, k: nat): (r: seq<Event>)
    requires k < SendCount(es)
    ensures |r| < |es| && r <= es
    ensures SendCount(r) == k && es[|r|].Send?
  {
    if es[0].Send? && k == 0 then []
    else
      var rest := BeforeSend(es[1..], if es[0].Send? then k - 1 else k);
      assert ([es[0]] + rest)[1..] == rest;
      [es[0]] + rest
  }

  /** Counting the sends of a sequence that starts with `e`. */
  lemma SendCountCons(e: Event, es: seq<Event>)
    ensures SendCount([e] + es) == (if e.Send? then 1 else 0) + SendCount(es)
  {
    assert ([e] + es)[1..] == es;
  }

  /** The events before a send are exactly the prefix that precedes it, whatever follows. */
  lemma {:induction false} BeforeSendPrefix(es: seq<Event>, prefix: seq<Event>, e: Event)
    requires e.Send? && prefix + [e] <= es
    ensures SendCount(prefix) < SendCount(es)
    ensures BeforeSend(es, SendCount(prefix)) == prefix
  {
    if prefix == [] {
      assert es[0] == e;
    } else {
      var head, tail := prefix[0], prefix[1..];
      assert prefix == [head] + tail;
      assert es == [head] + es[1..];
      assert tail + [e] <= es[1..];
      BeforeSendPrefix(es[1..], tail, e);
      SendCountCons(head, tail);
      SendCountCons(head, es[1..]);
      var k := SendCount(prefix);
      assert BeforeSend(es, k) == [head] + BeforeSend(es[1..], SendCount(tail));
    }
  }

  /** True when the send with index `failSend` is among the first `sends` sends. */
  predicate FailsWithin(failSend: Option<nat>, sends: nat) {
    failSend.Some? && failSend.value < sends
  }

  /**
   * A job body `plan` run inside a `try` whose handler emits `onError`, when the send
   * attempt with index `failSend` (if any) raises. The raising send emits nothing; the
   * body stops there and the handler runs.
   */
  function WithFailure(plan: Run, failSend: Option<nat>, onError: seq<Event>): Run {
    if FailsWithin(failSend, SendCount(plan.events)) then
      var before := BeforeSend(plan.events, failSend.value);
      assert (before + onError)[..|before|] == before;
      Run(before + onError, Raised)
    else if plan.ending == Raised then
      assert (plan.events + onError)[..|plan.events|] == plan.events;
      Run(plan.events + onError, Raised)
    else
      plan
  }

  /** One send of `kind` per record, each followed by a pause of `secs` seconds. */
  function Paced(kind: Kind, rs: seq<Record>, secs: nat): (es: seq<Event>)
    ensures |es| == 2 * |rs|
  {
    if rs == [] then [] else [Send(kind, rs[0].symbol), Sleep(secs)] + Paced(kind, rs[1..], secs)
  }

  /** The i-th record's send is at position 2i, and its pause right after it. */
  lemma {:induction false} PacedShape(kind: Kind, rs: seq<Record>, secs: nat)
    ensures var es := Paced(kind, rs, secs);
      forall i :: 0 <= i < |rs| ==> es[2 * i] == Send(kind, rs[i].symbol) && es[2 * i + 1] == Sleep(secs)
  {
    if rs != [] {
      PacedShape(kind, rs[1..], secs);
      var es := Paced(kind, rs, secs);
      var tail := Paced(kind, rs[1..], secs);
      assert es == [Send(kind, rs[0].symbol), Sleep(secs)] + tail;
      forall i | 1 <= i < |rs|
        ensures es[2 * i] == Send(kind, rs[i].symbol) && es[2 * i + 1] == Sleep(secs)
      {
        assert es[2 * i] == tail[2 * (i - 1)] && es[2 * i + 1] == tail[2 * (i - 1) + 1];
        assert rs[1..][i - 1] == rs[i];
      }
    }
  }

  lemma {:induction false} PacedAppend(kind: Kind, a: seq<Record>, b: seq<Record>, secs: nat)
    ensures Paced(kind, a + b, secs) == Paced(kind, a, secs) + Paced(kind, b, secs)
  {
    if a == [] {
      assert a + b == b;
    } else {
      assert (a + b)[1..] == a[1..] + b;
      PacedAppend(kind, a[1..], b, secs);
    }
  }

  lemma {:induction false} PacedSendCount(kind: Kind, rs: seq<Record>, secs: nat)
    ensures SendCount(Paced(kind, rs, secs)) == |rs|
  {
    if rs != [] {
      var send, tail := Send(kind, rs[0].symbol), Paced(kind, rs[1..], secs);
      assert Paced(kind, rs, secs) == [send, Sleep(secs)] + tail;
      assert [send, Sleep(secs)] + tail == [send] + ([Sleep(secs)] + tail);
      PacedSendCount(kind, rs[1..], secs);
      SendCountCons(send, [Sleep(secs)] + tail);
      SendCountCons(Sleep(secs), tail);
    }
  }

  /** One send of `kind` per record, without pauses. */
  function Announce(kind: Kind, rs: seq<Record>): (es: seq<Event>)
    ensures |es| == |rs|
  {
    if rs == [] then [] else [Send(kind, rs[0].symbol)] + Announce(kind, rs[1..])
  }

  /** The i-th send carries the i-th record's symbol. */
  lemma {:induction false} AnnounceShape(kind: Kind, rs: seq<Record>)
    ensures var es := Announce(kind, rs);
      forall i :: 0 <= i < |rs| ==> es[i] == Send(kind, rs[i].symbol)
  {
    if rs != [] {
      AnnounceShape(kind, rs[1..]);
      var es := Announce(kind, rs);
      var tail := Announce(kind, rs[1..]);
      assert es == [Send(kind, rs[0].symbol)] + tail;
      forall i | 1 <= i < |rs|
        ensures es[i] == Send(kind, rs[i].symbol)
      {
        assert es[i] == tail[i - 1] && rs[1..][i - 1] == rs[i];
      }
    }
  }

  lemma {:induction false} AnnounceAppend(kind: Kind, a: seq<Record>, b: seq<Record>)
    ensures Announce(kind, a + b) == Announce(kind, a) + Announce(kind, b)
  {
    if a == [] {
      assert a + b == b;
    } else {
      assert (a + b)[1..] == a[1..] + b;
      AnnounceAppend(kind, a[1..], b);
    }
  }

  lemma {:induction false} AnnounceSendCount(kind: Kind, rs: seq<Record>)
    ensures SendCount(Announce(kind, rs)) == |rs|
  {
    if rs != [] {
      AnnounceSendCount(kind, rs[1..]);
    }
  }

  /** The symbols carried by the sends of `kind` in `es`, in order. */
  function SentOf(es: seq<Event>, kind: Kind): (syms: seq<Option<string>>)
    ensures |syms| <= SendCount(es)
  {
    if es == [] then []
    else (if es[0].Send? && es[0].kind == kind then [es[0].symbol] else []) + SentOf(es[1..], kind)
  }

  lemma {:induction false} SentOfAppend(a: seq<Event>, b: seq<Event>, kind: Kind)
    ensures SentOf(a + b, kind) == SentOf(a, kind) + SentOf(b, kind)
  {
    if a == [] {
      assert a + b == b;
    } else {
      assert (a + b)[1..] == a[1..] + b;
      SentOfAppend(a[1..], b, kind);
    }
  }

  /** The sends of `kind` in a one-event sequence. */
  lemma SentOfSingle(e: Event, kind: Kind)
    ensures SentOf([e], kind) == (if e.Send? && e.kind == kind then [e.symbol] else [])
  {
    assert [e][1..] == [];
  }

  /**
   * The symbols of collaborator records, in order. A record's symbol is optional
   * (it is read with `.get`), unlike a snapshot coin's; `Market.CoinSymbols` is the
   * projection for coins.
   */
  function Symbols(rs: seq<Record>): (syms: seq<Option<string>>)
    ensures |syms| == |rs|
    ensures forall i :: 0 <= i < |rs| ==> syms[i] == rs[i].symbol
  {
    if rs == [] then [] else [rs[0].symbol] + Symbols(rs[1..])
  }

  lemma {:induction false} SentOfPaced(kind: Kind, other: Kind, rs: seq<Record>, secs: nat)
    ensures SentOf(Paced(kind, rs, secs), kind) == Symbols(rs)
    ensures other != kind ==> SentOf(Paced(kind, rs, secs), other) == []
  {
    if rs != [] {
      var es := Paced(kind, rs, secs);
      assert es == [Send(kind, rs[0].symbol), Sleep(secs)] + Paced(kind, rs[1..], secs);
      SentOfAppend([Send(kind, rs[0].symbol), Sleep(secs)], Paced(kind, rs[1..], secs), kind);
      SentOfAppend([Send(kind, rs[0].symbol), Sleep(secs)], Paced(kind, rs[1..], secs), other);
      assert [Send(kind, rs[0].symbol), Sleep(secs)][1..] == [Sleep(secs)];
      SentOfPaced(kind, other, rs[1..], secs);
    }
  }

  lemma {:induction false} SentOfAnnounce(kind: Kind, other: Kind, rs: seq<Record>)
    ensures SentOf(Announce(kind, rs), kind) == Symbols(rs)
    ensures other != kind ==> SentOf(Announce(kind, rs), other) == []
  {
    if rs != [] {
      SentOfAnnounce(kind, other, rs[1..]);
    }
  }

  lemma SentOfPrefix(a: seq<Event>, b: seq<Event>, kind: Kind)
    requires a <= b
    ensures SentOf(a, kind) <= SentOf(b, kind)
  {
    assert b == a + b[|a|..];
    SentOfAppend(a, b[|a|..], kind);
  }

  /**
   * A run raises exactly when one of the body's sends raised or the body itself raised;
   * a run that did not raise is the body's run unchanged.
   */
  lemma WithFailureEnding(plan: Run, failSend: Option<nat>, onError: seq<Event>)
    ensures WithFailure(plan, failSend, onError).ending == Raised
        <==> FailsWithin(failSend, SendCount(plan.events)) || plan.ending == Raised
    ensures WithFailure(plan, failSend, onError).ending != Raised ==> WithFailure(plan, failSend, onError) == plan
  {
  }

  /**
   * A run that raised is a prefix `p` of the body's events followed by exactly the
   * handler's events. When a send raised, `p` holds as many sends as were attempted
   * before it and the body's next event is that send; otherwise `p` is the whole body.
   */
  lemma WithFailureRaised(plan: Run, failSend: Option<nat>, onError: seq<Event>)
    requires WithFailure(plan, failSend, onError).ending == Raised
    ensures var es := WithFailure(plan, failSend, onError).events;
      |onError| <= |es| && es[|es| - |onError|..] == onError
      && var p := es[..|es| - |onError|];
      p <= plan.events
      && (FailsWithin(failSend, SendCount(plan.events)) ==>
            |p| < |plan.events| && SendCount(p) == failSend.value && plan.events[|p|].Send?)
      && (!FailsWithin(failSend, SendCount(plan.events)) ==> p == plan.events)
  {
    var before := if FailsWithin(failSend, SendCount(plan.events)) then BeforeSend(plan.events, failSend.value)
                  else plan.events;
    assert WithFailure(plan, failSend, onError).events == before + onError;
    assert (before + onError)[..|before|] == before;
    assert (before + onError)[|before|..] == onError;
  }

  /**
   * When a run raised and its body never sends `kind`, the sends of `kind` in the run
   * are exactly those of the handler.
   */
  lemma RaisedSendsHandler(plan: Run, failSend: Option<nat>, onError: seq<Event>, kind: Kind)
    requires WithFailure(plan, failSend, onError).ending == Raised
    requires SentOf(plan.events, kind) == []
    ensures SentOf(WithFailure(plan, failSend, onError).events, kind) == SentOf(onError, kind)
  {
    var es := WithFailure(plan, failSend, onError).events;
    WithFailureRaised(plan, failSend, onError);
    var before := es[..|es| - |onError|];
    assert es == before + onError;
    SentOfPrefix(before, plan.events, kind);
    SentOfAppend(before, onError, kind);
  }

  /** Regrouping a concatenation; a lemma for the same reason as `Regroup` below. */
  lemma Assoc<T>(a: seq<T>, b: seq<T>, c: seq<T>)
    ensures a + (b + c) == (a + b) + c
  {
  }

  /**
   * Regrouping a concatenation. Stated as a lemma so that the solver proves the
   * identity on its own rather than beside the recursive event definitions at
   * the call site, where the same step as an `assert` runs out of resource.
   */
  lemma Regroup<T>(a: seq<T>, b: seq<T>, c: seq<T>, d: seq<T>)
    ensures a + (b + c) + d == (a + b) + (c + d)
  {
  }

  /** A prefix of the part that follows `before` gives a prefix of the whole. */
  lemma PrefixAfter<T>(before: seq<T>, a: seq<T>, b: seq<T>, whole: seq<T>)
    requires a <= b && before + b <= whole
    ensures before + a <= whole
  {
    assert before + b == (before + a) + b[|a|..];
  }

  /** The same, with the prefix written as a sequence followed by one more element. */
  lemma SnocAfter<T>(before: seq<T>, done: seq<T>, e: T, b: seq<T>, whole: seq<T>)
    requires done + [e] <= b && before + b <= whole
    ensures before + done + [e] <= whole
  {
    PrefixAfter(before, done + [e], b, whole);
    assert before + done + [e] == before + (done + [e]);
  }

  /** When the part after `before` continues `done` with `e`, then `before`, `done` and `e` are a prefix of the whole. */
  lemma NextWithin<T>(before: seq<T>, done: seq<T>, e: T, rest: seq<T>, whole: seq<T>)
    requires before + (done + [e] + rest) <= whole
    ensures before + done + [e] <= whole
  {
    assert before + (done + [e] + rest) == (before + done + [e]) + rest;
  }

  /** The next send of a paced sequence, after the events before it, is still within the plan. */
  lemma PacedNextSend(kind: Kind, before: seq<Event>, picks: seq<Record>, x: Record, all: seq<Record>,
                      secs: nat, planned: seq<Event>)
    requires picks + [x] <= all && before + Paced(kind, all, secs) <= planned
    ensures before + Paced(kind, picks, secs) + [Send(kind, x.symbol)] <= planned
  {
    var rest := all[|picks| + 1..];
    assert all == picks + [x] + rest;
    PacedAppend(kind, picks + [x], rest, secs);
    PacedSnoc(kind, picks, x, secs);
    var later := [Sleep(secs)] + Paced(kind, rest, secs);
    assert Paced(kind, all, secs) == Paced(kind, picks, secs) + [Send(kind, x.symbol)] + later;
    NextWithin(before, Paced(kind, picks, secs), Send(kind, x.symbol), later, planned);
  }

  /** Pacing one more record adds its send and its pause. */
  lemma PacedSnoc(kind: Kind, rs: seq<Record>, x: Record, secs: nat)
    ensures Paced(kind, rs + [x], secs) == Paced(kind, rs, secs) + [Send(kind, x.symbol), Sleep(secs)]
  {
    PacedAppend(kind, rs, [x], secs);
    assert Paced(kind, [x], secs) == [Send(kind, x.symbol), Sleep(secs)] + Paced(kind, [], secs);
  }

  /** Announcing one more record adds its send. */
  lemma AnnounceSnoc(kind: Kind, rs: seq<Record>, x: Record)
    ensures Announce(kind, rs + [x]) == Announce(kind, rs) + [Send(kind, x.symbol)]
  {
    AnnounceAppend(kind, rs, [x]);
    assert Announce(kind, [x]) == [Send(kind, x.symbol)] + Announce(kind, []);
  }

  /** The next send of an announcement, after the events before it, is still within the plan. */
  lemma AnnounceNextSend(kind: Kind, before: seq<Event>, shown: seq<Record>, x: Record, all: seq<Record>,
                         planned: seq<Event>)
    requires shown + [x] <= all && before + Announce(kind, all) <= planned
    ensures before + Announce(kind, shown) + [Send(kind, x.symbol)] <= planned
  {
    var rest := all[|shown| + 1..];
    assert all == shown + [x] + rest;
    AnnounceAppend(kind, shown + [x], rest);
    AnnounceSnoc(kind, shown, x);
    NextWithin(before, Announce(kind, shown), Send(kind, x.symbol), Announce(kind, rest), planned);
  }

}
