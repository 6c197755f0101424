/** Publishing and accounting together: from the events that publish LLM calls to the hours that report them. */
module LlmPipeline {
  import opened Common
  import Accounting = LlmAccounting
  import opened LlmPublish

  datatype Event = OnCall(event: LlmPublish.Event) | RunTask(now: int)

  function CallEvents(es: seq<Event>): seq<LlmPublish.Event> {
    if es == [] then [] else CallEvents(Init(es)) + if Last(es).OnCall? then [Last(es).event] else []
  }

  /** The publications as the books enter them. */
  function Entries(log: seq<Publication>): seq<Accounting.Entry> {
    if log == [] then [] else Entries(Init(log)) + [EntryOf(Last(log))]
  }

  function EntryOf(p: Publication): Accounting.Entry { Accounting.Entry(p.id, !Success(p.call)) }

  /** What one event posts to the ledger. */
  function Posted(log: seq<Publication>, log': seq<Publication>): seq<Accounting.Event> {
    if |log'| > |log| then [Accounting.Publish(EntryOf(Last(log')))] else []
  }

  function LogOf(calls: map<int, Call>, es: seq<Event>): seq<Publication> { Play(calls, CallEvents(es)).log }

  /** What the meter and the reporting task see: an entry for each publication, and the runs of `TaskLLM`. */
  function Ledger(calls: map<int, Call>, es: seq<Event>): seq<Accounting.Event> {
    if es == [] then []
    else
      Ledger(calls, Init(es))
      + if Last(es).RunTask? then [Accounting.Run(Last(es).now)] else Posted(LogOf(calls, Init(es)), LogOf(calls, es))
  }

  lemma LogGrows(calls: map<int, Call>, es: seq<LlmPublish.Event>, e: LlmPublish.Event)
    ensures var log, log' := Play(calls, es).log, Play(calls, es + [e]).log;
            log' == log || (|log'| == |log| + 1 && Init(log') == log)
  {
    assert (es + [e])[..|es|] == es;
    var w := Play(calls, es);
    if e.id in w.calls {
      StepLog(w, e, |es|);
    }
  }

  lemma PostedMatches(evs: seq<Accounting.Event>, log: seq<Publication>, log': seq<Publication>)
    requires Accounting.Published(evs) == Entries(log)
    requires log' == log || (|log'| == |log| + 1 && Init(log') == log)
    ensures Accounting.Published(evs + Posted(log, log')) == Entries(log')
  {
    if log' == log {
      assert evs + [] == evs;
    } else {
      Accounting.PlaySnoc(evs, Accounting.Publish(EntryOf(Last(log'))));
    }
  }

  /** The books enter exactly the publications, in order. */
  lemma {:induction false} LedgerMatchesLog(calls: map<int, Call>, es: seq<Event>)
    ensures Accounting.Published(Ledger(calls, es)) == Entries(LogOf(calls, es))
    decreases |es|
  {
    if es != [] {
      var before := Init(es);
      LedgerMatchesLog(calls, before);
      if Last(es).RunTask? {
        Accounting.PlaySnoc(Ledger(calls, before), Accounting.Run(Last(es).now));
        assert CallEvents(es) == CallEvents(before);
      } else {
        LogGrows(calls, CallEvents(before), Last(es).event);
        PostedMatches(Ledger(calls, before), LogOf(calls, before), LogOf(calls, es));
      }
    }
  }

  predicate AfterEpoch(es: seq<Event>) { forall k :: 0 <= k < |es| && es[k].RunTask? ==> es[k].now >= 0 }

  lemma {:induction false} LedgerAfterEpoch(calls: map<int, Call>, es: seq<Event>)
    requires AfterEpoch(es)
    ensures Accounting.AfterEpoch(Ledger(calls, es))
    decreases |es|
  {
    if es != [] {
      LedgerAfterEpoch(calls, Init(es));
      var more := if es[|es| - 1].RunTask? then [Accounting.Run(es[|es| - 1].now)]
                  else Posted(LogOf(calls, Init(es)), LogOf(calls, es));
      assert Ledger(calls, es) == Ledger(calls, Init(es)) + more;
    }
  }

  /** How often a call occurs. */
  function Occurrences(entries: seq<Accounting.Entry>, id: int): nat {
    if entries == [] then 0 else Occurrences(Init(entries), id) + if Last(entries).id == id then 1 else 0
  }

  lemma {:induction false} OneEntryEach(log: seq<Publication>, id: int)
    ensures Occurrences(Entries(log), id) == Publications(log, id)
    decreases |log|
  {
    if log != [] {
      OneEntryEach(Init(log), id);
      assert Init(Entries(log)) == Entries(Init(log));
    }
  }

  /** Where each call is after a run: in the books once if some event has triggered its publication, in the
      final report of a closed hour, in the current hour or in the meter; and nowhere otherwise. */
  predicate InItsPlace(calls: map<int, Call>, es: seq<Event>, id: int) {
    Occurrences(Accounting.AllCalls(Accounting.Play(Ledger(calls, es))), id)
    == if FirstTrigger(calls, id, CallEvents(es)) >= 0 then 1 else 0
  }

  /** End to end, over any interleaving of calls and runs of `TaskLLM` with any clock from the epoch on: every
      call that is triggered is in exactly one place, no closed hour has lost one, and the numbers reported
      and kept are those of the calls. */
  lemma EveryPublishedCallIsReported(calls: map<int, Call>, es: seq<Event>, id: int)
    requires AfterEpoch(es) && id in calls && !calls[id].published
    ensures InItsPlace(calls, es, id)
    ensures var b := Accounting.Play(Ledger(calls, es));
            Accounting.AllCalls(b) == Entries(LogOf(calls, es)) && Accounting.NothingLost(b) && Accounting.BooksOk(b)
  {
    LedgerMatchesLog(calls, es);
    LedgerAfterEpoch(calls, es);
    Accounting.NothingIsDropped(Ledger(calls, es));
    OneEntryEach(LogOf(calls, es), id);
    PublishedExactlyOnce(calls, CallEvents(es), id);
  }
}
