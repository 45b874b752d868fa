/**
 * The resolution sweep: the `setInterval` callback of index.js, run once.
 *
 * The two collections are maps from uuid to document. Everything the sweep
 * learns from outside comes in as an oracle: whether the two `find` queries
 * succeed, what each `getStatus` call reads from the Status collection and
 * draws, whether the notification request is answered `ok`, and whether the
 * following `save` succeeds.
 */
module Sweep {
  import opened Wrappers
  import opened Selector
  import opened Classifier
  import opened Records

  /** The two collections the sweep queries, in the order it queries them. */
  datatype Kind = Call | TtsCall

  /** A waiting document a query returned: its collection and its uuid. */
  datatype Pending = Pending(kind: Kind, id: string)

  /**
   * What one `getStatus` call sees: the Status documents it read and the
   * random factor, or a failed read (which makes it return `undefined`).
   */
  datatype StatusRead = Read(statuses: seq<Status>, u: RandomFactor) | ReadFailed

  /**
   * The label `getStatus` returns for what it read: `undefined` exactly when
   * the read failed or no running total of the weights exceeds the draw, and
   * otherwise one of the labels read.
   */
  ghost function Drawn(d: StatusRead): (outcome: Option<string>)
    ensures outcome.None? <==>
      d.ReadFailed? || forall i :: 0 <= i < |d.statuses| ==> Upto(d.statuses, i) <= Draw(d.statuses, d.u)
    ensures outcome.Some? ==> d.Read? && exists i :: 0 <= i < |d.statuses| && d.statuses[i].value == outcome.value
  {
    match d
    case ReadFailed => None
    case Read(statuses, u) =>
      SelectedNoneIff(statuses, Draw(statuses, u));
      Selected(statuses, Draw(statuses, u))
  }

  /**
   * A failed read of the Status collection, an empty one, and one whose
   * weights are all zero each make `getStatus` return `undefined`.
   */
  lemma UnconfiguredIsUndefined(d: StatusRead)
    requires d.Read? ==> AllZero(d.statuses)
    ensures Drawn(d) == None
  {
    if d.Read? {
      NoWeightNoLabel(d.statuses, d.u);
    }
  }

  /** The filter of both queries: `{ result: 'waiting' }`. */
  predicate IsWaiting(c: CallRecord)
  {
    c.result == Some("waiting")
  }

  /** Every document is stored under its own uuid. */
  ghost predicate Keyed(m: map<string, CallRecord>)
  {
    forall id :: id in m ==> m[id].uuid == id
  }

  /**
   * The stored copy of one waiting document after its turn: the updated
   * document when the notification was answered `ok` and the save succeeded,
   * the document as it was otherwise.
   */
  ghost function Settle(c: CallRecord, d: StatusRead, deliver: Request -> bool, saved: bool): (r: CallRecord)
    ensures Confirmed(c, d, deliver, saved) ==>
      r.status == Classify(Drawn(d)) && r.result == Drawn(d) && r.(status := c.status, result := c.result) == c
    ensures !Confirmed(c, d, deliver, saved) ==> r == c
  {
    if Confirmed(c, d, deliver, saved) then WithOutcome(c, Drawn(d)) else c
  }

  /** The notification for the updated document was answered `ok` and the save succeeded. */
  ghost predicate Confirmed(c: CallRecord, d: StatusRead, deliver: Request -> bool, saved: bool)
  {
    deliver(RequestFor(WithOutcome(c, Drawn(d)))) && saved
  }

  /** A collection after one sweep: each waiting document settles, no other changes. */
  ghost function Swept(m: map<string, CallRecord>, k: Kind, draw: (Kind, string) -> StatusRead,
                       deliver: Request -> bool, saved: (Kind, string) -> bool): (m': map<string, CallRecord>)
    ensures m'.Keys == m.Keys
    ensures forall id :: id in m && !IsWaiting(m[id]) ==> m'[id] == m[id]
    ensures Keyed(m) ==> Keyed(m')
  {
    map id | id in m :: if IsWaiting(m[id]) then Settle(m[id], draw(k, id), deliver, saved(k, id)) else m[id]
  }

  /** A collection of kind `k` in which the documents named in `done` have settled. */
  ghost function SettledAt(m: map<string, CallRecord>, k: Kind, done: set<Pending>, draw: (Kind, string) -> StatusRead,
                           deliver: Request -> bool, saved: (Kind, string) -> bool): map<string, CallRecord>
  {
    map id | id in m :: if Pending(k, id) in done then Settle(m[id], draw(k, id), deliver, saved(k, id)) else m[id]
  }

  /** Settling one more document updates its own collection at its uuid only. */
  lemma SettleOneMore(m: map<string, CallRecord>, k: Kind, done: set<Pending>, p: Pending,
                      draw: (Kind, string) -> StatusRead, deliver: Request -> bool, saved: (Kind, string) -> bool)
    requires p !in done
    ensures p.kind == k && p.id in m ==>
      SettledAt(m, k, done + {p}, draw, deliver, saved)
        == SettledAt(m, k, done, draw, deliver, saved)[p.id := Settle(m[p.id], draw(k, p.id), deliver, saved(k, p.id))]
    ensures p.kind != k ==> SettledAt(m, k, done + {p}, draw, deliver, saved) == SettledAt(m, k, done, draw, deliver, saved)
  {
  }

  /** Settling exactly the waiting documents is one sweep. */
  lemma SettledWaitingIsSwept(m: map<string, CallRecord>, k: Kind, done: set<Pending>,
                              draw: (Kind, string) -> StatusRead, deliver: Request -> bool, saved: (Kind, string) -> bool)
    requires forall id :: Pending(k, id) in done <==> id in m && IsWaiting(m[id])
    ensures SettledAt(m, k, done, draw, deliver, saved) == Swept(m, k, draw, deliver, saved)
  {
  }

  /** The queue built from the two query results holds exactly the waiting documents of each collection. */
  lemma QueuedExactlyWaiting(calls: map<string, CallRecord>, ttsCalls: map<string, CallRecord>,
                             callIds: seq<string>, ttsIds: seq<string>, w: seq<Pending>)
    requires forall id :: id in callIds <==> id in calls && IsWaiting(calls[id])
    requires forall id :: id in ttsIds <==> id in ttsCalls && IsWaiting(ttsCalls[id])
    requires forall q :: q in w <==> (q.kind == Call && q.id in callIds) || (q.kind == TtsCall && q.id in ttsIds)
    ensures forall id :: Pending(Call, id) in (set q | q in w) <==> id in calls && IsWaiting(calls[id])
    ensures forall id :: Pending(TtsCall, id) in (set q | q in w) <==> id in ttsCalls && IsWaiting(ttsCalls[id])
  {
  }

  /**
   * A waiting document is rewritten with the drawn label and its class when
   * the notification is confirmed, and is left exactly as it was otherwise;
   * what is stored then is what was notified.
   */
  lemma SweepWritesOnlyConfirmed(m: map<string, CallRecord>, k: Kind, id: string, draw: (Kind, string) -> StatusRead,
                                 deliver: Request -> bool, saved: (Kind, string) -> bool)
    requires id in m && IsWaiting(m[id])
    ensures var r := Swept(m, k, draw, deliver, saved)[id];
      && (Confirmed(m[id], draw(k, id), deliver, saved(k, id)) ==>
            && r == m[id].(status := Classify(Drawn(draw(k, id))), result := Drawn(draw(k, id)))
            && deliver(RequestFor(r)))
      && (!Confirmed(m[id], draw(k, id), deliver, saved(k, id)) ==> r == m[id] && IsWaiting(r))
  {
  }

  /**
   * In a collection keyed by uuid, the notification confirmed for the document
   * stored under `id` names `id` as its uuid, and the saved document stays under it.
   */
  lemma NotifiedUnderOwnUuid(m: map<string, CallRecord>, k: Kind, id: string, draw: (Kind, string) -> StatusRead,
                             deliver: Request -> bool, saved: (Kind, string) -> bool)
    requires Keyed(m) && id in m
    requires Confirmed(m[id], draw(k, id), deliver, saved(k, id))
    ensures var r := Swept(m, k, draw, deliver, saved)[id];
      RequestFor(r).body.uuid == id && r.uuid == id
  {
  }

  /**
   * After a sweep a document is still waiting exactly when it was waiting and
   * either its notification was not confirmed or the label drawn was itself
   * "waiting".
   */
  lemma StillWaitingIff(m: map<string, CallRecord>, k: Kind, id: string, draw: (Kind, string) -> StatusRead,
                        deliver: Request -> bool, saved: (Kind, string) -> bool)
    requires id in m
    ensures IsWaiting(Swept(m, k, draw, deliver, saved)[id])
        <==> IsWaiting(m[id])
             && (!Confirmed(m[id], draw(k, id), deliver, saved(k, id)) || Drawn(draw(k, id)) == Some("waiting"))
  {
  }

  /**
   * With a positive total weight, a confirmed document is resolved with one of
   * the configured labels, and its status is "success" exactly for ANSWERED.
   */
  lemma ConfiguredSweepResolves(m: map<string, CallRecord>, k: Kind, id: string, draw: (Kind, string) -> StatusRead,
                                deliver: Request -> bool, saved: (Kind, string) -> bool)
    requires id in m && IsWaiting(m[id])
    requires draw(k, id).Read? && Total(draw(k, id).statuses) > 0.0
    requires Confirmed(m[id], draw(k, id), deliver, saved(k, id))
    ensures var r := Swept(m, k, draw, deliver, saved)[id];
      && r.result.Some?
      && (exists i :: 0 <= i < |draw(k, id).statuses| && draw(k, id).statuses[i].value == r.result.value)
      && (r.status == "success" <==> r.result == Some(Answered))
  {
    PositiveTotalSelects(draw(k, id).statuses, draw(k, id).u);
  }

  /**
   * Whenever `getStatus` returns `undefined`, a confirmed document is saved
   * with status "error" and no result at all, so it leaves the waiting set
   * without an outcome label; its notification had seven keys, not eight.
   */
  lemma UndefinedLabelDropsResult(m: map<string, CallRecord>, k: Kind, id: string, draw: (Kind, string) -> StatusRead,
                                  deliver: Request -> bool, saved: (Kind, string) -> bool)
    requires id in m && IsWaiting(m[id])
    requires Drawn(draw(k, id)) == None
    requires Confirmed(m[id], draw(k, id), deliver, saved(k, id))
    ensures var r := Swept(m, k, draw, deliver, saved)[id];
      r.status == "error" && r.result == None && !IsWaiting(r)
      && JsonKeys(Notification(r)) == PayloadKeys - {"result"}
  {
  }

  /**
   * Resolution is terminal: once a sweep has saved a label other than
   * "waiting", no later sweep touches the document, whatever it draws or
   * whatever the endpoint answers.
   */
  lemma ResolvedIsTerminal(m: map<string, CallRecord>, k: Kind, id: string,
                           draw: (Kind, string) -> StatusRead, deliver: Request -> bool, saved: (Kind, string) -> bool,
                           draw': (Kind, string) -> StatusRead, deliver': Request -> bool, saved': (Kind, string) -> bool)
    requires id in m && IsWaiting(m[id])
    requires Confirmed(m[id], draw(k, id), deliver, saved(k, id)) && Drawn(draw(k, id)) != Some("waiting")
    ensures var once := Swept(m, k, draw, deliver, saved);
      Swept(once, k, draw', deliver', saved')[id] == once[id] != m[id]
  {
  }

  /** In a duplicate-free queue, entry `i` is not among the entries before it, so it adds one to `done`. */
  lemma QueueStep(waiting: seq<Pending>, i: nat, done: set<Pending>, upto: seq<Pending>)
    requires i < |waiting|
    requires forall a, b :: 0 <= a < b < |waiting| ==> waiting[a] != waiting[b]
    requires done == set q | q in waiting[..i]
    requires upto == waiting[..i + 1]
    ensures waiting[i] !in done
    ensures done + {waiting[i]} == set q | q in upto
  {
    assert upto == waiting[..i] + [waiting[i]];
  }

  /**
   * `[...calls, ...ttscalls]`: the Call results, then the TtsCall results. Two
   * duplicate-free id lists give a duplicate-free queue.
   */
  function Queue(callIds: seq<string>, ttsIds: seq<string>): (w: seq<Pending>)
    requires forall a, b :: 0 <= a < b < |callIds| ==> callIds[a] != callIds[b]
    requires forall a, b :: 0 <= a < b < |ttsIds| ==> ttsIds[a] != ttsIds[b]
    ensures forall q :: q in w <==> (q.kind == Call && q.id in callIds) || (q.kind == TtsCall && q.id in ttsIds)
    ensures forall a, b :: 0 <= a < b < |w| ==> w[a] != w[b]
    ensures |w| == |callIds| + |ttsIds|
    ensures forall j :: 0 <= j < |callIds| ==> w[j] == Pending(Call, callIds[j])
    ensures forall j :: 0 <= j < |ttsIds| ==> w[|callIds| + j] == Pending(TtsCall, ttsIds[j])
  {
    var front := seq(|callIds|, j requires 0 <= j < |callIds| => Pending(Call, callIds[j]));
    var back := seq(|ttsIds|, j requires 0 <= j < |ttsIds| => Pending(TtsCall, ttsIds[j]));
    assert forall q: Pending :: q.kind == Call && q.id in callIds ==> q in front by {
      forall q: Pending | q.kind == Call && q.id in callIds
        ensures q in front
      {
        var j :| 0 <= j < |callIds| && callIds[j] == q.id;
        assert front[j] == q;
      }
    }
    assert forall q: Pending :: q.kind == TtsCall && q.id in ttsIds ==> q in back by {
      forall q: Pending | q.kind == TtsCall && q.id in ttsIds
        ensures q in back
      {
        var j :| 0 <= j < |ttsIds| && ttsIds[j] == q.id;
        assert back[j] == q;
      }
    }
    front + back
  }

  /** The Call and TtsCall collections. */
  class Store {
    var calls: map<string, CallRecord>
    var ttsCalls: map<string, CallRecord>

    /** Both collections are keyed by uuid (see `NotifiedUnderOwnUuid`). */
    ghost predicate Valid()
      reads this
    {
      Keyed(calls) && Keyed(ttsCalls)
    }

    function Collection(k: Kind): map<string, CallRecord>
      reads this
    {
      match k
      case Call => calls
      case TtsCall => ttsCalls
    }

    constructor (calls: map<string, CallRecord>, ttsCalls: map<string, CallRecord>)
      requires Keyed(calls) && Keyed(ttsCalls)
      ensures Valid()
      ensures this.calls == calls && this.ttsCalls == ttsCalls
    {
      this.calls := calls;
      this.ttsCalls := ttsCalls;
    }

    /** `find({ result: 'waiting' })` on one collection: each waiting uuid once, in no set order. */
    method Find(k: Kind) returns (ids: seq<string>)
      ensures forall id :: id in ids <==> id in Collection(k) && IsWaiting(Collection(k)[id])
      ensures forall a, b :: 0 <= a < b < |ids| ==> ids[a] != ids[b]
    {
      var m := Collection(k);
      var rest := m.Keys;
      ids := [];
      while rest != {}
        invariant rest <= m.Keys
        invariant forall id :: id in ids <==> id in m && IsWaiting(m[id]) && id !in rest
        invariant forall a, b :: 0 <= a < b < |ids| ==> ids[a] != ids[b]
        decreases rest
      {
        var id :| id in rest;
        if IsWaiting(m[id]) {
          ids := ids + [id];
        }
        rest := rest - {id};
      }
    }

    /**
     * The per-document callback: draw a label, classify it, build the
     * notification and, when it is answered `ok`, save the updated document.
     */
    method Resolve(p: Pending, doc: CallRecord, draw: (Kind, string) -> StatusRead,
                   deliver: Request -> bool, saved: (Kind, string) -> bool)
      requires Valid()
      requires p.id in Collection(p.kind) && Collection(p.kind)[p.id] == doc
      modifies this
      ensures Valid()
      ensures Collection(p.kind) == old(Collection(p.kind))[p.id := Settle(doc, draw(p.kind, p.id), deliver, saved(p.kind, p.id))]
      ensures p.kind == Call ==> ttsCalls == old(ttsCalls)
      ensures p.kind == TtsCall ==> calls == old(calls)
    {
      var outcome: Option<string>;
      match draw(p.kind, p.id) {
        case ReadFailed =>
          outcome := None;
        case Read(statuses, u) =>
          outcome := GetStatus(statuses, u);
      }
      var updated := doc.(status := Classify(outcome), result := outcome);
      var request := Request(updated.notifyUrl, updated.notifyHttpMethod, Notification(updated));
      if deliver(request) && saved(p.kind, p.id) {
        match p.kind {
          case Call => calls := calls[p.id := updated];
          case TtsCall => ttsCalls := ttsCalls[p.id := updated];
        }
      }
    }

    /**
     * The `forEach` over the queued documents, one at a time: each is resolved
     * from the copy the query returned, which no earlier step has touched.
     */
    method ResolveAll(waiting: seq<Pending>, draw: (Kind, string) -> StatusRead,
                      deliver: Request -> bool, saved: (Kind, string) -> bool)
      requires Valid()
      requires forall a, b :: 0 <= a < b < |waiting| ==> waiting[a] != waiting[b]
      requires forall q :: q in waiting ==> q.id in Collection(q.kind)
      modifies this
      ensures Valid()
      ensures calls == SettledAt(old(calls), Call, (set q | q in waiting), draw, deliver, saved)
      ensures ttsCalls == SettledAt(old(ttsCalls), TtsCall, (set q | q in waiting), draw, deliver, saved)
    {
      ghost var calls0, tts0 := calls, ttsCalls;
      ghost var done: set<Pending> := {};
      for i := 0 to |waiting|
        invariant Valid()
        invariant calls == SettledAt(calls0, Call, done, draw, deliver, saved)
        invariant ttsCalls == SettledAt(tts0, TtsCall, done, draw, deliver, saved)
        invariant done == set q | q in waiting[..i]
      {
        var p := waiting[i];
        QueueStep(waiting, i, done, waiting[..i + 1]);
        SettleOneMore(calls0, Call, done, p, draw, deliver, saved);
        SettleOneMore(tts0, TtsCall, done, p, draw, deliver, saved);
        Resolve(p, Collection(p.kind)[p.id], draw, deliver, saved);
        done := done + {p};
      }
      assert waiting[..|waiting|] == waiting;
    }

    /**
     * One sweep. When either query fails nothing changes; otherwise the waiting
     * Call documents and then the waiting TtsCall documents are resolved one by one.
     */
    method Sweep(queryOk: bool, draw: (Kind, string) -> StatusRead,
                 deliver: Request -> bool, saved: (Kind, string) -> bool)
      requires Valid()
      modifies this
      ensures Valid()
      ensures queryOk ==> calls == Swept(old(calls), Call, draw, deliver, saved)
      ensures queryOk ==> ttsCalls == Swept(old(ttsCalls), TtsCall, draw, deliver, saved)
      ensures !queryOk ==> calls == old(calls) && ttsCalls == old(ttsCalls)
    {
      if !queryOk {
        return;
      }
      var callIds := Find(Call);
      var ttsIds := Find(TtsCall);
      var waiting := Queue(callIds, ttsIds);
      QueuedExactlyWaiting(calls, ttsCalls, callIds, ttsIds, waiting);
      ResolveAll(waiting, draw, deliver, saved);
      SettledWaitingIsSwept(old(calls), Call, (set q | q in waiting), draw, deliver, saved);
      SettledWaitingIsSwept(old(ttsCalls), TtsCall, (set q | q in waiting), draw, deliver, saved);
    }
  }
}
