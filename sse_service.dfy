/**
 * The subscriber registry (service/SseService.java): for every task id, the list of live
 * Server-Sent-Events emitters. Emitters are abstract identities; whether a send to one
 * fails is decided by the environment (`broken`) or by the emitter having been completed.
 */
module Sse {
  import opened JavaStrings
  import opened TaskRecord
  import opened StatusResponse

  /** The identity of one `new SseEmitter(...)`. */
  type EmitterId = nat

  datatype Event = Event(name: string, data: TaskStatusResponse)

  /** One event accepted by one emitter. */
  datatype Delivery = Delivery(emitter: EmitterId, event: Event)

  function UpdateEvent(task: TaskData): Event {
    Event("task_update", FromTaskInfo(Some(task)))
  }

  const HeartbeatEvent := Event("heartbeat", Heartbeat())

  predicate NoDuplicates(s: seq<EmitterId>) {
    forall i, j | 0 <= i < j < |s| :: s[i] != s[j]
  }

  /** The emitters of a list whose send does not fail, in list order. */
  function Surviving(es: seq<EmitterId>, failing: set<EmitterId>): (r: seq<EmitterId>)
    ensures |r| <= |es|
  {
    if es == [] then []
    else Surviving(es[..|es| - 1], failing) + (if es[|es| - 1] in failing then [] else [es[|es| - 1]])
  }

  /** The survivors are exactly the listed emitters that do not fail. */
  lemma {:induction false} SurvivingMembers(es: seq<EmitterId>, failing: set<EmitterId>)
    ensures forall e :: e in Surviving(es, failing) <==> e in es && e !in failing
  {
    if es != [] {
      SurvivingMembers(es[..|es| - 1], failing);
      assert es == es[..|es| - 1] + [es[|es| - 1]];
    }
  }

  /** The deliveries of one broadcast of `ev` over `es`: one per non-failing emitter, in list order. */
  function Deliveries(es: seq<EmitterId>, failing: set<EmitterId>, ev: Event): seq<Delivery> {
    if es == [] then []
    else Deliveries(es[..|es| - 1], failing, ev)
         + (if es[|es| - 1] in failing then [] else [Delivery(es[|es| - 1], ev)])
  }

  /** Each delivery carries the event to a listed emitter that does not fail, and every such emitter gets one. */
  lemma {:induction false} DeliveriesMembers(es: seq<EmitterId>, failing: set<EmitterId>, ev: Event)
    ensures forall d | d in Deliveries(es, failing, ev) :: d.event == ev && d.emitter in es && d.emitter !in failing
    ensures forall e | e in es && e !in failing :: Delivery(e, ev) in Deliveries(es, failing, ev)
  {
    if es != [] {
      DeliveriesMembers(es[..|es| - 1], failing, ev);
      assert es == es[..|es| - 1] + [es[|es| - 1]];
    }
  }

  /** Exactly the surviving emitters receive the event, each once and in order. */
  lemma {:induction false} DeliveriesAreSurvivors(es: seq<EmitterId>, failing: set<EmitterId>, ev: Event)
    ensures |Deliveries(es, failing, ev)| == |Surviving(es, failing)|
    ensures forall i | 0 <= i < |Deliveries(es, failing, ev)| ::
              Deliveries(es, failing, ev)[i] == Delivery(Surviving(es, failing)[i], ev)
  {
    if es != [] {
      DeliveriesAreSurvivors(es[..|es| - 1], failing, ev);
    }
  }

  lemma {:induction false} SurvivingNoDuplicates(es: seq<EmitterId>, failing: set<EmitterId>)
    requires NoDuplicates(es)
    ensures NoDuplicates(Surviving(es, failing))
  {
    if es != [] {
      var init := es[..|es| - 1];
      assert NoDuplicates(init) by {
        forall i, j | 0 <= i < j < |init| ensures init[i] != init[j] {
          assert init[i] == es[i] && init[j] == es[j];
        }
      }
      SurvivingNoDuplicates(init, failing);
      SurvivingMembers(init, failing);
      assert es[|es| - 1] !in init by {
        forall i | 0 <= i < |init| ensures init[i] != es[|es| - 1] {
          assert init[i] == es[i];
        }
      }
    }
  }

  /** CopyOnWriteArrayList.remove(Object): drops the first occurrence, if any. */
  function RemoveFirst(s: seq<EmitterId>, e: EmitterId): (r: seq<EmitterId>)
    ensures e !in s ==> r == s
    ensures e in s ==> |r| == |s| - 1
  {
    if s == [] then []
    else if s[0] == e then s[1..]
    else [s[0]] + RemoveFirst(s[1..], e)
  }

  /** Removing keeps every other element and adds none. */
  lemma {:induction false} RemoveFirstMembers(s: seq<EmitterId>, e: EmitterId)
    ensures forall x | x in RemoveFirst(s, e) :: x in s
    ensures forall x | x in s && x != e :: x in RemoveFirst(s, e)
  {
    if s != [] && s[0] != e {
      RemoveFirstMembers(s[1..], e);
    }
  }

  /** Removing the first occurrence of an element that occurs once removes it altogether. */
  lemma {:induction false} RemoveFirstNoDuplicates(s: seq<EmitterId>, e: EmitterId)
    requires NoDuplicates(s)
    ensures NoDuplicates(RemoveFirst(s, e)) && e !in RemoveFirst(s, e)
  {
    if s != [] {
      assert NoDuplicates(s[1..]) by {
        forall i, j | 0 <= i < j < |s| - 1 ensures s[1..][i] != s[1..][j] {
          assert s[1..][i] == s[i + 1] && s[1..][j] == s[j + 1];
        }
      }
      assert s[0] !in s[1..] by {
        forall i | 0 <= i < |s| - 1 ensures s[1..][i] != s[0] {
          assert s[1..][i] == s[i + 1];
        }
      }
      if s[0] != e {
        RemoveFirstNoDuplicates(s[1..], e);
        RemoveFirstMembers(s[1..], e);
      }
    }
  }

  /** Removing an emitter that occurs once from a list in which it appears after the kept prefix. */
  lemma RemoveFirstAfterPrefix(kept: seq<EmitterId>, rest: seq<EmitterId>)
    requires rest != [] && rest[0] !in kept
    ensures RemoveFirst(kept + rest, rest[0]) == kept + rest[1..]
  {
    if kept != [] {
      assert (kept + rest)[1..] == kept[1..] + rest;
      RemoveFirstAfterPrefix(kept[1..], rest);
    } else {
      assert kept + rest == rest;
    }
  }

  /** The registry with `l` as the task's list, or without the task when `l` is empty. */
  function Rebuilt(m: map<string, seq<EmitterId>>, taskId: string, l: seq<EmitterId>): map<string, seq<EmitterId>> {
    if l == [] then m - {taskId} else m[taskId := l]
  }

  /** The registry after removeEmitter: the emitter leaves its task's list; an emptied list leaves the map. */
  function Removed(m: map<string, seq<EmitterId>>, taskId: string, e: EmitterId): map<string, seq<EmitterId>> {
    if taskId in m && e in m[taskId] then Rebuilt(m, taskId, RemoveFirst(m[taskId], e)) else m
  }

  /**
   * removeEmitter touches only the task's own entry; an emitter that is not subscribed changes
   * nothing; otherwise its first occurrence goes, and the entry goes with an emptied list.
   */
  lemma RemovedEffect(m: map<string, seq<EmitterId>>, taskId: string, e: EmitterId)
    ensures var r := Removed(m, taskId, e);
            && (taskId !in m || e !in m[taskId] ==> r == m)
            && (forall k | k != taskId :: (k in r <==> k in m) && (k in r ==> r[k] == m[k]))
            && (taskId in m && e in m[taskId] ==>
                  (taskId in r <==> RemoveFirst(m[taskId], e) != []) &&
                  (taskId in r ==> r[taskId] == RemoveFirst(m[taskId], e)))
  {
  }

  /**
   * The registry after one broadcast to `taskId`: only the survivors stay; no survivor, no entry.
   * An absent or empty list is left as it is.
   */
  function Broadcasted(m: map<string, seq<EmitterId>>, taskId: string, failing: set<EmitterId>): map<string, seq<EmitterId>> {
    if taskId in m && m[taskId] != [] then Rebuilt(m, taskId, Surviving(m[taskId], failing)) else m
  }

  /**
   * A broadcast touches only the task's own entry: the failing emitters leave it, the others
   * stay in order, and the entry goes when none is left.
   */
  lemma BroadcastedEffect(m: map<string, seq<EmitterId>>, taskId: string, failing: set<EmitterId>)
    ensures var r := Broadcasted(m, taskId, failing);
            && (taskId !in m || m[taskId] == [] ==> r == m)
            && (forall k | k != taskId :: (k in r <==> k in m) && (k in r ==> r[k] == m[k]))
            && (taskId in m && m[taskId] != [] ==>
                  (taskId in r <==> Surviving(m[taskId], failing) != []) &&
                  (taskId in r ==> r[taskId] == Surviving(m[taskId], failing)))
            && (taskId in r ==> forall e | e in r[taskId] :: e in m[taskId] && e !in failing)
  {
    if taskId in m {
      SurvivingMembers(m[taskId], failing);
    }
  }

  /** A broadcast leaves every other task's subscriber list as it was. */
  lemma BroadcastedOthers(m: map<string, seq<EmitterId>>, taskId: string, failing: set<EmitterId>)
    ensures Broadcasted(m, taskId, failing) - {taskId} == m - {taskId}
  {
    BroadcastedEffect(m, taskId, failing);
    var r := Broadcasted(m, taskId, failing);
    assert forall k | k in r - {taskId} :: k in m - {taskId} && (r - {taskId})[k] == (m - {taskId})[k];
    assert forall k | k in m - {taskId} :: k in r - {taskId};
  }

  /** The event of the last delivery to `e` in a log, if there is one. */
  function LastTo(log: seq<Delivery>, e: EmitterId): Option<Event> {
    if log == [] then None
    else if log[|log| - 1].emitter == e then Some(log[|log| - 1].event)
    else LastTo(log[..|log| - 1], e)
  }

  /** After one broadcast of `ev`, a listed emitter whose send does not fail last received `ev`. */
  lemma {:induction false} LastToDeliveries(log: seq<Delivery>, es: seq<EmitterId>, failing: set<EmitterId>,
                                            ev: Event, e: EmitterId)
    requires e in es && e !in failing
    ensures LastTo(log + Deliveries(es, failing, ev), e) == Some(ev)
  {
    var init := es[..|es| - 1];
    var last := es[|es| - 1];
    var before := log + Deliveries(init, failing, ev);
    var tail := if last in failing then [] else [Delivery(last, ev)];
    assert log + Deliveries(es, failing, ev) == before + tail;
    if last != e {
      assert e in init by {
        assert es == init + [last];
      }
      LastToDeliveries(log, init, failing, ev, e);
      if tail != [] {
        var s := before + tail;
        assert s[|s| - 1].emitter == last;
        assert s[..|s| - 1] == before;
        assert LastTo(s, e) == LastTo(before, e);
      } else {
        assert before + tail == before;
      }
    }
  }

  /** Every emitter left on the task's list by a broadcast of `ev` last received `ev`. */
  lemma BroadcastedLastDelivery(m: map<string, seq<EmitterId>>, taskId: string, failing: set<EmitterId>,
                                log: seq<Delivery>, ev: Event)
    ensures var r := Broadcasted(m, taskId, failing);
            var sent := log + (if taskId in m then Deliveries(m[taskId], failing, ev) else []);
            taskId in r ==> forall e | e in r[taskId] :: LastTo(sent, e) == Some(ev)
  {
    var r := Broadcasted(m, taskId, failing);
    BroadcastedEffect(m, taskId, failing);
    if taskId in r {
      forall e | e in r[taskId]
        ensures LastTo(log + Deliveries(m[taskId], failing, ev), e) == Some(ev)
      {
        LastToDeliveries(log, m[taskId], failing, ev, e);
      }
    }
  }

  lemma RebuiltSame(m: map<string, seq<EmitterId>>, taskId: string)
    requires taskId in m && m[taskId] != []
    ensures Rebuilt(m, taskId, m[taskId]) == m
  {
  }

  /** Removing one emitter from a rebuilt list is rebuilding with the shortened list. */
  lemma RemovedRebuilt(m: map<string, seq<EmitterId>>, taskId: string, cur: seq<EmitterId>, e: EmitterId)
    requires e in cur
    ensures Removed(Rebuilt(m, taskId, cur), taskId, e) == Rebuilt(m, taskId, RemoveFirst(cur, e))
  {
    var m1 := Rebuilt(m, taskId, cur);
    assert m1[taskId] == cur;
    var l := RemoveFirst(cur, e);
    if l == [] {
      assert m1 - {taskId} == m - {taskId};
    } else {
      assert m1[taskId := l] == m[taskId := l];
    }
  }

  /** One step of a broadcast whose emitter fails: the emitter leaves the list. */
  lemma BroadcastStepFails(m: map<string, seq<EmitterId>>, taskId: string, list: seq<EmitterId>,
                           i: nat, failing: set<EmitterId>, ev: Event)
    requires i < |list| && list[i] in failing
    ensures Surviving(list[..i + 1], failing) == Surviving(list[..i], failing)
    ensures Deliveries(list[..i + 1], failing, ev) == Deliveries(list[..i], failing, ev)
    ensures Removed(Rebuilt(m, taskId, Surviving(list[..i], failing) + list[i..]), taskId, list[i])
            == Rebuilt(m, taskId, Surviving(list[..i + 1], failing) + list[i + 1..])
  {
    var e := list[i];
    assert list[..i + 1][..i] == list[..i];
    assert list[i..] == [e] + list[i + 1..];
    var kept := Surviving(list[..i], failing);
    SurvivingMembers(list[..i], failing);
    RemoveFirstAfterPrefix(kept, list[i..]);
    RemovedRebuilt(m, taskId, kept + list[i..], e);
  }

  /** After the last emitter the rebuilt registry is the broadcast's result. */
  lemma BroadcastEnds(m: map<string, seq<EmitterId>>, taskId: string, failing: set<EmitterId>)
    requires taskId in m && m[taskId] != []
    ensures var l := m[taskId];
            Rebuilt(m, taskId, Surviving(l[..|l|], failing) + l[|l|..]) == Broadcasted(m, taskId, failing)
  {
    var l := m[taskId];
    assert l[..|l|] == l && l[|l|..] == [];
    assert Surviving(l, failing) + [] == Surviving(l, failing);
  }

  /** One step of a broadcast whose emitter accepts the event: the list is unchanged, one more delivery. */
  lemma BroadcastStepSends(list: seq<EmitterId>, i: nat, failing: set<EmitterId>, ev: Event)
    requires i < |list| && list[i] !in failing
    ensures Surviving(list[..i + 1], failing) + list[i + 1..] == Surviving(list[..i], failing) + list[i..]
    ensures Deliveries(list[..i + 1], failing, ev) == Deliveries(list[..i], failing, ev) + [Delivery(list[i], ev)]
  {
    assert list[..i + 1][..i] == list[..i];
    assert list[i..] == [list[i]] + list[i + 1..];
  }

  /** The registry after a heartbeat round: every list keeps its survivors; emptied lists are dropped. */
  function HeartbeatPruned(m: map<string, seq<EmitterId>>, failing: set<EmitterId>): (r: map<string, seq<EmitterId>>)
    ensures forall k :: k in r <==> k in m && Surviving(m[k], failing) != []
    ensures forall k | k in r :: r[k] == Surviving(m[k], failing) && r[k] != []
  {
    map k | k in m && Surviving(m[k], failing) != [] :: Surviving(m[k], failing)
  }

  /** A heartbeat round part-way through: the ids in `todo` are still untouched. */
  function PartlyPruned(m: map<string, seq<EmitterId>>, failing: set<EmitterId>, todo: set<string>): map<string, seq<EmitterId>> {
    map k | k in m && (k in todo || Surviving(m[k], failing) != []) ::
      if k in todo then m[k] else Surviving(m[k], failing)
  }

  lemma PartlyPrunedEnds(m: map<string, seq<EmitterId>>, failing: set<EmitterId>)
    ensures PartlyPruned(m, failing, m.Keys) == m
    ensures PartlyPruned(m, failing, {}) == HeartbeatPruned(m, failing)
  {
    assert PartlyPruned(m, failing, m.Keys).Keys == m.Keys;
  }

  /** Visiting one more id of the heartbeat round, whose list is not empty: a heartbeat broadcast. */
  lemma PartlyPrunedSend(m: map<string, seq<EmitterId>>, failing: set<EmitterId>, todo: set<string>, k: string)
    requires k in todo && k in m && m[k] != []
    ensures Broadcasted(PartlyPruned(m, failing, todo), k, failing) == PartlyPruned(m, failing, todo - {k})
  {
    var p := PartlyPruned(m, failing, todo);
    var q := PartlyPruned(m, failing, todo - {k});
    assert p[k] == m[k];
    var b := Rebuilt(p, k, Surviving(m[k], failing));
    forall j ensures j in b <==> j in q {
      if j != k {
        assert j in b <==> j in p;
      }
    }
    forall j | j in b ensures b[j] == q[j] {
      if j != k {
        assert b[j] == p[j];
      }
    }
    assert b == q;
  }

  /** Visiting one more id of the heartbeat round, whose list is empty: the id is dropped. */
  lemma PartlyPrunedDrop(m: map<string, seq<EmitterId>>, failing: set<EmitterId>, todo: set<string>, k: string)
    requires k in todo && k in m && m[k] == []
    ensures PartlyPruned(m, failing, todo) - {k} == PartlyPruned(m, failing, todo - {k})
  {
    var p := PartlyPruned(m, failing, todo) - {k};
    var q := PartlyPruned(m, failing, todo - {k});
    assert Surviving(m[k], failing) == [];
    forall j ensures j in p <==> j in q {
    }
    assert p == q;
  }

  lemma AppendAssoc<T>(a: seq<T>, b: seq<T>, c: seq<T>)
    ensures (a + b) + c == a + (b + c)
  {
  }

  /** Every emitter subscribed to some task. */
  function Subscribed(m: map<string, seq<EmitterId>>): set<EmitterId> {
    set k, e | k in m && e in m[k] :: e
  }

  /**
   * The heartbeats sent part-way through a round: each went to a live subscribed emitter,
   * and every live emitter of an id already visited got one.
   */
  ghost predicate HeartbeatsSoFar(m: map<string, seq<EmitterId>>, failing: set<EmitterId>,
                                  todo: set<string>, news: seq<Delivery>) {
    && (forall d | d in news :: d.event == HeartbeatEvent && d.emitter !in failing && d.emitter in Subscribed(m))
    && (forall k, e | k in m && k !in todo && e in m[k] && e !in failing :: Delivery(e, HeartbeatEvent) in news)
  }

  lemma HeartbeatsStep(m: map<string, seq<EmitterId>>, failing: set<EmitterId>,
                       todo: set<string>, news: seq<Delivery>, k: string)
    requires k in todo && k in m && HeartbeatsSoFar(m, failing, todo, news)
    ensures HeartbeatsSoFar(m, failing, todo - {k}, news + Deliveries(m[k], failing, HeartbeatEvent))
  {
    var ds := Deliveries(m[k], failing, HeartbeatEvent);
    DeliveriesMembers(m[k], failing, HeartbeatEvent);
    forall d | d in news + ds
      ensures d.event == HeartbeatEvent && d.emitter !in failing && d.emitter in Subscribed(m)
    {
      if d in ds {
        assert d.emitter in m[k];
      }
    }
  }

  lemma HeartbeatsSkip(m: map<string, seq<EmitterId>>, failing: set<EmitterId>,
                       todo: set<string>, news: seq<Delivery>, k: string)
    requires k in todo && k in m && m[k] == [] && HeartbeatsSoFar(m, failing, todo, news)
    ensures HeartbeatsSoFar(m, failing, todo - {k}, news)
  {
  }

  /** A finished round: each heartbeat went to a live subscriber, and every live subscriber got one. */
  lemma HeartbeatsDone(m: map<string, seq<EmitterId>>, failing: set<EmitterId>, news: seq<Delivery>)
    requires HeartbeatsSoFar(m, failing, {}, news)
    ensures forall d | d in news :: d.event == HeartbeatEvent && d.emitter !in failing && d.emitter in Subscribed(m)
    ensures forall e | e in Subscribed(m) && e !in failing :: Delivery(e, HeartbeatEvent) in news
  {
    forall e | e in Subscribed(m) && e !in failing
      ensures Delivery(e, HeartbeatEvent) in news
    {
      var k :| k in m && e in m[k];
    }
  }

  /** Every subscribed emitter was issued before `next`. */
  ghost predicate AllIssued(m: map<string, seq<EmitterId>>, next: nat) {
    forall k | k in m :: forall e | e in m[k] :: e < next
  }

  /** Every task id in the registry has at least one emitter, and no list repeats one. */
  ghost predicate Canonical(m: map<string, seq<EmitterId>>) {
    forall k | k in m :: m[k] != [] && NoDuplicates(m[k])
  }

  /** removeEmitter issues nothing and never leaves a list empty or repeating. */
  lemma RemovedKeepsShape(m: map<string, seq<EmitterId>>, next: nat, taskId: string, e: EmitterId)
    ensures AllIssued(m, next) ==> AllIssued(Removed(m, taskId, e), next)
    ensures Canonical(m) ==> Canonical(Removed(m, taskId, e))
  {
    if taskId in m && e in m[taskId] {
      RemoveFirstMembers(m[taskId], e);
      if Canonical(m) {
        RemoveFirstNoDuplicates(m[taskId], e);
      }
    }
  }

  /** A broadcast never leaves a list empty or repeating. */
  lemma BroadcastedKeepsShape(m: map<string, seq<EmitterId>>, taskId: string, failing: set<EmitterId>)
    ensures Canonical(m) ==> Canonical(Broadcasted(m, taskId, failing))
  {
    if taskId in m && Canonical(m) {
      SurvivingNoDuplicates(m[taskId], failing);
    }
  }

  /** A heartbeat round leaves no list empty, and none repeating if none did before. */
  lemma HeartbeatPrunedKeepsShape(m: map<string, seq<EmitterId>>, failing: set<EmitterId>)
    ensures forall k | k in HeartbeatPruned(m, failing) :: HeartbeatPruned(m, failing)[k] != []
    ensures Canonical(m) ==> Canonical(HeartbeatPruned(m, failing))
  {
    if Canonical(m) {
      forall k | k in HeartbeatPruned(m, failing)
        ensures NoDuplicates(HeartbeatPruned(m, failing)[k])
      {
        SurvivingNoDuplicates(m[k], failing);
      }
    }
  }

  class SseService {
    /** emitters: task id -> the live emitters subscribed to it. */
    var emitters: map<string, seq<EmitterId>>
    /** The identity the next `new SseEmitter` receives. */
    var nextEmitter: nat
    /** Emitters on which complete() has been called; sending to them throws IllegalStateException. */
    var completed: set<EmitterId>
    /** Emitters whose client connection is gone; sending to them throws IOException. */
    const broken: set<EmitterId>
    /** Every event an emitter accepted, in sending order. */
    var sent: seq<Delivery>

    ghost predicate Valid()
      reads this`emitters, this`nextEmitter
    {
      AllIssued(emitters, nextEmitter)
    }

    /** The emitters a send fails on. */
    function Failing(): set<EmitterId>
      reads this`completed
    {
      broken + completed
    }

    constructor (deadConnections: set<EmitterId>)
      ensures Valid() && emitters == map[] && completed == {} && sent == []
      ensures broken == deadConnections
    {
      emitters := map[];
      nextEmitter := 0;
      completed := {};
      broken := deadConnections;
      sent := [];
    }

    /** createEmitter: appends one new emitter to the task's list, creating the list if absent. */
    method CreateEmitter(taskId: string) returns (emitter: EmitterId)
      requires Valid()
      modifies this`emitters, this`nextEmitter
      ensures Valid() && (Canonical(old(emitters)) ==> Canonical(emitters))
      ensures emitter == old(nextEmitter) && nextEmitter == emitter + 1
      ensures emitter !in Subscribed(old(emitters))
      ensures emitters == old(emitters)[taskId := (if taskId in old(emitters) then old(emitters)[taskId] else []) + [emitter]]
    {
      emitter := nextEmitter;
      nextEmitter := nextEmitter + 1;
      var list := if taskId in emitters then emitters[taskId] else [];
      emitters := emitters[taskId := list + [emitter]];
      assert NoDuplicates(list) ==> NoDuplicates(list + [emitter]) by {
        var l := list + [emitter];
        forall i, j | 0 <= i < j < |l| && NoDuplicates(list) ensures l[i] != l[j] {
          if j < |list| {
            assert l[i] == list[i] && l[j] == list[j];
          } else {
            assert l[i] == list[i] && list[i] in list;
          }
        }
      }
    }

    /** removeEmitter (also the completion, timeout and error callback): see `Removed`. */
    method RemoveEmitter(taskId: string, emitter: EmitterId)
      requires Valid()
      modifies this`emitters
      ensures Valid() && (Canonical(old(emitters)) ==> Canonical(emitters))
      ensures emitters == Removed(old(emitters), taskId, emitter)
    {
      RemovedKeepsShape(emitters, nextEmitter, taskId, emitter);
      if taskId in emitters {
        var list := emitters[taskId];
        if emitter in list {
          var rest := RemoveFirst(list, emitter);
          if rest == [] {
            emitters := emitters - {taskId};
          } else {
            emitters := emitters[taskId := rest];
          }
        }
      }
    }

    /** One send inside the broadcast loop: a failing send removes the emitter, any other is recorded. */
    method SendTo(taskId: string, emitter: EmitterId, ev: Event)
      requires Valid()
      modifies this`emitters, this`sent
      ensures Valid() && (Canonical(old(emitters)) ==> Canonical(emitters))
      ensures emitter in Failing() ==> emitters == Removed(old(emitters), taskId, emitter) && sent == old(sent)
      ensures emitter !in Failing() ==> emitters == old(emitters) && sent == old(sent) + [Delivery(emitter, ev)]
    {
      if emitter in Failing() {
        RemoveEmitter(taskId, emitter);
      } else {
        sent := sent + [Delivery(emitter, ev)];
      }
    }

    /**
     * Sends `ev` to every emitter of the task's list as it was when the send began;
     * an emitter whose send fails is removed and the loop goes on with the rest.
     */
    method Broadcast(taskId: string, ev: Event)
      requires Valid()
      modifies this`emitters, this`sent
      ensures Valid() && (Canonical(old(emitters)) ==> Canonical(emitters))
      ensures emitters == Broadcasted(old(emitters), taskId, Failing())
      ensures taskId !in old(emitters) ==> sent == old(sent)
      ensures taskId in old(emitters) ==> sent == old(sent) + Deliveries(old(emitters)[taskId], Failing(), ev)
    {
      if taskId !in emitters || emitters[taskId] == [] {
        assert taskId in emitters ==> Deliveries(emitters[taskId], Failing(), ev) == [];
        return;
      }
      var list := emitters[taskId];
      ghost var m0 := emitters;
      ghost var sent0 := sent;
      var failing := Failing();
      RebuiltSame(m0, taskId);
      assert list[..0] == [] && list[0..] == list;
      assert Surviving(list[..0], failing) + list[0..] == list;
      assert sent == sent0 + Deliveries(list[..0], failing, ev);
      var i := 0;
      while i < |list|
        invariant 0 <= i <= |list| && list == m0[taskId]
        invariant Valid() && failing == Failing()
        invariant emitters == Rebuilt(m0, taskId, Surviving(list[..i], failing) + list[i..])
        invariant sent == sent0 + Deliveries(list[..i], failing, ev)
      {
        BroadcastStep(taskId, ev, list, i, failing, m0, sent0);
        i := i + 1;
      }
      BroadcastEnds(m0, taskId, failing);
      BroadcastedKeepsShape(m0, taskId, failing);
      assert list[..i] == list;
      assert failing == Failing();
    }

    /** One turn of the broadcast loop: the i-th emitter of the list as it was when the send began. */
    method BroadcastStep(taskId: string, ev: Event, list: seq<EmitterId>, i: nat, failing: set<EmitterId>,
                         ghost m0: map<string, seq<EmitterId>>, ghost sent0: seq<Delivery>)
      requires Valid() && i < |list| && failing == Failing()
      requires emitters == Rebuilt(m0, taskId, Surviving(list[..i], failing) + list[i..])
      requires sent == sent0 + Deliveries(list[..i], failing, ev)
      modifies this`emitters, this`sent
      ensures Valid()
      ensures emitters == Rebuilt(m0, taskId, Surviving(list[..i + 1], failing) + list[i + 1..])
      ensures sent == sent0 + Deliveries(list[..i + 1], failing, ev)
    {
      var e := list[i];
      if e in failing {
        BroadcastStepFails(m0, taskId, list, i, failing, ev);
      } else {
        BroadcastStepSends(list, i, failing, ev);
        AppendAssoc(sent0, Deliveries(list[..i], failing, ev), [Delivery(e, ev)]);
      }
      SendTo(taskId, e, ev);
    }

    /** sendTaskUpdate: a "task_update" event carrying the task's status response. */
    method SendTaskUpdate(taskId: string, task: TaskData)
      requires Valid()
      modifies this`emitters, this`sent
      ensures Valid() && (Canonical(old(emitters)) ==> Canonical(emitters))
      ensures emitters == Broadcasted(old(emitters), taskId, Failing())
      ensures taskId !in old(emitters) ==> sent == old(sent)
      ensures taskId in old(emitters) ==> sent == old(sent) + Deliveries(old(emitters)[taskId], Failing(), UpdateEvent(task))
    {
      Broadcast(taskId, UpdateEvent(task));
    }

    /** sendHeartbeat: a "heartbeat" event carrying the heartbeat payload. */
    method SendHeartbeat(taskId: string)
      requires Valid()
      modifies this`emitters, this`sent
      ensures Valid() && (Canonical(old(emitters)) ==> Canonical(emitters))
      ensures emitters == Broadcasted(old(emitters), taskId, Failing())
      ensures taskId !in old(emitters) ==> sent == old(sent)
      ensures taskId in old(emitters) ==> sent == old(sent) + Deliveries(old(emitters)[taskId], Failing(), HeartbeatEvent)
    {
      Broadcast(taskId, HeartbeatEvent);
    }

    /**
     * completeEmitter: completes every emitter of the task. The list itself is left alone:
     * the emitters leave it only when their completion callback runs RemoveEmitter.
     */
    method CompleteEmitter(taskId: string)
      requires Valid()
      modifies this`completed
      ensures Valid()
      ensures taskId !in emitters ==> completed == old(completed)
      ensures taskId in emitters ==> completed == old(completed) + set e | e in emitters[taskId]
    {
      if taskId in emitters {
        completed := completed + set e | e in emitters[taskId];
      }
    }

    /** What sendHeartbeats does with one entry: a heartbeat for a non-empty list, removal of an empty one. */
    method HeartbeatEntry(taskId: string)
      requires Valid() && taskId in emitters
      modifies this`emitters, this`sent
      ensures Valid() && (Canonical(old(emitters)) ==> Canonical(emitters))
      ensures old(emitters)[taskId] != [] ==>
                emitters == Broadcasted(old(emitters), taskId, Failing()) &&
                sent == old(sent) + Deliveries(old(emitters)[taskId], Failing(), HeartbeatEvent)
      ensures old(emitters)[taskId] == [] ==> emitters == old(emitters) - {taskId} && sent == old(sent)
    {
      if emitters[taskId] != [] {
        SendHeartbeat(taskId);
      } else {
        emitters := emitters - {taskId};
      }
    }

    /** One turn of the heartbeat round: the entry of `k`, one of the ids not yet visited. */
    method HeartbeatVisit(k: string, ghost m0: map<string, seq<EmitterId>>, failing: set<EmitterId>,
                          ghost todo: set<string>, ghost news: seq<Delivery>, ghost sent0: seq<Delivery>)
      requires Valid() && todo <= m0.Keys && k in todo && failing == Failing()
      requires emitters == PartlyPruned(m0, failing, todo) && sent == sent0 + news
      requires HeartbeatsSoFar(m0, failing, todo, news)
      modifies this`emitters, this`sent
      ensures Valid()
      ensures emitters == PartlyPruned(m0, failing, todo - {k})
      ensures sent == sent0 + (news + Deliveries(m0[k], failing, HeartbeatEvent))
      ensures HeartbeatsSoFar(m0, failing, todo - {k}, news + Deliveries(m0[k], failing, HeartbeatEvent))
    {
      assert emitters[k] == m0[k];
      if m0[k] != [] {
        PartlyPrunedSend(m0, failing, todo, k);
        HeartbeatsStep(m0, failing, todo, news, k);
      } else {
        PartlyPrunedDrop(m0, failing, todo, k);
        HeartbeatsSkip(m0, failing, todo, news, k);
      }
      HeartbeatEntry(k);
      AppendAssoc(sent0, news, Deliveries(m0[k], failing, HeartbeatEvent));
    }

    /** The loop of sendHeartbeats: every id visited once, in an order the map chooses. */
    method HeartbeatRound(ghost m0: map<string, seq<EmitterId>>, failing: set<EmitterId>) returns (ghost news: seq<Delivery>)
      requires Valid() && emitters == m0 && failing == Failing()
      modifies this`emitters, this`sent
      ensures Valid() && emitters == PartlyPruned(m0, failing, {})
      ensures sent == old(sent) + news && HeartbeatsSoFar(m0, failing, {}, news)
    {
      ghost var sent0 := sent;
      news := [];
      var todo := emitters.Keys;
      PartlyPrunedEnds(m0, failing);
      while todo != {}
        invariant todo <= m0.Keys
        invariant Valid() && failing == Failing()
        invariant emitters == PartlyPruned(m0, failing, todo)
        invariant sent == sent0 + news
        invariant HeartbeatsSoFar(m0, failing, todo, news)
        decreases todo
      {
        var k :| k in todo;
        HeartbeatVisit(k, m0, failing, todo, news, sent0);
        news := news + Deliveries(m0[k], failing, HeartbeatEvent);
        todo := todo - {k};
      }
    }

    /**
     * sendHeartbeats: visits every task id once, in an order the map chooses; a non-empty
     * list gets a heartbeat, an empty one is dropped.
     */
    method SendHeartbeats()
      requires Valid()
      modifies this`emitters, this`sent
      ensures Valid() && (forall k | k in emitters :: emitters[k] != [])
      ensures Canonical(old(emitters)) ==> Canonical(emitters)
      ensures emitters == HeartbeatPruned(old(emitters), Failing())
      ensures |old(sent)| <= |sent| && sent[..|old(sent)|] == old(sent)
      ensures forall d | d in sent[|old(sent)|..] ::
                d.event == HeartbeatEvent && d.emitter !in Failing() && d.emitter in Subscribed(old(emitters))
      ensures forall e | e in Subscribed(old(emitters)) && e !in Failing() ::
                Delivery(e, HeartbeatEvent) in sent[|old(sent)|..]
    {
      ghost var m0 := emitters;
      ghost var sent0 := sent;
      var failing := Failing();
      ghost var news := HeartbeatRound(m0, failing);
      PartlyPrunedEnds(m0, failing);
      HeartbeatPrunedKeepsShape(m0, failing);
      HeartbeatsDone(m0, failing, news);
      assert sent[|sent0|..] == news;
    }
  }
}
