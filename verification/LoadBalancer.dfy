/** Worker selection: shared in-flight counters, the least-loaded pick, and the soft capacity cap under
    every interleaving of connection handlers. */
module LoadBalancer {
  import opened Basics

  type Worker = string

  datatype Entry = Entry(worker: Worker, capacity: int)

  type Counters = map<Worker, int>

  const I32_MAX: int := 0x7fff_ffff

  function Load(c: Counters, w: Worker): int { if w in c then c[w] else 0 }

  function Incremented(c: Counters, w: Worker): Counters { c[w := Load(c, w) + 1] }

  /** A count that falls to zero is removed; a missing one is left alone. */
  function Decremented(c: Counters, w: Worker): Counters
  {
    if w !in c then c else if c[w] - 1 <= 0 then c - {w} else c[w := c[w] - 1]
  }

  /** The shared map behind its mutex. `guards` are the live guards. */
  class LoadCounters {
    var inner: Counters
    ghost var guards: multiset<Worker>

    ghost predicate Valid()
      reads this
    {
      forall w :: Load(inner, w) == guards[w] && (w in inner ==> inner[w] > 0)
    }

    constructor ()
      ensures Valid() && guards == multiset{} && inner == map[]
    {
      inner, guards := map[], multiset{};
    }

    method Get(w: Worker) returns (n: int)
      requires Valid()
      ensures n == guards[w] && n == Load(inner, w)
    {
      n := if w in inner then inner[w] else 0;
    }

    method Acquire(w: Worker)
      requires Valid()
      modifies this
      ensures Valid() && guards == old(guards) + multiset{w} && inner == Incremented(old(inner), w)
    {
      if w !in inner { inner := inner[w := 0]; }
      inner := inner[w := inner[w] + 1];
      guards := guards + multiset{w};
    }

    /** Dropping a live guard. */
    method Release(w: Worker)
      requires Valid() && w in guards
      modifies this
      ensures Valid() && guards == old(guards) - multiset{w} && inner == Decremented(old(inner), w)
    {
      assert Load(inner, w) == guards[w];
      if w in inner {
        inner := inner[w := inner[w] - 1];
        if inner[w] <= 0 { inner := inner - {w}; }
      }
      guards := guards - multiset{w};
    }
  }

  // ---- pick ---------------------------------------------------------------------------------------

  /** Room for one more; a capacity that is not positive means no limit. */
  predicate Spare(e: Entry, load: int) { !(e.capacity > 0 && load >= e.capacity) }

  /** One entry of the scan: skip it, start a new best list with it, or join the best list. */
  function Scan(best: seq<Entry>, bestLoad: int, e: Entry, load: int): (seq<Entry>, int)
  {
    if !Spare(e, load) then (best, bestLoad)
    else if load < bestLoad then ([e], load)
    else if load == bestLoad then (best + [e], bestLoad)
    else (best, bestLoad)
  }

  /** pick: a worker of minimum load among those with room, and None only if no worker has room. */
  method Pick(entries: seq<Entry>, c: Counters, choice: nat) returns (r: Option<Entry>)
    requires forall w :: Load(c, w) <= I32_MAX
    ensures r.None? <==> forall e :: e in entries ==> e.capacity > 0 && Load(c, e.worker) >= e.capacity
    ensures r.Some? ==>
      && r.value in entries && (r.value.capacity > 0 ==> Load(c, r.value.worker) < r.value.capacity)
      && forall e :: e in entries && (e.capacity > 0 ==> Load(c, e.worker) < e.capacity) ==>
           Load(c, r.value.worker) <= Load(c, e.worker)
  {
    var best: seq<Entry> := [];
    var bestLoad := I32_MAX;
    var i := 0;
    while i < |entries|
      invariant 0 <= i <= |entries| && (best == [] ==> bestLoad == I32_MAX)
      invariant forall e :: e in best ==> e in entries && Spare(e, Load(c, e.worker)) && Load(c, e.worker) == bestLoad
      invariant forall k :: 0 <= k < i && Spare(entries[k], Load(c, entries[k].worker)) ==>
        best != [] && bestLoad <= Load(c, entries[k].worker)
    {
      var e := entries[i];
      var load := Load(c, e.worker);
      var scanned := Scan(best, bestLoad, e, load);
      best, bestLoad := scanned.0, scanned.1;
      i := i + 1;
    }
    if best == [] { return None; }
    assert best[choice % |best|] in best;
    return Some(best[choice % |best|]);
  }

  // ---- handlers, interleaved read by read -------------------------------------------------------------

  /** A handler scanning the roster, with a worker chosen, or holding a guard on it. */
  datatype Phase = Scanning(next: nat, best: seq<Entry>,
      bestLoad: int) | Chosen(worker: Worker) | Holding(worker: Worker)

  type Handlers = map<Id, Phase>

  datatype State = State(counters: Counters, handlers: Handlers)

  datatype Action = Arrive(h: Id) | ReadLoad(h: Id) | Choose(h: Id, choice: nat) | TakeGuard(h: Id) | DropGuard(h: Id)

  /** Handlers between the start of their pick and their acquire. */
  function Picking(hs: Handlers): set<Id> { set h | h in hs && !hs[h].Holding? }

  function Holders(hs: Handlers, w: Worker): set<Id> { set h | h in hs && hs[h] == Holding(w) }

  predicate Considers(p: Phase, w: Worker)
  {
    match p
    case Scanning(_, best, _) => exists i :: 0 <= i < |best| && best[i].worker == w
    case Chosen(v) => v == w
    case Holding(_) => false
  }

  /** Handlers that may still acquire w on what they have read. */
  function Contenders(hs: Handlers, w: Worker): set<Id> { set h | h in hs && Considers(hs[h], w) }

  function ReadStep(roster: seq<Entry>, s: State, h: Id): State
    requires h in s.handlers && s.handlers[h].Scanning?
  {
    var p := s.handlers[h];
    if p.next >= |roster| then s
    else
      var e := roster[p.next];
      var scanned := Scan(p.best, p.bestLoad, e, Load(s.counters, e.worker));
      s.(handlers := s.handlers[h := Scanning(p.next + 1, scanned.0, scanned.1)])
  }

  function ChooseStep(roster: seq<Entry>, s: State, h: Id, choice: nat): State
    requires h in s.handlers && s.handlers[h].Scanning?
  {
    var p := s.handlers[h];
    if p.next < |roster| then s
    else if p.best == [] then s.(handlers := s.handlers - {h})
    else s.(handlers := s.handlers[h := Chosen(p.best[choice % |p.best|].worker)])
  }

  /** At most `most` handlers are picking at a time. */
  function Step(roster: seq<Entry>, most: nat, s: State, a: Action): State
  {
    match a
    case Arrive(h) =>
      if h in s.handlers || |Picking(s.handlers)| >= most then s
      else s.(handlers := s.handlers[h := Scanning(0, [], I32_MAX)])
    case ReadLoad(h) => if h in s.handlers && s.handlers[h].Scanning? then ReadStep(roster, s, h) else s
    case Choose(h, choice) => if h in s.handlers && s.handlers[h].Scanning? then ChooseStep(roster, s, h, choice) else s
    case TakeGuard(h) =>
      if h in s.handlers && s.handlers[h].Chosen?
      then State(Incremented(s.counters, s.handlers[h].worker), s.handlers[h := Holding(s.handlers[h].worker)]) else s
    case DropGuard(h) =>
      if h in s.handlers && s.handlers[h].Holding?
      then State(Decremented(s.counters, s.handlers[h].worker), s.handlers - {h}) else s
  }

  function Run(roster: seq<Entry>, most: nat, s: State, actions: seq<Action>): State
    decreases |actions|
  {
    if actions == [] then s else Run(roster, most, Step(roster, most, s, actions[0]), actions[1..])
  }

  const START := State(map[], map[])

  // ---- what every interleaving keeps -------------------------------------------------------------------

  ghost predicate Counted(s: State)
  {
    forall w :: Load(s.counters, w) == |Holders(s.handlers, w)| && (w in s.counters ==> s.counters[w] > 0)
  }

  /** A best list only has entries of the roster. */
  ghost predicate FromRoster(roster: seq<Entry>, p: Phase)
  {
    p.Scanning? ==> forall i :: 0 <= i < |p.best| ==> p.best[i] in roster
  }

  ghost predicate OneEntryPerWorker(roster: seq<Entry>)
  {
    forall i, j :: 0 <= i < j < |roster| ==> roster[i].worker != roster[j].worker
  }

  /** Load plus contenders stays within capacity + most - 1. */
  ghost predicate Capped(s: State, most: nat, e: Entry)
  {
    e.capacity > 0 ==> Load(s.counters, e.worker) + |Contenders(s.handlers, e.worker)| <= e.capacity + most - 1
  }

  ghost predicate Inv(roster: seq<Entry>, most: nat, s: State)
  {
    && Counted(s) && |Picking(s.handlers)| <= most
    && (forall h :: h in s.handlers ==> FromRoster(roster, s.handlers[h]))
    && (forall e :: e in roster ==> Capped(s, most, e))
  }

  lemma ContendersPick(hs: Handlers, w: Worker)
    ensures |Contenders(hs, w)| <= |Picking(hs)|
  {
    SubsetSize(Contenders(hs, w), Picking(hs));
  }

  /** Changing one handler's phase changes each set by that handler at most. */
  lemma PhaseChange(hs: Handlers, h: Id, p: Phase, w: Worker)
    ensures var gs := hs[h := p];
      && Contenders(gs, w) == (if Considers(p, w) then Contenders(hs, w) + {h} else Contenders(hs, w) - {h})
      && Holders(gs, w) == (if p == Holding(w) then Holders(hs, w) + {h} else Holders(hs, w) - {h})
      && Picking(gs) == (if p.Holding? then Picking(hs) - {h} else Picking(hs) + {h})
  {
  }

  lemma Leaves(hs: Handlers, h: Id, w: Worker)
    ensures Contenders(hs - {h}, w) == Contenders(hs, w) - {h}
    ensures Holders(hs - {h}, w) == Holders(hs, w) - {h}
    ensures Picking(hs - {h}) == Picking(hs) - {h}
  {
  }

  /** Fewer contenders and the same holders keep the invariant, as long as not too many are picking. */
  lemma FewerKeeps(roster: seq<Entry>, most: nat, s: State, hs: Handlers)
    requires Inv(roster, most, s)
    requires forall w :: Contenders(hs, w) <= Contenders(s.handlers, w) && Holders(hs, w) == Holders(s.handlers, w)
    requires |Picking(hs)| <= most && forall h :: h in hs ==> FromRoster(roster, hs[h])
    ensures Inv(roster, most, s.(handlers := hs))
  {
    forall e | e in roster ensures Capped(s.(handlers := hs), most, e) {
      assert Capped(s, most, e);
      SubsetSize(Contenders(hs, e.worker), Contenders(s.handlers, e.worker));
    }
  }

  lemma ArriveKeeps(roster: seq<Entry>, most: nat, s: State, h: Id)
    requires Inv(roster, most, s) && h !in s.handlers && |Picking(s.handlers)| < most
    ensures Inv(roster, most, s.(handlers := s.handlers[h := Scanning(0, [], I32_MAX)]))
  {
    var p := Scanning(0, [], I32_MAX);
    var hs := s.handlers[h := p];
    forall w ensures Contenders(hs, w) <= Contenders(s.handlers, w) && Holders(hs, w) == Holders(s.handlers, w) {
      PhaseChange(s.handlers, h, p, w);
    }
    assert |Picking(hs)| == |Picking(s.handlers)| + 1 by {
      PhaseChange(s.handlers, h, p, "");
      assert h !in Picking(s.handlers);
    }
    FewerKeeps(roster, most, s, hs);
  }

  /** After a read a handler considers, besides what it did, at most the worker it just found to have room. */
  lemma ScanConsiders(best: seq<Entry>, bestLoad: int, e: Entry, load: int, i: nat)
    requires i < |Scan(best, bestLoad, e, load).0|
    ensures Scan(best, bestLoad, e, load).0[i] in best || (Scan(best, bestLoad, e, load).0[i] == e && Spare(e, load))
  {
  }

  /** A newly considered worker had room when read, and all who consider it are picking. */
  lemma NewContender(s: State, hs: Handlers, most: nat, e: Entry)
    requires e.capacity > 0 && Spare(e, Load(s.counters, e.worker)) && |Picking(hs)| <= most
    ensures Capped(s.(handlers := hs), most, e)
  {
    ContendersPick(hs, e.worker);
  }

  lemma NoNewContender(s: State, h: Id, q: Phase, most: nat, e: Entry)
    requires Capped(s, most, e) && h in s.handlers && (Considers(q, e.worker) ==> Considers(s.handlers[h], e.worker))
    ensures Capped(s.(handlers := s.handlers[h := q]), most, e)
  {
    PhaseChange(s.handlers, h, q, e.worker);
    SubsetSize(Contenders(s.handlers[h := q], e.worker), Contenders(s.handlers, e.worker));
  }

  lemma ReadCapped(roster: seq<Entry>, most: nat, s: State, h: Id, e: Entry)
    requires OneEntryPerWorker(roster) && h in s.handlers && s.handlers[h].Scanning? && e in roster
    requires Capped(s, most, e) && |Picking(s.handlers)| <= most
    ensures Capped(ReadStep(roster, s, h), most, e)
  {
    var p := s.handlers[h];
    if p.next < |roster| && e.capacity > 0 {
      var q := ReadStep(roster, s, h).handlers[h];
      var x := roster[p.next];
      if Considers(q, e.worker) && !Considers(p, e.worker) {
        var i :| 0 <= i < |q.best| && q.best[i].worker == e.worker;
        ScanConsiders(p.best, p.bestLoad, x, Load(s.counters, x.worker), i);
        assert x == e;
        PhaseChange(s.handlers, h, q, e.worker);
        assert h in Picking(s.handlers);
        assert Picking(s.handlers[h := q]) == Picking(s.handlers);
        NewContender(s, s.handlers[h := q], most, e);
      } else {
        NoNewContender(s, h, q, most, e);
      }
    }
  }

  lemma ReadKeeps(roster: seq<Entry>, most: nat, s: State, h: Id)
    requires Inv(roster, most, s) && OneEntryPerWorker(roster) && h in s.handlers && s.handlers[h].Scanning?
    ensures Inv(roster, most, ReadStep(roster, s, h))
  {
    var p, s' := s.handlers[h], ReadStep(roster, s, h);
    if p.next < |roster| {
      var q := s'.handlers[h];
      forall w ensures Holders(s'.handlers, w) == Holders(s.handlers, w) { PhaseChange(s.handlers, h, q, w); }
      PhaseChange(s.handlers, h, q, "");
      assert Picking(s'.handlers) == Picking(s.handlers);
      forall e | e in roster ensures Capped(s', most, e) {
        assert Capped(s, most, e);
        ReadCapped(roster, most, s, h, e);
      }
      forall i | 0 <= i < |q.best| ensures q.best[i] in roster {
        ScanConsiders(p.best, p.bestLoad, roster[p.next], Load(s.counters, roster[p.next].worker), i);
      }
    }
  }

  lemma LeaveKeeps(roster: seq<Entry>, most: nat, s: State, h: Id)
    requires Inv(roster, most, s) && h in s.handlers && s.handlers[h].Scanning?
    ensures Inv(roster, most, s.(handlers := s.handlers - {h}))
  {
    var hs := s.handlers - {h};
    forall w ensures Contenders(hs, w) <= Contenders(s.handlers, w) && Holders(hs, w) == Holders(s.handlers, w) {
      Leaves(s.handlers, h, w);
    }
    Leaves(s.handlers, h, "");
    SubsetSize(Picking(hs), Picking(s.handlers));
    FewerKeeps(roster, most, s, hs);
  }

  lemma ChosenKeeps(roster: seq<Entry>, most: nat, s: State, h: Id, w: Worker)
    requires Inv(roster, most, s) && h in s.handlers && s.handlers[h].Scanning? && Considers(s.handlers[h], w)
    ensures Inv(roster, most, s.(handlers := s.handlers[h := Chosen(w)]))
  {
    var hs := s.handlers[h := Chosen(w)];
    forall v ensures Contenders(hs, v) <= Contenders(s.handlers, v) && Holders(hs, v) == Holders(s.handlers, v) {
      PhaseChange(s.handlers, h, Chosen(w), v);
      assert v == w ==> h in Contenders(s.handlers, v);
    }
    PhaseChange(s.handlers, h, Chosen(w), w);
    assert h in Picking(s.handlers);
    assert Picking(hs) == Picking(s.handlers);
    FewerKeeps(roster, most, s, hs);
  }

  lemma ChooseKeeps(roster: seq<Entry>, most: nat, s: State, h: Id, choice: nat)
    requires Inv(roster, most, s) && h in s.handlers && s.handlers[h].Scanning?
    ensures Inv(roster, most, ChooseStep(roster, s, h, choice))
  {
    var p := s.handlers[h];
    if p.next >= |roster| {
      if p.best == [] {
        LeaveKeeps(roster, most, s, h);
      } else {
        var i := choice % |p.best|;
        assert Considers(p, p.best[i].worker);
        ChosenKeeps(roster, most, s, h, p.best[i].worker);
      }
    }
  }

  lemma TakeCounted(s: State, h: Id, w: Worker)
    requires Counted(s) && h in s.handlers && s.handlers[h] == Chosen(w)
    ensures Counted(State(Incremented(s.counters, w), s.handlers[h := Holding(w)]))
  {
    var s' := State(Incremented(s.counters, w), s.handlers[h := Holding(w)]);
    forall v ensures Load(s'.counters, v) == |Holders(s'.handlers, v)| && (v in s'.counters ==> s'.counters[v] > 0) {
      PhaseChange(s.handlers, h, Holding(w), v);
      assert h !in Holders(s.handlers, v);
      assert Load(s.counters, v) == |Holders(s.handlers, v)|;
    }
  }

  lemma TakeCapped(most: nat, s: State, h: Id, w: Worker, e: Entry)
    requires Capped(s, most, e) && h in s.handlers && s.handlers[h] == Chosen(w)
    ensures Capped(State(Incremented(s.counters, w), s.handlers[h := Holding(w)]), most, e)
  {
    PhaseChange(s.handlers, h, Holding(w), e.worker);
    assert h in Contenders(s.handlers, e.worker) <==> e.worker == w;
  }

  /** Acquiring turns a contender into load: the sum does not change. */
  lemma TakeKeeps(roster: seq<Entry>, most: nat, s: State, h: Id)
    requires Inv(roster, most, s) && h in s.handlers && s.handlers[h].Chosen?
    ensures Inv(roster, most, Step(roster, most, s, TakeGuard(h)))
  {
    var w := s.handlers[h].worker;
    var s' := Step(roster, most, s, TakeGuard(h));
    TakeCounted(s, h, w);
    PhaseChange(s.handlers, h, Holding(w), w);
    SubsetSize(Picking(s'.handlers), Picking(s.handlers));
    forall e | e in roster ensures Capped(s', most, e) { TakeCapped(most, s, h, w, e); }
  }

  lemma DropKeeps(roster: seq<Entry>, most: nat, s: State, h: Id)
    requires Inv(roster, most, s) && h in s.handlers && s.handlers[h].Holding?
    ensures Inv(roster, most, Step(roster, most, s, DropGuard(h)))
  {
    var w := s.handlers[h].worker;
    var s' := Step(roster, most, s, DropGuard(h));
    forall v ensures Load(s'.counters, v) == |Holders(s'.handlers, v)| && (v in s'.counters ==> s'.counters[v] > 0) {
      Leaves(s.handlers, h, v);
      assert h in Holders(s.handlers, v) <==> v == w;
      assert Load(s.counters, v) == |Holders(s.handlers, v)|;
    }
    Leaves(s.handlers, h, w);
    forall e | e in roster ensures Capped(s', most, e) {
      Leaves(s.handlers, h, e.worker);
      assert Capped(s, most, e);
      assert h !in Contenders(s.handlers, e.worker);
    }
  }

  lemma StepKeeps(roster: seq<Entry>, most: nat, s: State, a: Action)
    requires Inv(roster, most, s) && OneEntryPerWorker(roster)
    ensures Inv(roster, most, Step(roster, most, s, a))
  {
    match a
    case Arrive(h) => if h !in s.handlers && |Picking(s.handlers)| < most { ArriveKeeps(roster, most, s, h); }
    case ReadLoad(h) => if h in s.handlers && s.handlers[h].Scanning? { ReadKeeps(roster, most, s, h); }
    case Choose(h, choice) => if h in s.handlers && s.handlers[h].Scanning? { ChooseKeeps(roster, most, s, h, choice); }
    case TakeGuard(h) => if h in s.handlers && s.handlers[h].Chosen? { TakeKeeps(roster, most, s, h); }
    case DropGuard(h) => if h in s.handlers && s.handlers[h].Holding? { DropKeeps(roster, most, s, h); }
  }

  lemma {:induction false} RunKeeps(roster: seq<Entry>, most: nat, s: State, actions: seq<Action>)
    requires Inv(roster, most, s) && OneEntryPerWorker(roster)
    ensures Inv(roster, most, Run(roster, most, s, actions))
    decreases |actions|
  {
    if actions != [] {
      StepKeeps(roster, most, s, actions[0]);
      RunKeeps(roster, most, Step(roster, most, s, actions[0]), actions[1..]);
    }
  }

  /** Over every interleaving a worker's counter is its number of live guards, and with at most `most`
      handlers between pick and acquire a capped worker is never loaded beyond capacity + most - 1. */
  lemma LoadBounded(roster: seq<Entry>, most: nat, actions: seq<Action>, e: Entry)
    requires OneEntryPerWorker(roster) && e in roster && most > 0
    ensures var s := Run(roster, most, START, actions);
      && Load(s.counters, e.worker) == |Holders(s.handlers, e.worker)|
      && (e.capacity > 0 ==> |Holders(s.handlers, e.worker)| <= e.capacity + most - 1)
  {
    assert Inv(roster, most, START);
    RunKeeps(roster, most, START, actions);
    assert Capped(Run(roster, most, START, actions), most, e);
  }

  // ---- the bound is attained ---------------------------------------------------------------------------

  lemma {:induction false} RunAppend(roster: seq<Entry>, most: nat, s: State, first: seq<Action>, second: seq<Action>)
    ensures Run(roster, most, s, first + second) == Run(roster, most, Run(roster, most, s, first), second)
    decreases |first|
  {
    if first == [] {
      assert first + second == second;
    } else {
      assert (first + second)[1..] == first[1..] + second;
      RunAppend(roster, most, Step(roster, most, s, first[0]), first[1..], second);
    }
  }

  lemma RunTwo(roster: seq<Entry>, most: nat, s: State, a: Action, b: Action)
    ensures Run(roster, most, s, [a, b]) == Step(roster, most, Step(roster, most, s, a), b)
  {
    var s1 := Step(roster, most, s, a);
    assert [a, b][1..] == [b] && [b][1..] == [];
    assert Run(roster, most, s1, [b]) == Run(roster, most, Step(roster, most, s1, b), []);
  }

  /** `held` guards on the worker; `waiting` further handlers, numbered on from there, have all read the
      load `seen`. */
  ghost predicate Crowd(s: State, e: Entry, held: nat, waiting: nat, seen: int)
  {
    && Load(s.counters, e.worker) == held && |Holders(s.handlers, e.worker)| == held
    && |Picking(s.handlers)| == waiting
    && (forall h :: h in s.handlers ==> h < held + waiting)
    && (forall h :: held <= h < held + waiting ==> h in s.handlers && s.handlers[h] == Scanning(1, [e], seen))
  }

  /** A handler arrives. */
  lemma Arrives(e: Entry, most: nat, s: State, held: nat, waiting: nat, h: Id)
    requires Crowd(s, e, held, waiting, held) && waiting < most && h == held + waiting
    ensures var s' := Step([e], most, s, Arrive(h));
      && s' == s.(handlers := s.handlers[h := Scanning(0, [], I32_MAX)])
      && |Picking(s'.handlers)| == waiting + 1 && Holders(s'.handlers, e.worker) == Holders(s.handlers, e.worker)
  {
    PhaseChange(s.handlers, h, Scanning(0, [], I32_MAX), e.worker);
    assert h !in s.handlers;
  }

  lemma Reads(e: Entry, most: nat, s: State, held: nat, h: Id)
    requires h in s.handlers && s.handlers[h] == Scanning(0, [], I32_MAX)
    requires Load(s.counters, e.worker) == held && held < e.capacity <= I32_MAX
    ensures var t := Step([e], most, s, ReadLoad(h));
      && t == s.(handlers := s.handlers[h := Scanning(1, [e], held)])
      && Picking(t.handlers) == Picking(s.handlers) && Holders(t.handlers, e.worker) == Holders(s.handlers, e.worker)
  {
    PhaseChange(s.handlers, h, Scanning(1, [e], held), e.worker);
    assert h in Picking(s.handlers);
  }

  lemma OneMore(e: Entry, s: State, t: State, held: nat, waiting: nat, h: Id)
    requires Crowd(s, e, held, waiting, held) && h == held + waiting && t.counters == s.counters
    requires t.handlers == s.handlers[h := Scanning(1, [e], held)]
    requires |Picking(t.handlers)| == waiting + 1 && Holders(t.handlers, e.worker) == Holders(s.handlers, e.worker)
    ensures Crowd(t, e, held, waiting + 1, held)
  {
  }

  /** It reads while there is room. */
  lemma Joins(e: Entry, most: nat, s: State, held: nat, waiting: nat) returns (t: State)
    requires Crowd(s, e, held, waiting, held) && held < e.capacity <= I32_MAX && waiting < most
    ensures t == Run([e], most, s, [Arrive(held + waiting), ReadLoad(held + waiting)])
    ensures Crowd(t, e, held, waiting + 1, held)
  {
    var h := held + waiting;
    Arrives(e, most, s, held, waiting, h);
    var s1 := Step([e], most, s, Arrive(h));
    Reads(e, most, s1, held, h);
    t := Step([e], most, s1, ReadLoad(h));
    OneMore(e, s, t, held, waiting, h);
    RunTwo([e], most, s, Arrive(h), ReadLoad(h));
  }

  /** The first of those who have read chooses the worker and takes a guard. */
  lemma Takes(e: Entry, most: nat, s: State, held: nat, waiting: nat, seen: int) returns (t: State)
    requires Crowd(s, e, held, waiting + 1, seen)
    ensures t == Run([e], most, s, [Choose(held, 0), TakeGuard(held)])
    ensures Crowd(t, e, held + 1, waiting, seen)
  {
    assert held in s.handlers && s.handlers[held] == Scanning(1, [e], seen);
    var s1 := Step([e], most, s, Choose(held, 0));
    assert s1 == s.(handlers := s.handlers[held := Chosen(e.worker)]);
    t := Step([e], most, s1, TakeGuard(held));
    assert t.handlers == s.handlers[held := Holding(e.worker)];
    PhaseChange(s.handlers, held, Holding(e.worker), e.worker);
    assert held in Picking(s.handlers) && held !in Holders(s.handlers, e.worker);
    RunTwo([e], most, s, Choose(held, 0), TakeGuard(held));
  }

  lemma {:induction false} AllJoin(e: Entry, most: nat, s: State, held: nat, n: nat)
    returns (actions: seq<Action>, t: State)
    requires Crowd(s, e, held, 0, held) && held < e.capacity <= I32_MAX && n <= most
    ensures t == Run([e], most, s, actions) && Crowd(t, e, held, n, held)
    decreases n
  {
    if n == 0 {
      actions, t := [], s;
    } else {
      var first, m := AllJoin(e, most, s, held, n - 1);
      t := Joins(e, most, m, held, n - 1);
      RunAppend([e], most, s, first, [Arrive(held + (n - 1)), ReadLoad(held + (n - 1))]);
      actions := first + [Arrive(held + (n - 1)), ReadLoad(held + (n - 1))];
    }
  }

  lemma {:induction false} AllTake(e: Entry, most: nat, s: State, held: nat, n: nat, seen: int)
    returns (actions: seq<Action>, t: State)
    requires Crowd(s, e, held, n, seen)
    ensures t == Run([e], most, s, actions) && Crowd(t, e, held + n, 0, seen)
    decreases n
  {
    if n == 0 {
      actions, t := [], s;
    } else {
      var m := Takes(e, most, s, held, n - 1, seen);
      var rest;
      rest, t := AllTake(e, most, m, held + 1, n - 1, seen);
      RunAppend([e], most, s, [Choose(held, 0), TakeGuard(held)], rest);
      actions := [Choose(held, 0), TakeGuard(held)] + rest;
    }
  }

  /** n handlers read while `held` guards are out, and then all take theirs. */
  lemma Wave(e: Entry, most: nat, s: State, held: nat, n: nat) returns (actions: seq<Action>, t: State)
    requires Crowd(s, e, held, 0, held) && held < e.capacity <= I32_MAX && n <= most
    ensures t == Run([e], most, s, actions) && Crowd(t, e, held + n, 0, held)
  {
    var joins, m := AllJoin(e, most, s, held, n);
    var takes;
    takes, t := AllTake(e, most, m, held, n, held);
    RunAppend([e], most, s, joins, takes);
    actions := joins + takes;
  }

  /** Handlers one after the other fill the worker. */
  lemma {:induction false} Fill(e: Entry, most: nat, n: nat) returns (actions: seq<Action>, t: State)
    requires n <= e.capacity <= I32_MAX && most > 0
    ensures t == Run([e], most, START, actions) && Crowd(t, e, n, 0, n)
    decreases n
  {
    if n == 0 {
      actions, t := [], START;
      assert Holders(map[], e.worker) == {} && Picking(map[]) == {};
    } else {
      var before, m := Fill(e, most, n - 1);
      var wave;
      wave, t := Wave(e, most, m, n - 1, 1);
      RunAppend([e], most, START, before, wave);
      actions := before + wave;
    }
  }

  /** For every capacity and every bound on concurrent picks there is an interleaving that loads a worker
      with capacity + most - 1 guards: everybody reads while one place is left. */
  lemma BoundAttained(e: Entry, most: nat) returns (actions: seq<Action>)
    requires 0 < e.capacity <= I32_MAX && most > 0
    ensures |Holders(Run([e], most, START, actions).handlers, e.worker)| == e.capacity + most - 1
  {
    var before, m := Fill(e, most, e.capacity - 1);
    var wave, t := Wave(e, most, m, e.capacity - 1, most);
    RunAppend([e], most, START, before, wave);
    actions := before + wave;
  }
}
