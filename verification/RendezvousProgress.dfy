/** Progress of the rendezvous: an owner left undisturbed is served, or refused because of a collision. */
module RendezvousProgress {
  import opened Rendezvous

  /** How many steps an owner may still need for its answer; its name may be written one byte at a time. */
  function Rank(w: World, p: Pid): nat
    requires p in w.procs
  {
    var length := |w.procs[p].name|;
    match w.procs[p].pc
    case Starting => 15 + length
    case StatSocket => 14 + length
    case StatSentinel(_) => 13 + length
    case CreateTemp => 12 + length
    case WriteTemp(temp) => if temp in w.files && |w.files[temp]| <= length then 11 + length - |w.files[temp]| else 0
    case DiscardTemp(_, _) => 10
    case ReadSentinel => 9
    case CompareName(_) => 8
    case ProbeSocket => 7
    case ConnectSocket => 6
    case StatStale => 5
    case UnlinkStale => 4
    case BindSocket => 3
    case ListenSocket(_) => 2
    case RecordSocket(_) => 1
    case _ => 0
  }

  /** An owner before its answer, which has its lock or can take it. */
  predicate Asking(w: World, p: Pid) {
    && p in w.procs && Rank(w, p) > 0
    && (w.procs[p].pc.Starting? ==> w.procs[p].name !in w.locks)
  }

  predicate Answered(w: World, p: Pid) {
    p in w.procs && (w.procs[p].pc.Serving? || w.procs[p].pc.Refused?)
  }

  /** No other session's name stands in the sentinel of this name's hash. */
  predicate Uncontested(w: World, hash: Hash, name: Name) {
    hash in w.sentinels ==> SentinelIs(w, hash, name)
  }

  /** A schedule in which only the owner moves, until it has its answer at the latest. */
  ghost predicate Alone(h: Name -> Hash, w: World, p: Pid, choices: seq<nat>)
    decreases |choices|
  {
    choices == []
    || (Asking(w, p) && Enabled(h, w, Advance(p, choices[0]))
        && Alone(h, Next(h, w, Advance(p, choices[0])), p, choices[1..]))
  }

  ghost function EndOf(h: Name -> Hash, w: World, p: Pid, choices: seq<nat>): World
    requires Alone(h, w, p, choices)
    decreases |choices|
  {
    if choices == [] then w else EndOf(h, Next(h, w, Advance(p, choices[0])), p, choices[1..])
  }

  lemma {:induction false} Above(s: set<nat>) returns (top: nat)
    ensures forall x :: x in s ==> x < top
  {
    if s == {} {
      top := 0;
    } else {
      var x :| x in s;
      var rest := Above(s - {x});
      top := if x < rest then rest else x + 1;
      assert forall y :: y in s ==> y == x || y in s - {x};
    }
  }

  /** A new inode is always to be had. */
  lemma SomeInode(w: World) returns (i: Inode)
    ensures FreshInode(w, i)
  {
    var used := w.files.Keys + w.listening.Keys + w.sockets.Values + w.temps;
    i := Above(used);
    assert i !in used;
  }

  lemma Choice(h: Name -> Hash, w: World, p: Pid) returns (choice: nat)
    requires Invariant(h, w) && Asking(w, p)
    ensures Enabled(h, w, Advance(p, choice))
  {
    assert ProcessOk(h, w, p);
    var pc, name := w.procs[p].pc, w.procs[p].name;
    if pc.WriteTemp? {
      choice := |name|;
      assert |w.files[pc.temp]| == |name| ==> w.files[pc.temp] == name;
    } else {
      choice := SomeInode(w);
    }
  }

  /** The step leaves the owner nearer to its answer. */
  ghost predicate Nearer(w: World, v: World, p: Pid)
    requires p in w.procs
  {
    && p in v.procs && v.procs[p].name == w.procs[p].name && Rank(v, p) < Rank(w, p)
    && (Asking(v, p) || Answered(v, p))
  }

  lemma PublishNearer(h: Name -> Hash, w: World, p: Pid, choice: nat)
    requires p in w.procs && ProcessOk(h, w, p) && Publishing(w.procs[p].pc)
    requires Enabled(h, w, Advance(p, choice))
    ensures Nearer(w, PublishStep(h, w, p, choice), p)
  {
    assert w.procs[p].name[..|w.procs[p].name|] == w.procs[p].name;
  }

  lemma ProbeNearer(h: Name -> Hash, w: World, p: Pid)
    requires p in w.procs && ProcessOk(h, w, p) && Probing(w.procs[p].pc)
    ensures Nearer(w, ProbeStep(h, w, p), p)
  {
  }

  lemma OwnNearer(h: Name -> Hash, w: World, p: Pid, choice: nat)
    requires p in w.procs && ProcessOk(h, w, p)
             && (w.procs[p].pc.BindSocket? || w.procs[p].pc.ListenSocket? || w.procs[p].pc.RecordSocket?)
    ensures Nearer(w, OwnStep(h, w, p, choice), p)
  {
  }

  lemma FrontNearer(h: Name -> Hash, w: World, p: Pid)
    requires Asking(w, p) && ProcessOk(h, w, p)
    requires !Publishing(w.procs[p].pc) && !Probing(w.procs[p].pc) && !Owning(w.procs[p].pc)
    ensures Nearer(w, FrontStep(h, w, p), p)
  {
  }

  /** Every step of an asking owner brings it nearer to its answer. */
  lemma StepAdvances(h: Name -> Hash, w: World, p: Pid, choice: nat)
    requires Invariant(h, w) && Asking(w, p) && Enabled(h, w, Advance(p, choice))
    ensures Nearer(w, Next(h, w, Advance(p, choice)), p)
  {
    assert ProcessOk(h, w, p);
    var pc := w.procs[p].pc;
    if Publishing(pc) { PublishNearer(h, w, p, choice); }
    else if Probing(pc) { ProbeNearer(h, w, p); }
    else if Owning(pc) { OwnNearer(h, w, p, choice); }
    else { FrontNearer(h, w, p); }
  }

  lemma StepKeepsContest(h: Name -> Hash, w: World, p: Pid, choice: nat)
    requires Invariant(h, w) && Asking(w, p) && Enabled(h, w, Advance(p, choice))
    ensures var v, name := Next(h, w, Advance(p, choice)), w.procs[p].name;
            Uncontested(v, h(name), name) <==> Uncontested(w, h(name), name)
  {
    assert ProcessOk(h, w, p);
    var name := w.procs[p].name;
    StepKeepsSentinel(h, w, Advance(p, choice), h(name));
    if h(name) in w.sentinels { assert SentinelOk(h, w, h(name)); }
  }

  /**
   * Every schedule of an owner running alone from a reachable world is short, never gets stuck before the answer, and
   * ends, if it ends in an answer, in service exactly when the sentinel is not another session's.
   */
  lemma {:induction false} EveryScheduleAnswers(h: Name -> Hash, w: World, p: Pid, choices: seq<nat>)
    requires Invariant(h, w) && (Asking(w, p) || Answered(w, p)) && Alone(h, w, p, choices)
    ensures var v, name := EndOf(h, w, p, choices), w.procs[p].name;
            && p in v.procs && v.procs[p].name == name && |choices| + Rank(v, p) <= Rank(w, p) <= 15 + |name|
            && (Asking(v, p) || Answered(v, p))
            && (Asking(v, p) ==> exists choice :: Enabled(h, v, Advance(p, choice)))
            && (Answered(v, p) ==> (v.procs[p].pc.Serving? <==> Uncontested(w, h(name), name)))
            && (v.procs[p].pc.Refused? ==> v.procs[p].pc.reason.Collision?)
    decreases |choices|
  {
    assert ProcessOk(h, w, p);
    if choices == [] {
      if Asking(w, p) { var choice := Choice(h, w, p); }
    } else {
      StepAdvances(h, w, p, choices[0]);
      StepKeepsContest(h, w, p, choices[0]);
      StepKeeps(h, w, Advance(p, choices[0]));
      EveryScheduleAnswers(h, Next(h, w, Advance(p, choices[0])), p, choices[1..]);
    }
  }

  /** From any reachable world, an owner whose lock is free or its own can have its answer by running alone. */
  lemma {:induction false} OwnerIsAnswered(h: Name -> Hash, w: World, p: Pid) returns (choices: seq<nat>)
    requires Invariant(h, w) && (Asking(w, p) || Answered(w, p))
    ensures Alone(h, w, p, choices) && Answered(EndOf(h, w, p, choices), p)
    decreases Rank(w, p)
  {
    if Answered(w, p) {
      choices := [];
    } else {
      var choice := Choice(h, w, p);
      StepAdvances(h, w, p, choice);
      StepKeeps(h, w, Advance(p, choice));
      var rest := OwnerIsAnswered(h, Next(h, w, Advance(p, choice)), p);
      choices := [choice] + rest;
      assert choices[1..] == rest;
    }
  }

  /** In particular the protocol does serve: a first owner starts, runs alone, and is bound at its path. */
  lemma FirstOwnerServes(h: Name -> Hash, p: Pid, name: Name) returns (choices: seq<nat>)
    ensures var w := Next(h, EMPTY, Spawn(p, name, false));
            && Alone(h, w, p, choices) && p in EndOf(h, w, p, choices).procs
            && EndOf(h, w, p, choices).procs[p].pc.Serving?
  {
    RunKeeps(h, [EMPTY], [], 0);
    StepKeeps(h, EMPTY, Spawn(p, name, false));
    var w := Next(h, EMPTY, Spawn(p, name, false));
    choices := OwnerIsAnswered(h, w, p);
    EveryScheduleAnswers(h, w, p, choices);
  }
}
