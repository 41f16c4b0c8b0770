/** What the processes of the rendezvous are certain of while any others interleave with them. */
module RendezvousClients {
  import opened Types
  import opened Rendezvous
  import opened RendezvousProgress

  // ----- single steps of a client

  /** The answer of a client's read: available exactly when the sentinel holds its name, else the name found instead. */
  lemma ReadAnswers(h: Name -> Hash, ws: seq<World>, actions: seq<Action>, i: nat, p: Pid, choice: nat)
    requires IsRun(h, ws, actions) && i < |actions| && actions[i] == Advance(p, choice)
    requires p in ws[i].procs && ws[i].procs[p].pc.ClientRead?
    ensures var name := ws[i].procs[p].name;
            && p in ws[i + 1].procs && ws[i + 1].procs[p].name == name
            && (ws[i + 1].procs[p].pc.ClientAvailable? <==> SentinelIs(ws[i], h(name), name))
            && (!SentinelIs(ws[i], h(name), name)
                ==> exists found :: found != name && SentinelIs(ws[i], h(name), found)
                      && ws[i + 1].procs[p].pc == ClientRefused(SentinelMismatch(found)))
  {
    RunKeeps(h, ws, actions, i);
    var w, name := ws[i], ws[i].procs[p].name;
    assert Next(h, w, actions[i]) == ws[i + 1];
    assert ProcessOk(h, w, p);
    assert SentinelOk(h, w, h(name));
    assert SentinelIs(w, h(name), w.files[w.sentinels[h(name)]]);
  }

  /** A client's first look refuses it exactly when there is no sentinel. */
  lemma StatAnswers(h: Name -> Hash, ws: seq<World>, actions: seq<Action>, i: nat, p: Pid, choice: nat)
    requires IsRun(h, ws, actions) && i < |actions| && actions[i] == Advance(p, choice)
    requires p in ws[i].procs && ws[i].procs[p].pc.ClientStat?
    ensures p in ws[i + 1].procs && ws[i + 1].procs[p].name == ws[i].procs[p].name
    ensures ws[i + 1].procs[p].pc
            == if h(ws[i].procs[p].name) in ws[i].sentinels then ClientRead else ClientRefused(SentinelAbsent)
  {
    assert Next(h, ws[i], actions[i]) == ws[i + 1];
  }

  // ----- a client under any interleaving

  predicate IsClient(pc: Pc) { pc.ClientStat? || pc.ClientRead? || pc.ClientAvailable? || pc.ClientRefused? }

  /** How many steps of its own a client still needs. */
  function ClientSteps(pc: Pc): nat {
    if pc.ClientStat? then 2 else if pc.ClientRead? then 1 else 0
  }

  /** The process lives from world `i` to world `j`. */
  predicate LivesThrough(ws: seq<World>, i: nat, j: nat, p: Pid) {
    i <= j < |ws| && forall k :: i <= k <= j ==> p in ws[k].procs
  }

  /** The steps that the process takes itself between world `i` and world `j`. */
  function OwnSteps(actions: seq<Action>, i: nat, j: nat, p: Pid): nat
    requires i <= j <= |actions|
    decreases j
  {
    if i == j then 0
    else OwnSteps(actions, i, j - 1, p) + if actions[j - 1].Advance? && actions[j - 1].pid == p then 1 else 0
  }

  /** Between two worlds in which the process lives, it was moved by its own step, closed, or left as it was. */
  lemma OneStep(h: Name -> Hash, ws: seq<World>, actions: seq<Action>, i: nat, p: Pid)
    requires IsRun(h, ws, actions) && i < |actions| && p in ws[i].procs && p in ws[i + 1].procs
    ensures actions[i].pid == p ==> actions[i].Advance? || (actions[i].Close? && ws[i].procs[p].pc.Serving?)
    ensures actions[i].pid != p ==> ws[i + 1].procs[p] == ws[i].procs[p]
    ensures Enabled(h, ws[i], actions[i]) && Next(h, ws[i], actions[i]) == ws[i + 1]
  {
    assert Next(h, ws[i], actions[i]) == ws[i + 1];
    if actions[i].pid != p { OthersStand(h, ws[i], actions[i], p); }
  }

  /** The client of a published session: not refused, and nearer to its endpoint by each of its own steps. */
  ghost predicate OnItsWay(ws: seq<World>, actions: seq<Action>, i: nat, j: nat, p: Pid)
    requires i <= j < |ws| && |ws| == |actions| + 1 && p in ws[i].procs && p in ws[j].procs
  {
    && ws[j].procs[p].name == ws[i].procs[p].name && IsClient(ws[j].procs[p].pc) && !ws[j].procs[p].pc.ClientRefused?
    && ClientSteps(ws[j].procs[p].pc) + OwnSteps(actions, i, j, p) == ClientSteps(ws[i].procs[p].pc)
  }

  lemma ClientMoves(h: Name -> Hash, ws: seq<World>, actions: seq<Action>, i: nat, p: Pid)
    requires IsRun(h, ws, actions) && i < |actions| && p in ws[i].procs && p in ws[i + 1].procs
    requires IsClient(ws[i].procs[p].pc) && !ws[i].procs[p].pc.ClientRefused?
    requires SentinelIs(ws[i], h(ws[i].procs[p].name), ws[i].procs[p].name)
    ensures OnItsWay(ws, actions, i, i + 1, p)
  {
    OneStep(h, ws, actions, i, p);
    assert OwnSteps(actions, i, i + 1, p)
           == OwnSteps(actions, i, i, p) + if actions[i].Advance? && actions[i].pid == p then 1 else 0;
    if actions[i].pid == p {
      var w := ws[i];
      if w.procs[p].pc.ClientRead? { ReadAnswers(h, ws, actions, i, p, actions[i].choice); }
      if w.procs[p].pc.ClientStat? { StatAnswers(h, ws, actions, i, p, actions[i].choice); }
    }
  }

  lemma WayExtends(ws: seq<World>, actions: seq<Action>, i: nat, j: nat, p: Pid)
    requires i <= j < |actions| && |ws| == |actions| + 1
    requires p in ws[i].procs && p in ws[j].procs && p in ws[j + 1].procs
    requires OnItsWay(ws, actions, i, j, p) && OnItsWay(ws, actions, j, j + 1, p)
    ensures OnItsWay(ws, actions, i, j + 1, p)
  {
    assert OwnSteps(actions, j, j + 1, p)
           == OwnSteps(actions, j, j, p) + if actions[j].Advance? && actions[j].pid == p then 1 else 0;
  }

  lemma ClientKeepsOnOnce(h: Name -> Hash, ws: seq<World>, actions: seq<Action>, i: nat, k: nat, p: Pid)
    requires IsRun(h, ws, actions) && i <= k < |actions|
    requires p in ws[i].procs && p in ws[k].procs && p in ws[k + 1].procs
    requires SentinelIs(ws[i], h(ws[i].procs[p].name), ws[i].procs[p].name) && OnItsWay(ws, actions, i, k, p)
    ensures OnItsWay(ws, actions, i, k + 1, p)
  {
    SentinelsNeverChange(h, ws, actions, i, k, h(ws[i].procs[p].name));
    ClientMoves(h, ws, actions, k, p);
    WayExtends(ws, actions, i, k, p);
  }

  lemma WayStarts(ws: seq<World>, actions: seq<Action>, i: nat, p: Pid)
    requires |ws| == |actions| + 1 && i < |ws| && p in ws[i].procs
    requires IsClient(ws[i].procs[p].pc) && !ws[i].procs[p].pc.ClientRefused?
    ensures OnItsWay(ws, actions, i, i, p)
  {
  }

  /** Where the client is on its way, it still is one world later. */
  ghost predicate WayGoesOn(ws: seq<World>, actions: seq<Action>, i: nat, k: nat, p: Pid)
    requires i <= k < |actions| && |ws| == |actions| + 1
    requires p in ws[i].procs && p in ws[k].procs && p in ws[k + 1].procs
  {
    OnItsWay(ws, actions, i, k, p) ==> OnItsWay(ws, actions, i, k + 1, p)
  }

  lemma {:induction false} WholeWay(ws: seq<World>, actions: seq<Action>, i: nat, j: nat, p: Pid)
    requires |ws| == |actions| + 1 && LivesThrough(ws, i, j, p) && OnItsWay(ws, actions, i, i, p)
    requires forall k {:trigger WayGoesOn(ws, actions, i, k, p)} :: i <= k < j ==> WayGoesOn(ws, actions, i, k, p)
    ensures OnItsWay(ws, actions, i, j, p)
    decreases j
  {
    if i < j {
      WholeWay(ws, actions, i, j - 1, p);
      assert WayGoesOn(ws, actions, i, j - 1, p);
    }
  }

  lemma ClientKeepsOn(h: Name -> Hash, ws: seq<World>, actions: seq<Action>, i: nat, j: nat, p: Pid)
    requires IsRun(h, ws, actions) && LivesThrough(ws, i, j, p)
    requires IsClient(ws[i].procs[p].pc) && !ws[i].procs[p].pc.ClientRefused?
    requires SentinelIs(ws[i], h(ws[i].procs[p].name), ws[i].procs[p].name)
    ensures OnItsWay(ws, actions, i, j, p)
  {
    forall k | i <= k < j ensures WayGoesOn(ws, actions, i, k, p) {
      if OnItsWay(ws, actions, i, k, p) { ClientKeepsOnOnce(h, ws, actions, i, k, p); }
    }
    WholeWay(ws, actions, i, j, p);
  }

  /**
   * Once the sentinel of its hash holds its name, a client is never refused, whoever else moves: it is available after
   * two steps of its own, each of which it can always take.
   */
  lemma ClientsResolve(h: Name -> Hash, ws: seq<World>, actions: seq<Action>, i: nat, j: nat, p: Pid)
    requires IsRun(h, ws, actions) && LivesThrough(ws, i, j, p)
    requires IsClient(ws[i].procs[p].pc) && !ws[i].procs[p].pc.ClientRefused?
    requires SentinelIs(ws[i], h(ws[i].procs[p].name), ws[i].procs[p].name)
    ensures ws[j].procs[p].name == ws[i].procs[p].name && IsClient(ws[j].procs[p].pc)
            && !ws[j].procs[p].pc.ClientRefused?
    ensures ws[j].procs[p].pc.ClientAvailable? <==> OwnSteps(actions, i, j, p) == ClientSteps(ws[i].procs[p].pc)
    ensures !ws[j].procs[p].pc.ClientAvailable? ==> Enabled(h, ws[j], Advance(p, 0))
  {
    ClientKeepsOn(h, ws, actions, i, j, p);
  }

  /** In particular beside a bound owner of the client's session. */
  lemma ClientsOfOwnersResolve(h: Name -> Hash, ws: seq<World>, actions: seq<Action>, i: nat, j: nat, p: Pid,
                               owner: Pid)
    requires IsRun(h, ws, actions) && LivesThrough(ws, i, j, p) && ws[i].procs[p].pc.ClientStat?
    requires BoundHere(ws[i], owner) && ws[i].procs[owner].name == ws[i].procs[p].name
    ensures !ws[j].procs[p].pc.ClientRefused?
    ensures ws[j].procs[p].pc.ClientAvailable? <==> OwnSteps(actions, i, j, p) == 2
  {
    OneOwnerPerPath(h, ws, actions, i, owner, owner);
    ClientsResolve(h, ws, actions, i, j, p);
  }

  /** A client that is told of another name is told the truth, now and later. */
  lemma MismatchIsTrue(h: Name -> Hash, ws: seq<World>, actions: seq<Action>, i: nat, j: nat, p: Pid, found: Name)
    requires IsRun(h, ws, actions) && i <= j < |ws| && p in ws[i].procs
    requires ws[i].procs[p].pc == ClientRefused(SentinelMismatch(found))
    ensures var name := ws[i].procs[p].name;
            found != name && h(found) == h(name) && SentinelIs(ws[j], h(name), found)
  {
    RunKeeps(h, ws, actions, i);
    assert ProcessOk(h, ws[i], p);
    assert SentinelOk(h, ws[i], h(ws[i].procs[p].name));
    SentinelsNeverChange(h, ws, actions, i, j, h(ws[i].procs[p].name));
  }

  // ----- owners under any interleaving

  lemma OthersKeepTemp(h: Name -> Hash, w: World, a: Action, p: Pid, temp: Inode)
    requires Invariant(h, w) && Enabled(h, w, a) && p in w.procs && a.pid != p && TempOf(w.procs[p].pc) == Some(temp)
    ensures temp in w.files && temp in Next(h, w, a).files && Next(h, w, a).files[temp] == w.files[temp]
  {
    assert ProcessOk(h, w, p);
    if a.Advance? {
      assert TempsApart(w, a.pid, p);
      ProbeKeepsFiles(h, w, a.pid);
      OwnKeepsFiles(h, w, a.pid, a.choice);
      FrontKeepsTables(h, w, a.pid);
    }
  }

  /** Another process's step leaves an owner exactly as far from its answer as it was. */
  lemma OthersLeaveRank(h: Name -> Hash, w: World, a: Action, p: Pid)
    requires Invariant(h, w) && Enabled(h, w, a) && p in w.procs && a.pid != p
    ensures p in Next(h, w, a).procs && Next(h, w, a).procs[p] == w.procs[p] && Rank(Next(h, w, a), p) == Rank(w, p)
  {
    OthersStand(h, w, a, p);
    if w.procs[p].pc.WriteTemp? { OthersKeepTemp(h, w, a, p, w.procs[p].pc.temp); }
  }

  /** An owner that has its lock and no answer yet. */
  predicate Underway(w: World, p: Pid) {
    p in w.procs && Rank(w, p) > 0 && !w.procs[p].pc.Starting?
  }

  /** An owner with its lock can always move, and each of its steps brings it nearer to service or to a collision. */
  lemma OwnersAdvance(h: Name -> Hash, ws: seq<World>, actions: seq<Action>, i: nat, p: Pid)
    requires IsRun(h, ws, actions) && i < |actions| && Underway(ws[i], p) && p in ws[i + 1].procs
    ensures exists choice :: Enabled(h, ws[i], Advance(p, choice))
    ensures Underway(ws[i + 1], p) || Answered(ws[i + 1], p)
    ensures if actions[i].pid == p then Rank(ws[i + 1], p) < Rank(ws[i], p) else Rank(ws[i + 1], p) == Rank(ws[i], p)
    ensures ws[i + 1].procs[p].pc.Refused? ==> ws[i + 1].procs[p].pc.reason.Collision?
  {
    RunKeeps(h, ws, actions, i);
    RunKeeps(h, ws, actions, i + 1);
    OneStep(h, ws, actions, i, p);
    var choice := Choice(h, ws[i], p);
    assert ProcessOk(h, ws[i + 1], p);
    if actions[i].pid == p {
      StepAdvances(h, ws[i], p, actions[i].choice);
      assert Rank(ws[i + 1], p) < Rank(ws[i], p) <= 14 + |ws[i].procs[p].name|;
    } else {
      OthersLeaveRank(h, ws[i], actions[i], p);
    }
  }

  /** An orderly shutdown takes two steps of the owner, whoever else moves, and then the path is free. */
  lemma ShutdownAdvances(h: Name -> Hash, ws: seq<World>, actions: seq<Action>, i: nat, p: Pid)
    requires IsRun(h, ws, actions) && i < |actions| && p in ws[i].procs && p in ws[i + 1].procs
    requires ws[i].procs[p].pc.StatOwned? || ws[i].procs[p].pc.UnlinkOwned?
    ensures Enabled(h, ws[i], Advance(p, 0))
    ensures if actions[i].pid != p then ws[i + 1].procs[p].pc == ws[i].procs[p].pc
            else if ws[i].procs[p].pc.StatOwned? then ws[i + 1].procs[p].pc.UnlinkOwned?
            else ws[i + 1].procs[p].pc.Released? && h(ws[i + 1].procs[p].name) !in ws[i + 1].sockets
  {
    RunKeeps(h, ws, actions, i);
    OneStep(h, ws, actions, i, p);
    assert ProcessOk(h, ws[i], p);
  }

  // ----- in any directory, whoever else writes to it

  /** The step writes no file, entry or socket. */
  predicate LeavesDirectory(w: World, v: World) {
    && v.files == w.files && v.temps == w.temps && v.sentinels == w.sentinels && v.sockets == w.sockets
    && v.listening == w.listening
  }

  /**
   * Whatever the directory holds, an owner that meets a socket without sentinel, another name, a live endpoint or an
   * occupied path is refused with that reason, and leaves the directory as it is; it serves under what is at its path.
   */
  lemma ForeignEntriesAreRefused(h: Name -> Hash, w: World, p: Pid, choice: nat)
    requires p in w.procs
    ensures var name, hash, pc := w.procs[p].name, h(w.procs[p].name), w.procs[p].pc;
            var v := AdvanceStep(h, w, p, choice);
            && (pc == StatSentinel(true) && hash !in w.sentinels
                ==> v.procs[p].pc == Refused(UnsafeOrphan) && LeavesDirectory(w, v))
            && (pc.CompareName? && pc.found != name
                ==> v.procs[p].pc == Refused(Collision(pc.found)) && LeavesDirectory(w, v))
            && (pc.ConnectSocket? && hash in w.sockets && w.sockets[hash] in w.listening
                ==> v.procs[p].pc == Refused(LiveEndpointUnderLock) && LeavesDirectory(w, v))
            && (pc.BindSocket? && hash in w.sockets
                ==> v.procs[p].pc == Refused(BindFailure) && LeavesDirectory(w, v))
            && (pc.RecordSocket?
                ==> v.procs[p].pc == if hash in w.sockets then Serving(pc.bound, w.sockets[hash])
                    else Refused(BindFailure))
            && (pc.ReadSentinel? && hash !in w.sentinels
                ==> v.procs[p].pc == Refused(SentinelUnreadable) && LeavesDirectory(w, v))
  {
  }

  /** An owner that shuts down leaves a socket alone that is not the one it recorded. */
  lemma ForeignSocketsAreLeft(h: Name -> Hash, w: World, p: Pid, choice: nat)
    requires p in w.procs && w.procs[p].pc.StatOwned?
    requires h(w.procs[p].name) in w.sockets ==> w.sockets[h(w.procs[p].name)] != w.procs[p].pc.recorded
    ensures AdvanceStep(h, w, p, choice).procs[p].pc == Released
    ensures LeavesDirectory(w, AdvanceStep(h, w, p, choice))
  {
  }

  predicate Removing(pc: Pc) { pc.StatStale? || pc.UnlinkStale? || pc.UnlinkOwned? }

  lemma PublishProvesNothing(h: Name -> Hash, w: World, p: Pid, choice: nat)
    requires p in w.procs && Publishing(w.procs[p].pc)
    ensures p in PublishStep(h, w, p, choice).procs && !Removing(PublishStep(h, w, p, choice).procs[p].pc)
  {
    var v := PublishStep(h, w, p, choice);
    match w.procs[p].pc {
      case CreateTemp => assert v.procs[p].pc == WriteTemp(choice);
      case WriteTemp(temp) =>
        assert v == w || v.procs[p].pc == WriteTemp(temp) || v.procs[p].pc.DiscardTemp?;
      case DiscardTemp(_, installed) =>
        assert v.procs[p].pc == if installed then CompareName(w.procs[p].name) else ReadSentinel;
    }
  }

  lemma FrontProvesNothing(h: Name -> Hash, w: World, p: Pid)
    requires p in w.procs && !Removing(w.procs[p].pc)
    ensures p in FrontStep(h, w, p).procs && !Removing(FrontStep(h, w, p).procs[p].pc)
  {
    var v := FrontStep(h, w, p);
    match w.procs[p].pc {
      case Starting => assert v.procs[p].pc == StatSocket;
      case StatSocket => assert v.procs[p].pc.StatSentinel?;
      case StatSentinel(_) => assert v.procs[p].pc.ReadSentinel? || v.procs[p].pc.Refused? || v.procs[p].pc.CreateTemp?;
      case ReadSentinel => assert v.procs[p].pc.CompareName? || v.procs[p].pc.Refused?;
      case CompareName(_) => assert v.procs[p].pc.ProbeSocket? || v.procs[p].pc.Refused?;
      case ClientStat => assert IsClient(v.procs[p].pc);
      case ClientRead => assert IsClient(v.procs[p].pc);
      case _ =>
    }
  }

  /** What the process has just found out about the entry, if its next step may lead to a removal. */
  ghost predicate Proven(w: World, hash: Hash, from: Pc, to: Pc) {
    match to
    case StatStale => from.ConnectSocket? && hash in w.sockets && w.sockets[hash] !in w.listening
    case UnlinkStale => from.StatStale?
    case UnlinkOwned(recorded) =>
      from == StatOwned(recorded) && hash in w.sockets && w.sockets[hash] == recorded
    case _ => true
  }

  lemma ProbeProves(h: Name -> Hash, w: World, p: Pid)
    requires p in w.procs && Probing(w.procs[p].pc)
    ensures p in ProbeStep(h, w, p).procs
    ensures Proven(w, h(w.procs[p].name), w.procs[p].pc, ProbeStep(h, w, p).procs[p].pc)
  {
    var v, hash := ProbeStep(h, w, p), h(w.procs[p].name);
    match w.procs[p].pc {
      case ProbeSocket => assert v.procs[p].pc == if hash in w.sockets then ConnectSocket else BindSocket;
      case ConnectSocket =>
        assert v.procs[p].pc.BindSocket? || v.procs[p].pc.Refused?
               || (v.procs[p].pc.StatStale? && hash in w.sockets && w.sockets[hash] !in w.listening);
      case StatStale => assert v.procs[p].pc == if hash in w.sockets then UnlinkStale else BindSocket;
      case UnlinkStale => assert v.procs[p].pc == BindSocket;
    }
  }

  lemma OwnProves(h: Name -> Hash, w: World, p: Pid, choice: nat)
    requires p in w.procs && Owning(w.procs[p].pc)
    ensures p in OwnStep(h, w, p, choice).procs
    ensures Proven(w, h(w.procs[p].name), w.procs[p].pc, OwnStep(h, w, p, choice).procs[p].pc)
  {
    var v, hash := OwnStep(h, w, p, choice), h(w.procs[p].name);
    match w.procs[p].pc {
      case BindSocket => assert v.procs[p].pc.Refused? || v.procs[p].pc.ListenSocket?;
      case ListenSocket(_) => assert v.procs[p].pc.RecordSocket?;
      case RecordSocket(_) => assert v.procs[p].pc.Serving? || v.procs[p].pc.Refused?;
      case StatOwned(recorded) =>
        assert v.procs[p].pc.Released?
               || (v.procs[p].pc == UnlinkOwned(recorded) && hash in w.sockets && w.sockets[hash] == recorded);
      case UnlinkOwned(_) => assert v.procs[p].pc.Released?;
    }
  }

  /**
   * A process comes to the removal of a socket only by steps that prove it may: a refused connection, and the entry
   * still there, or the entry still the owner's own.
   */
  lemma ProofsPrecedeRemovals(h: Name -> Hash, w: World, p: Pid, choice: nat)
    requires p in w.procs && p in AdvanceStep(h, w, p, choice).procs
    ensures Proven(w, h(w.procs[p].name), w.procs[p].pc, AdvanceStep(h, w, p, choice).procs[p].pc)
  {
    var pc := w.procs[p].pc;
    if Publishing(pc) { PublishProvesNothing(h, w, p, choice); }
    else if Probing(pc) { ProbeProves(h, w, p); }
    else if Owning(pc) { OwnProves(h, w, p, choice); }
    else if !pc.Refused? && !pc.Released? { FrontProvesNothing(h, w, p); }
  }

  lemma ProbeRemoves(h: Name -> Hash, w: World, p: Pid, hash: Hash)
    requires p in w.procs && hash in w.sockets && hash !in ProbeStep(h, w, p).sockets
    ensures hash == h(w.procs[p].name) && w.procs[p].pc.UnlinkStale?
  {
  }

  lemma OwnRemoves(h: Name -> Hash, w: World, p: Pid, choice: nat, hash: Hash)
    requires p in w.procs && hash in w.sockets && hash !in OwnStep(h, w, p, choice).sockets
    ensures hash == h(w.procs[p].name) && w.procs[p].pc.UnlinkOwned?
  {
  }

  /** And no other step removes a socket. */
  lemma RemovalsAreProven(h: Name -> Hash, w: World, p: Pid, choice: nat, hash: Hash)
    requires p in w.procs && hash in w.sockets && hash !in AdvanceStep(h, w, p, choice).sockets
    ensures hash == h(w.procs[p].name) && (w.procs[p].pc.UnlinkStale? || w.procs[p].pc.UnlinkOwned?)
  {
    var pc := w.procs[p].pc;
    FrontKeepsTables(h, w, p);
    PublishKeepsSockets(h, w, p, choice);
    if Probing(pc) { ProbeRemoves(h, w, p, hash); }
    else if Owning(pc) { OwnRemoves(h, w, p, choice, hash); }
  }
}
