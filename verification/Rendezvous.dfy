/**
 * The Controller rendezvous: sentinel publication, stale-socket removal, bind and shutdown, run by any
 * number of processes whose atomic file-system steps interleave and whose session names may share a hash.
 */
module Rendezvous {
  import opened Types

  type Name = string
  type Hash = nat
  type Pid = nat
  type Inode = nat

  datatype Unavailable =
    | UnsafeOrphan
    | Collision(found: Name)
    | LiveEndpointUnderLock
    | BindFailure
    | SentinelUnreadable

  /** Why a client gets no endpoint. */
  datatype ClientUnavailable =
    | SentinelAbsent
    | SentinelMismatch(found: Name)
    | SentinelReadFailure

  /** The next atomic step of a process, with the locals it carries. */
  datatype Pc =
    | Starting
    | StatSocket
    | StatSentinel(sawSocket: bool)
    | CreateTemp
    | WriteTemp(temp: Inode)
    | DiscardTemp(temp: Inode, installed: bool)
    | ReadSentinel
    | CompareName(found: Name)
    | ProbeSocket
    | ConnectSocket
    | StatStale
    | UnlinkStale
    | BindSocket
    | ListenSocket(bound: Inode)
    | RecordSocket(bound: Inode)
    | Serving(bound: Inode, recorded: Inode)
    | StatOwned(recorded: Inode)
    | UnlinkOwned(recorded: Inode)
    | Refused(reason: Unavailable)
    | Released
    | ClientStat
    | ClientRead
    | ClientAvailable
    | ClientRefused(absence: ClientUnavailable)

  datatype Process = Process(name: Name, pc: Pc)

  /**
   * The shared directory, the lock files and the processes. `files` holds the contents of sentinel and
   * temp inodes, `temps` the temp names still linked, `listening` the open listeners by socket inode.
   * `names` records every session name that ever started here.
   */
  datatype World = World(
    procs: map<Pid, Process>,
    locks: map<Name, Pid>,
    files: map<Inode, Name>,
    temps: set<Inode>,
    sentinels: map<Hash, Inode>,
    sockets: map<Hash, Inode>,
    listening: map<Inode, Pid>,
    names: set<Name>)

  const EMPTY := World(map[], map[], map[], {}, map[], map[], map[], {})

  /** A process starts, takes its next step (with the inode or length the step is given), closes, or dies. */
  datatype Action =
    | Spawn(pid: Pid, name: Name, client: bool)
    | Advance(pid: Pid, choice: nat)
    | Close(pid: Pid)
    | Die(pid: Pid)

  predicate HoldsLock(pc: Pc) {
    !(pc.Starting? || pc.ClientStat? || pc.ClientRead? || pc.ClientAvailable? || pc.ClientRefused?)
  }

  /** The process has read its own name from the sentinel. */
  predicate Admitted(pc: Pc) {
    || pc.ProbeSocket? || pc.ConnectSocket? || pc.StatStale? || pc.UnlinkStale? || pc.BindSocket?
    || pc.ListenSocket? || pc.RecordSocket? || pc.Serving? || pc.StatOwned? || pc.UnlinkOwned? || pc.Released?
  }

  predicate FreshInode(w: World, i: Inode) {
    i !in w.files && i !in w.listening && i !in w.sockets.Values && i !in w.temps
  }

  function At(w: World, p: Pid, pc: Pc): World
    requires p in w.procs
  {
    w.(procs := w.procs[p := w.procs[p].(pc := pc)])
  }

  predicate Enabled(h: Name -> Hash, w: World, a: Action) {
    match a
    case Spawn(p, _, _) => p !in w.procs
    case Close(p) => p in w.procs && w.procs[p].pc.Serving?
    case Die(p) => p in w.procs
    case Advance(p, choice) =>
      p in w.procs &&
      match w.procs[p].pc
      case Starting => w.procs[p].name !in w.locks
      case CreateTemp => FreshInode(w, choice)
      case WriteTemp(temp) =>
        temp in w.files && (w.files[temp] == w.procs[p].name || |w.files[temp]| < choice <= |w.procs[p].name|)
      case BindSocket => h(w.procs[p].name) in w.sockets || FreshInode(w, choice)
      case Serving(_, _) => false
      case ClientAvailable => false
      case ClientRefused(_) => false
      case _ => true
  }

  // ----- steps, grouped as the source groups them

  /** Opens the sentinel and reads it in one step; a missing one is an I/O error. */
  function AfterRead(h: Name -> Hash, w: World, p: Pid): World
    requires p in w.procs
  {
    var hash := h(w.procs[p].name);
    if hash in w.sentinels && w.sentinels[hash] in w.files then At(w, p, CompareName(w.files[w.sentinels[hash]]))
    else At(w, p, Refused(SentinelUnreadable))
  }

  /** Publishing: create the temp, write it in any number of pieces, link it without replacing, drop the temp name. */
  function PublishStep(h: Name -> Hash, w: World, p: Pid, choice: nat): World
    requires p in w.procs
  {
    var name, hash := w.procs[p].name, h(w.procs[p].name);
    match w.procs[p].pc
    case CreateTemp => At(w.(files := w.files[choice := ""], temps := w.temps + {choice}), p, WriteTemp(choice))
    case WriteTemp(temp) =>
      if temp in w.files && w.files[temp] == name then
        if hash in w.sentinels then At(w, p, DiscardTemp(temp, false))
        else At(w.(sentinels := w.sentinels[hash := temp]), p, DiscardTemp(temp, true))
      else if choice <= |name| then At(w.(files := w.files[temp := name[..choice]]), p, WriteTemp(temp))
      else w
    case DiscardTemp(temp, installed) =>
      if installed then At(w.(temps := w.temps - {temp}), p, CompareName(name))
      else At(w.(temps := w.temps - {temp}, files := w.files - {temp}), p, ReadSentinel)
    case _ => w
  }

  /** Probing the socket path and removing it once a connection was refused. */
  function ProbeStep(h: Name -> Hash, w: World, p: Pid): World
    requires p in w.procs
  {
    var hash := h(w.procs[p].name);
    match w.procs[p].pc
    case ProbeSocket => At(w, p, if hash in w.sockets then ConnectSocket else BindSocket)
    case ConnectSocket =>
      if hash !in w.sockets then At(w, p, BindSocket)
      else if w.sockets[hash] in w.listening then At(w, p, Refused(LiveEndpointUnderLock))
      else At(w, p, StatStale)
    case StatStale => At(w, p, if hash in w.sockets then UnlinkStale else BindSocket)
    case UnlinkStale => At(w.(sockets := w.sockets - {hash}), p, BindSocket)
    case _ => w
  }

  /** Binding, listening, recording the bound inode, and the two steps of the ownership-checked unlink. */
  function OwnStep(h: Name -> Hash, w: World, p: Pid, choice: nat): World
    requires p in w.procs
  {
    var hash := h(w.procs[p].name);
    match w.procs[p].pc
    case BindSocket =>
      if hash in w.sockets then At(w, p, Refused(BindFailure))
      else At(w.(sockets := w.sockets[hash := choice]), p, ListenSocket(choice))
    case ListenSocket(bound) => At(w.(listening := w.listening[bound := p]), p, RecordSocket(bound))
    case RecordSocket(bound) =>
      if hash in w.sockets then At(w, p, Serving(bound, w.sockets[hash]))
      else At(w.(listening := w.listening - {bound}), p, Refused(BindFailure))
    case StatOwned(recorded) =>
      At(w, p, if hash in w.sockets && w.sockets[hash] == recorded then UnlinkOwned(recorded) else Released)
    case UnlinkOwned(recorded) => At(w.(sockets := w.sockets - {hash}), p, Released)
    case _ => w
  }

  function Without(w: World, p: Pid): World
    requires p in w.procs
  {
    w.(procs := w.procs - {p}, locks := map n | n in w.locks && w.locks[n] != p :: w.locks[n],
       listening := map i | i in w.listening && w.listening[i] != p :: w.listening[i])
  }

  /** Locking, the first stats, the sentinel check, and the read-only client. */
  function FrontStep(h: Name -> Hash, w: World, p: Pid): World
    requires p in w.procs
  {
    var name, hash := w.procs[p].name, h(w.procs[p].name);
    match w.procs[p].pc
    case Starting => At(w.(locks := w.locks[name := p]), p, StatSocket)
    case StatSocket => At(w, p, StatSentinel(hash in w.sockets))
    case StatSentinel(sawSocket) =>
      if hash in w.sentinels then At(w, p, ReadSentinel)
      else At(w, p, if sawSocket then Refused(UnsafeOrphan) else CreateTemp)
    case ReadSentinel => AfterRead(h, w, p)
    case CompareName(found) => At(w, p, if found == name then ProbeSocket else Refused(Collision(found)))
    case ClientStat => At(w, p, if hash in w.sentinels then ClientRead else ClientRefused(SentinelAbsent))
    case ClientRead =>
      if hash in w.sentinels && w.sentinels[hash] in w.files then
        var found := w.files[w.sentinels[hash]];
        At(w, p, if found == name then ClientAvailable else ClientRefused(SentinelMismatch(found)))
      else At(w, p, ClientRefused(SentinelReadFailure))
    case _ => w
  }

  predicate Publishing(pc: Pc) { pc.CreateTemp? || pc.WriteTemp? || pc.DiscardTemp? }

  predicate Probing(pc: Pc) { pc.ProbeSocket? || pc.ConnectSocket? || pc.StatStale? || pc.UnlinkStale? }

  predicate Owning(pc: Pc) { pc.BindSocket? || pc.ListenSocket? || pc.RecordSocket? || pc.StatOwned?
                            || pc.UnlinkOwned? }

  function AdvanceStep(h: Name -> Hash, w: World, p: Pid, choice: nat): World
    requires p in w.procs
  {
    var pc := w.procs[p].pc;
    if Publishing(pc) then PublishStep(h, w, p, choice)
    else if Probing(pc) then ProbeStep(h, w, p)
    else if Owning(pc) then OwnStep(h, w, p, choice)
    else if pc.Refused? || pc.Released? then Without(w, p)
    else FrontStep(h, w, p)
  }

  function Next(h: Name -> Hash, w: World, a: Action): World
    requires Enabled(h, w, a)
  {
    match a
    case Spawn(p, name, client) =>
      w.(procs := w.procs[p := Process(name, if client then ClientStat else Starting)], names := w.names + {name})
    case Close(p) =>
      var pc := w.procs[p].pc;
      At(w.(listening := w.listening - {pc.bound}), p, StatOwned(pc.recorded))
    case Die(p) => Without(w, p)
    case Advance(p, choice) => AdvanceStep(h, w, p, choice)
  }

  // ----- the invariant

  /** The hash's sentinel holds exactly this name. */
  predicate SentinelIs(w: World, hash: Hash, name: Name) {
    hash in w.sentinels && w.sentinels[hash] in w.files && w.files[w.sentinels[hash]] == name
  }

  predicate OwnTemp(w: World, temp: Inode) {
    temp in w.temps && temp in w.files && temp !in w.sentinels.Values
  }

  /** What one process may rely on at its program counter. */
  predicate ProcessOk(h: Name -> Hash, w: World, p: Pid)
    requires p in w.procs
  {
    var name, pc, hash := w.procs[p].name, w.procs[p].pc, h(w.procs[p].name);
    && name in w.names
    && (HoldsLock(pc) ==> name in w.locks && w.locks[name] == p)
    && (Admitted(pc) ==> SentinelIs(w, hash, name))
    && match pc
       case StatSentinel(sawSocket) => sawSocket ==> hash in w.sentinels
       case WriteTemp(temp) => OwnTemp(w, temp) && w.files[temp] <= name
       case DiscardTemp(temp, installed) =>
         if installed then SentinelIs(w, hash, name) && w.sentinels[hash] == temp
             else OwnTemp(w, temp) && hash in w.sentinels
       case ReadSentinel => hash in w.sentinels
       case CompareName(found) => SentinelIs(w, hash, found)
       case StatStale => hash in w.sockets ==> w.sockets[hash] !in w.listening
       case UnlinkStale => hash in w.sockets ==> w.sockets[hash] !in w.listening
       case BindSocket => hash !in w.sockets
       case ListenSocket(bound) => hash in w.sockets && w.sockets[hash] == bound && bound !in w.listening
       case RecordSocket(bound) => hash in w.sockets && w.sockets[hash] == bound && bound in w.listening
           && w.listening[bound] == p
       case Serving(bound, recorded) =>
         recorded == bound && hash in w.sockets && w.sockets[hash] == bound && bound in w.listening
             && w.listening[bound] == p
       case StatOwned(recorded) => hash in w.sockets && w.sockets[hash] == recorded && recorded !in w.listening
       case UnlinkOwned(recorded) => hash in w.sockets && w.sockets[hash] == recorded && recorded !in w.listening
       case Released => hash !in w.sockets
       case Refused(reason) => reason.Collision? && reason.found != name && SentinelIs(w, hash, reason.found)
       case ClientRead => hash in w.sentinels
       case ClientAvailable => SentinelIs(w, hash, name)
       case ClientRefused(absence) =>
         (absence.SentinelMismatch? && absence.found != name && SentinelIs(w, hash, absence.found))
         || absence.SentinelAbsent?
       case _ => true
  }

  function TempOf(pc: Pc): Option<Inode> {
    match pc
    case WriteTemp(temp) => Some(temp)
    case DiscardTemp(temp, _) => Some(temp)
    case _ => None
  }

  /** The listener's owner is serving on it, or about to. */
  predicate ListenerOk(w: World, i: Inode)
    requires i in w.listening
  {
    && w.listening[i] in w.procs
    && match w.procs[w.listening[i]].pc
       case RecordSocket(bound) => bound == i
       case Serving(bound, _) => bound == i
       case _ => false
  }

  predicate LockOk(w: World, n: Name)
    requires n in w.locks
  {
    w.locks[n] in w.procs && w.procs[w.locks[n]].name == n && HoldsLock(w.procs[w.locks[n]].pc)
  }

  predicate TempsApart(w: World, p: Pid, q: Pid)
    requires p in w.procs && q in w.procs
  {
    TempOf(w.procs[p].pc).Some? ==> TempOf(w.procs[p].pc) != TempOf(w.procs[q].pc)
  }

  /** A published sentinel holds the complete name of some session with that hash. */
  predicate SentinelOk(h: Name -> Hash, w: World, hash: Hash)
    requires hash in w.sentinels
  {
    w.sentinels[hash] in w.files && w.files[w.sentinels[hash]] in w.names && h(w.files[w.sentinels[hash]]) == hash
  }

  predicate SocketsApart(w: World, a: Hash, b: Hash)
    requires a in w.sockets && b in w.sockets
  {
    w.sockets[a] != w.sockets[b]
  }

  predicate LocksOk(w: World) {
    forall n {:trigger LockOk(w, n)} :: n in w.locks ==> LockOk(w, n)
  }

  predicate TempsOk(w: World) {
    forall p, q {:trigger TempsApart(w, p, q)} :: p in w.procs && q in w.procs && p != q ==> TempsApart(w, p, q)
  }

  predicate SentinelsOk(h: Name -> Hash, w: World) {
    forall hash {:trigger SentinelOk(h, w, hash)} :: hash in w.sentinels ==> SentinelOk(h, w, hash)
  }

  predicate SocketsOk(w: World) {
    forall a, b {:trigger SocketsApart(w, a, b)} :: a in w.sockets && b in w.sockets && a != b ==> SocketsApart(w, a, b)
  }

  /** A socket entry exists only beside a sentinel. */
  predicate SocketsNamed(w: World) {
    w.sockets.Keys <= w.sentinels.Keys
  }

  predicate ListenersOk(w: World) {
    forall i {:trigger ListenerOk(w, i)} :: i in w.listening ==> ListenerOk(w, i)
  }

  predicate TablesOk(h: Name -> Hash, w: World) {
    LocksOk(w) && TempsOk(w) && SentinelsOk(h, w) && SocketsOk(w) && SocketsNamed(w) && ListenersOk(w)
  }

  predicate Invariant(h: Name -> Hash, w: World) {
    TablesOk(h, w) && forall p {:trigger ProcessOk(h, w, p)} :: p in w.procs ==> ProcessOk(h, w, p)
  }

  /** Two processes admitted for the same hash are the same process. */
  lemma AdmittedIsUnique(h: Name -> Hash, w: World, p: Pid, q: Pid)
    requires Invariant(h, w) && p in w.procs && q in w.procs
    requires Admitted(w.procs[p].pc) && Admitted(w.procs[q].pc) && h(w.procs[p].name) == h(w.procs[q].name)
    ensures p == q
  {
    assert ProcessOk(h, w, p) && ProcessOk(h, w, q);
  }

  // ----- what the others keep while one process moves

  /** A sentinel, once there, stays with its content. */
  predicate KeepsSentinel(w: World, v: World, hash: Hash) {
    hash in w.sentinels ==>
      && hash in v.sentinels && v.sentinels[hash] == w.sentinels[hash]
      && (w.sentinels[hash] in w.files ==>
            w.sentinels[hash] in v.files && v.files[w.sentinels[hash]] == w.files[w.sentinels[hash]])
  }

  predicate SameSocket(w: World, v: World, hash: Hash) {
    && (hash in v.sockets <==> hash in w.sockets)
    && (hash in w.sockets ==>
          && v.sockets[hash] == w.sockets[hash]
          && (w.sockets[hash] in v.listening <==> w.sockets[hash] in w.listening)
          && (w.sockets[hash] in w.listening ==> v.listening[w.sockets[hash]] == w.listening[w.sockets[hash]]))
  }

  /** Everything process `q` relies on is the same in both worlds. */
  predicate Steady(h: Name -> Hash, w: World, v: World, q: Pid)
    requires q in w.procs
  {
    var name, pc, hash := w.procs[q].name, w.procs[q].pc, h(w.procs[q].name);
    && q in v.procs && v.procs[q] == w.procs[q] && w.names <= v.names
    && (name in w.locks && w.locks[name] == q ==> name in v.locks && v.locks[name] == q)
    && KeepsSentinel(w, v, hash)
    && (TempOf(pc).Some? && OwnTemp(w, TempOf(pc).value) ==>
          OwnTemp(v, TempOf(pc).value) && v.files[TempOf(pc).value] == w.files[TempOf(pc).value])
    && (Admitted(pc) ==> SameSocket(w, v, hash))
  }

  lemma SteadyKeepsProcess(h: Name -> Hash, w: World, v: World, q: Pid)
    requires q in w.procs && Steady(h, w, v, q) && ProcessOk(h, w, q)
    ensures ProcessOk(h, v, q)
  {
  }

  lemma OthersSteady(h: Name -> Hash, w: World, v: World, p: Pid)
    requires Invariant(h, w) && TablesOk(h, v) && v.procs.Keys <= w.procs.Keys + {p}
    requires forall q {:trigger Steady(h, w, v, q)} :: q in w.procs && q != p && q in v.procs ==> Steady(h, w, v, q)
    requires p in v.procs ==> ProcessOk(h, v, p)
    ensures Invariant(h, v)
  {
    forall q | q in v.procs ensures ProcessOk(h, v, q) {
      if q != p {
        assert ProcessOk(h, w, q) && Steady(h, w, v, q);
        SteadyKeepsProcess(h, w, v, q);
      }
    }
  }

  /** The step keeps the process's hold on its lock, its temp and its listener. */
  predicate SameHold(from: Pc, to: Pc) {
    && HoldsLock(to) == HoldsLock(from)
    && (TempOf(to).None? || TempOf(to) == TempOf(from))
    && (from.RecordSocket? || from.Serving? ==> (to.RecordSocket? || to.Serving?) && to.bound == from.bound)
  }

  lemma MoveKeepsLocks(w: World, v: World, p: Pid, pc: Pc)
    requires LocksOk(w) && p in w.procs && SameHold(w.procs[p].pc, pc)
    requires v.procs == w.procs[p := w.procs[p].(pc := pc)] && v.locks == w.locks
    ensures LocksOk(v)
  {
    forall n | n in v.locks ensures LockOk(v, n) { assert LockOk(w, n); }
  }

  lemma MoveKeepsTemps(w: World, v: World, p: Pid, pc: Pc)
    requires TempsOk(w) && p in w.procs && SameHold(w.procs[p].pc, pc)
    requires v.procs == w.procs[p := w.procs[p].(pc := pc)]
    ensures TempsOk(v)
  {
    forall a, b | a in v.procs && b in v.procs && a != b ensures TempsApart(v, a, b) { assert TempsApart(w, a, b); }
  }

  lemma MoveKeepsListeners(w: World, v: World, p: Pid, pc: Pc)
    requires ListenersOk(w) && p in w.procs && SameHold(w.procs[p].pc, pc)
    requires v.procs == w.procs[p := w.procs[p].(pc := pc)] && v.listening == w.listening
    ensures ListenersOk(v)
  {
    forall i | i in v.listening ensures ListenerOk(v, i) { assert ListenerOk(w, i); }
  }

  lemma SameSentinels(h: Name -> Hash, w: World, v: World)
    requires SentinelsOk(h, w) && v.sentinels == w.sentinels && w.names <= v.names
    requires forall i :: i in w.sentinels.Values && i in w.files ==> i in v.files && v.files[i] == w.files[i]
    ensures SentinelsOk(h, v)
  {
    forall hash | hash in v.sentinels ensures SentinelOk(h, v, hash) { assert SentinelOk(h, w, hash); }
  }

  lemma FewerSockets(w: World, v: World)
    requires SocketsOk(w) && forall a :: a in v.sockets ==> a in w.sockets && v.sockets[a] == w.sockets[a]
    ensures SocketsOk(v)
  {
    forall a, b | a in v.sockets && b in v.sockets
        && a != b ensures SocketsApart(v, a, b) { assert SocketsApart(w, a, b); }
  }

  /** A step that changes nothing but one process's own program counter. */
  lemma MoveKeeps(h: Name -> Hash, w: World, p: Pid, pc: Pc)
    requires Invariant(h, w) && p in w.procs && SameHold(w.procs[p].pc, pc) && ProcessOk(h, At(w, p, pc), p)
    ensures Invariant(h, At(w, p, pc))
  {
    var v := At(w, p, pc);
    MoveKeepsLocks(w, v, p, pc);
    MoveKeepsTemps(w, v, p, pc);
    MoveKeepsListeners(w, v, p, pc);
    SameSentinels(h, w, v);
    FewerSockets(w, v);
    OthersSteady(h, w, v, p);
  }

  // ----- steps that only move a program counter

  lemma StatKeeps(h: Name -> Hash, w: World, p: Pid)
    requires Invariant(h, w) && p in w.procs && (w.procs[p].pc.StatSocket? || w.procs[p].pc.StatSentinel?)
    ensures Invariant(h, AdvanceStep(h, w, p, 0))
  {
    var hash := h(w.procs[p].name);
    assert ProcessOk(h, w, p);
    match w.procs[p].pc {
      case StatSocket => MoveKeeps(h, w, p, StatSentinel(hash in w.sockets));
      case StatSentinel(saw) => MoveKeeps(h, w, p, if hash in w.sentinels then ReadSentinel else CreateTemp);
    }
  }

  lemma ReadKeeps(h: Name -> Hash, w: World, p: Pid)
    requires Invariant(h, w) && p in w.procs && (w.procs[p].pc.ReadSentinel? || w.procs[p].pc.CompareName?)
    ensures Invariant(h, AdvanceStep(h, w, p, 0))
  {
    var name, hash := w.procs[p].name, h(w.procs[p].name);
    assert ProcessOk(h, w, p);
    match w.procs[p].pc {
      case ReadSentinel =>
        assert SentinelOk(h, w, hash);
        MoveKeeps(h, w, p, CompareName(w.files[w.sentinels[hash]]));
      case CompareName(found) => MoveKeeps(h, w, p, if found == name then ProbeSocket else Refused(Collision(found)));
    }
  }

  lemma OtherSocket(h: Name -> Hash, w: World, p: Pid, q: Pid)
    requires Invariant(h, w) && p in w.procs && q in w.procs && p != q && Admitted(w.procs[p].pc)
             && Admitted(w.procs[q].pc)
    ensures var a, b := h(w.procs[p].name), h(w.procs[q].name);
            a != b && (a in w.sockets && b in w.sockets ==> w.sockets[a] != w.sockets[b])
  {
    var a, b := h(w.procs[p].name), h(w.procs[q].name);
    if a == b {
      AdmittedIsUnique(h, w, p, q);
    } else if a in w.sockets && b in w.sockets {
      assert SocketsApart(w, a, b);
    }
  }

  /** Under the lock, an admitted process that is not bound finds no live endpoint at its path. */
  lemma NoLiveRival(h: Name -> Hash, w: World, p: Pid)
    requires Invariant(h, w) && p in w.procs && Admitted(w.procs[p].pc)
    requires !w.procs[p].pc.RecordSocket? && !w.procs[p].pc.Serving?
    ensures var hash := h(w.procs[p].name); hash in w.sockets ==> w.sockets[hash] !in w.listening
  {
    var hash := h(w.procs[p].name);
    if hash in w.sockets && w.sockets[hash] in w.listening {
      var q := w.listening[w.sockets[hash]];
      assert ListenerOk(w, w.sockets[hash]);
      assert ProcessOk(h, w, q);
      OtherSocket(h, w, p, q);
    }
  }

  lemma ProbeKeeps(h: Name -> Hash, w: World, p: Pid)
    requires Invariant(h, w) && p in w.procs
    requires var pc := w.procs[p].pc; pc.ProbeSocket? || pc.ConnectSocket? || pc.StatStale?
    ensures Invariant(h, AdvanceStep(h, w, p, 0))
  {
    var hash := h(w.procs[p].name);
    assert ProcessOk(h, w, p);
    match w.procs[p].pc {
      case ProbeSocket => MoveKeeps(h, w, p, if hash in w.sockets then ConnectSocket else BindSocket);
      case ConnectSocket =>
        if hash in w.sockets && w.sockets[hash] in w.listening { NoLiveRival(h, w, p); }
        MoveKeeps(h, w, p, if hash in w.sockets then StatStale else BindSocket);
      case StatStale => MoveKeeps(h, w, p, if hash in w.sockets then UnlinkStale else BindSocket);
    }
  }

  lemma OwnedStatKeeps(h: Name -> Hash, w: World, p: Pid)
    requires Invariant(h, w) && p in w.procs && (w.procs[p].pc.RecordSocket? || w.procs[p].pc.StatOwned?)
    ensures Invariant(h, AdvanceStep(h, w, p, 0))
  {
    var hash := h(w.procs[p].name);
    assert ProcessOk(h, w, p);
    match w.procs[p].pc {
      case RecordSocket(bound) => MoveKeeps(h, w, p, Serving(bound, w.sockets[hash]));
      case StatOwned(recorded) => MoveKeeps(h, w, p, UnlinkOwned(recorded));
    }
  }

  lemma ClientStatKeeps(h: Name -> Hash, w: World, p: Pid)
    requires Invariant(h, w) && p in w.procs && w.procs[p].pc.ClientStat?
    ensures Invariant(h, AdvanceStep(h, w, p, 0))
  {
    var pc := if h(w.procs[p].name) in w.sentinels then ClientRead else ClientRefused(SentinelAbsent);
    assert ProcessOk(h, w, p);
    MoveKeeps(h, w, p, pc);
    assert AdvanceStep(h, w, p, 0) == At(w, p, pc);
  }

  lemma ClientReadKeeps(h: Name -> Hash, w: World, p: Pid)
    requires Invariant(h, w) && p in w.procs && w.procs[p].pc.ClientRead?
    ensures Invariant(h, AdvanceStep(h, w, p, 0))
  {
    var name, hash := w.procs[p].name, h(w.procs[p].name);
    assert ProcessOk(h, w, p);
    assert SentinelOk(h, w, hash);
    var found := w.files[w.sentinels[hash]];
    var pc := if found == name then ClientAvailable else ClientRefused(SentinelMismatch(found));
    MoveKeeps(h, w, p, pc);
    assert AdvanceStep(h, w, p, 0) == At(w, p, pc);
  }

  // ----- steps that change a lock, a file or a process table

  /** The tables that a step leaves alone when it only gives the process a new counter without temp or listener. */
  lemma MoveTables(h: Name -> Hash, w: World, v: World, p: Pid)
    requires Invariant(h, w) && p in w.procs && p in v.procs
    requires v.procs == w.procs[p := v.procs[p]] && TempOf(v.procs[p].pc).None?
    requires w.procs[p].pc.RecordSocket? || w.procs[p].pc.Serving? ==> forall i :: i in v.listening
                                                                         ==> v.listening[i] != p
    requires forall i :: i in v.listening ==> i in w.listening && v.listening[i] == w.listening[i]
    requires v.sentinels == w.sentinels && w.names <= v.names
    requires forall i :: i in w.sentinels.Values && i in w.files ==> i in v.files && v.files[i] == w.files[i]
    requires forall a :: a in v.sockets ==> a in w.sockets && v.sockets[a] == w.sockets[a]
    ensures TempsOk(v) && ListenersOk(v) && SentinelsOk(h, v) && SocketsOk(v)
  {
    forall a, b | a in v.procs && b in v.procs && a != b ensures TempsApart(v, a, b) { assert TempsApart(w, a, b); }
    forall i | i in v.listening ensures ListenerOk(v, i) { assert ListenerOk(w, i); }
    SameSentinels(h, w, v);
    FewerSockets(w, v);
  }

  lemma TakeLock(h: Name -> Hash, w: World, p: Pid)
    requires Invariant(h, w) && p in w.procs && w.procs[p].pc.Starting? && w.procs[p].name !in w.locks
    ensures Invariant(h, At(w.(locks := w.locks[w.procs[p].name := p]), p, StatSocket))
  {
    var v := At(w.(locks := w.locks[w.procs[p].name := p]), p, StatSocket);
    assert ProcessOk(h, w, p);
    forall n | n in v.locks ensures LockOk(v, n) {
      if n != w.procs[p].name { assert LockOk(w, n); }
    }
    MoveTables(h, w, v, p);
    OthersSteady(h, w, v, p);
  }

  lemma AcquireKeeps(h: Name -> Hash, w: World, p: Pid)
    requires Invariant(h, w) && p in w.procs && w.procs[p].pc.Starting? && w.procs[p].name !in w.locks
    ensures Invariant(h, AdvanceStep(h, w, p, 0))
  {
    TakeLock(h, w, p);
    assert AdvanceStep(h, w, p, 0) == At(w.(locks := w.locks[w.procs[p].name := p]), p, StatSocket);
  }

  lemma LockKept(w: World, v: World, p: Pid)
    requires LocksOk(w) && p in w.procs && p in v.procs && v.procs == w.procs[p := v.procs[p]] && v.locks == w.locks
    requires v.procs[p].name == w.procs[p].name && HoldsLock(v.procs[p].pc) == HoldsLock(w.procs[p].pc)
    ensures LocksOk(v)
  {
    forall n | n in v.locks ensures LockOk(v, n) { assert LockOk(w, n); }
  }

  lemma TempInUse(h: Name -> Hash, w: World, q: Pid)
    requires Invariant(h, w) && q in w.procs && TempOf(w.procs[q].pc).Some?
    ensures TempOf(w.procs[q].pc).value in w.files
  {
    assert ProcessOk(h, w, q);
  }

  lemma NotASentinel(h: Name -> Hash, w: World, i: Inode)
    requires SentinelsOk(h, w) && i !in w.files
    ensures i !in w.sentinels.Values
  {
    forall hash | hash in w.sentinels ensures w.sentinels[hash] != i { assert SentinelOk(h, w, hash); }
  }

  lemma CreateTempKeeps(h: Name -> Hash, w: World, p: Pid, choice: Inode)
    requires Invariant(h, w) && p in w.procs && w.procs[p].pc.CreateTemp? && FreshInode(w, choice)
    ensures Invariant(h, AdvanceStep(h, w, p, choice))
  {
    var v := AdvanceStep(h, w, p, choice);
    assert ProcessOk(h, w, p);
    LockKept(w, v, p);
    forall a, b | a in v.procs && b in v.procs && a != b ensures TempsApart(v, a, b) {
      assert TempsApart(w, a, b);
      if a != p && TempOf(w.procs[a].pc).Some? { TempInUse(h, w, a); }
      if b != p && TempOf(w.procs[b].pc).Some? { TempInUse(h, w, b); }
    }
    forall i | i in v.listening ensures ListenerOk(v, i) { assert ListenerOk(w, i); }
    SameSentinels(h, w, v);
    FewerSockets(w, v);
    NotASentinel(h, w, choice);
    OthersSteady(h, w, v, p);
  }

  lemma OthersTemp(h: Name -> Hash, w: World, p: Pid, q: Pid)
    requires Invariant(h, w) && p in w.procs && q in w.procs && p != q && TempOf(w.procs[p].pc).Some?
    ensures TempOf(w.procs[q].pc) != TempOf(w.procs[p].pc)
  {
    assert TempsApart(w, p, q);
  }

  lemma WriteTempKeeps(h: Name -> Hash, w: World, p: Pid, choice: nat)
    requires Invariant(h, w) && p in w.procs && w.procs[p].pc.WriteTemp? && Enabled(h, w, Advance(p, choice))
    requires w.files[w.procs[p].pc.temp] != w.procs[p].name
    ensures Invariant(h, AdvanceStep(h, w, p, choice))
  {
    var v := AdvanceStep(h, w, p, choice);
    assert ProcessOk(h, w, p);
    LockKept(w, v, p);
    MoveKeepsTemps(w, v, p, w.procs[p].pc);
    MoveKeepsListeners(w, v, p, w.procs[p].pc);
    SameSentinels(h, w, v);
    FewerSockets(w, v);
    forall q | q in w.procs && q != p ensures Steady(h, w, v, q) { OthersTemp(h, w, p, q); }
    OthersSteady(h, w, v, p);
  }

  lemma LinkKeeps(h: Name -> Hash, w: World, p: Pid, choice: nat)
    requires Invariant(h, w) && p in w.procs && w.procs[p].pc.WriteTemp? && Enabled(h, w, Advance(p, choice))
    requires w.files[w.procs[p].pc.temp] == w.procs[p].name
    ensures Invariant(h, AdvanceStep(h, w, p, choice))
  {
    var v, hash := AdvanceStep(h, w, p, choice), h(w.procs[p].name);
    assert ProcessOk(h, w, p);
    if hash in w.sentinels {
      MoveKeeps(h, w, p, DiscardTemp(w.procs[p].pc.temp, false));
    } else {
      MoveKeepsLocks(w, v, p, v.procs[p].pc);
      MoveKeepsTemps(w, v, p, v.procs[p].pc);
      MoveKeepsListeners(w, v, p, v.procs[p].pc);
      FewerSockets(w, v);
      forall x | x in v.sentinels ensures SentinelOk(h, v, x) {
        if x != hash { assert SentinelOk(h, w, x); }
      }
      forall q | q in w.procs && q != p ensures Steady(h, w, v, q) { OthersTemp(h, w, p, q); }
      OthersSteady(h, w, v, p);
    }
  }

  lemma DiscardSteady(h: Name -> Hash, w: World, p: Pid, q: Pid)
    requires Invariant(h, w) && p in w.procs && w.procs[p].pc.DiscardTemp? && q in w.procs && q != p
    ensures Steady(h, w, AdvanceStep(h, w, p, 0), q)
  {
    assert ProcessOk(h, w, p);
    OthersTemp(h, w, p, q);
  }

  lemma DiscardedKeeps(h: Name -> Hash, w: World, v: World, p: Pid)
    requires Invariant(h, w) && p in w.procs && p in v.procs && w.procs[p].pc.DiscardTemp? && ProcessOk(h, v, p)
    requires v == w.(procs := w.procs[p := v.procs[p]], temps := v.temps, files := v.files)
    requires v.procs[p].name == w.procs[p].name && HoldsLock(v.procs[p].pc) && TempOf(v.procs[p].pc).None?
    requires forall i :: i in w.sentinels.Values && i in w.files ==> i in v.files && v.files[i] == w.files[i]
    requires forall q {:trigger Steady(h, w, v, q)} :: q in w.procs && q != p ==> Steady(h, w, v, q)
    ensures Invariant(h, v)
  {
    LockKept(w, v, p);
    MoveTables(h, w, v, p);
    OthersSteady(h, w, v, p);
  }

  lemma DiscardKeeps(h: Name -> Hash, w: World, p: Pid)
    requires Invariant(h, w) && p in w.procs && w.procs[p].pc.DiscardTemp?
    ensures Invariant(h, AdvanceStep(h, w, p, 0))
  {
    var v := AdvanceStep(h, w, p, 0);
    assert ProcessOk(h, w, p);
    forall q | q in w.procs && q != p ensures Steady(h, w, v, q) { DiscardSteady(h, w, p, q); }
    DiscardedKeeps(h, w, v, p);
  }

  // ----- steps that change the socket table or the listeners

  lemma UnlinkedKeeps(h: Name -> Hash, w: World, p: Pid, pc: Pc)
    requires Invariant(h, w) && p in w.procs
    requires (w.procs[p].pc.UnlinkStale? && pc == BindSocket) || (w.procs[p].pc.UnlinkOwned? && pc == Released)
    ensures Invariant(h, At(w.(sockets := w.sockets - {h(w.procs[p].name)}), p, pc))
  {
    var v := At(w.(sockets := w.sockets - {h(w.procs[p].name)}), p, pc);
    assert ProcessOk(h, w, p);
    LockKept(w, v, p);
    MoveTables(h, w, v, p);
    forall q | q in w.procs && q != p ensures Steady(h, w, v, q) {
      if Admitted(w.procs[q].pc) { OtherSocket(h, w, p, q); }
    }
    OthersSteady(h, w, v, p);
  }

  lemma UnlinkKeeps(h: Name -> Hash, w: World, p: Pid)
    requires Invariant(h, w) && p in w.procs && (w.procs[p].pc.UnlinkStale? || w.procs[p].pc.UnlinkOwned?)
    ensures Invariant(h, AdvanceStep(h, w, p, 0))
  {
    var pc := if w.procs[p].pc.UnlinkStale? then BindSocket else Released;
    UnlinkedKeeps(h, w, p, pc);
    assert AdvanceStep(h, w, p, 0) == At(w.(sockets := w.sockets - {h(w.procs[p].name)}), p, pc);
  }

  lemma BindKeeps(h: Name -> Hash, w: World, p: Pid, choice: Inode)
    requires Invariant(h, w) && p in w.procs && w.procs[p].pc.BindSocket? && Enabled(h, w, Advance(p, choice))
    ensures Invariant(h, AdvanceStep(h, w, p, choice))
  {
    var v, hash := AdvanceStep(h, w, p, choice), h(w.procs[p].name);
    assert ProcessOk(h, w, p);
    LockKept(w, v, p);
    MoveKeepsTemps(w, v, p, v.procs[p].pc);
    MoveKeepsListeners(w, v, p, v.procs[p].pc);
    SameSentinels(h, w, v);
    forall a, b | a in v.sockets && b in v.sockets && a != b ensures SocketsApart(v, a, b) {
      if a != hash && b != hash { assert SocketsApart(w, a, b); }
    }
    forall q | q in w.procs && q != p ensures Steady(h, w, v, q) {
      if Admitted(w.procs[q].pc) { OtherSocket(h, w, p, q); }
    }
    OthersSteady(h, w, v, p);
  }

  lemma ListenKeeps(h: Name -> Hash, w: World, p: Pid)
    requires Invariant(h, w) && p in w.procs && w.procs[p].pc.ListenSocket?
    ensures Invariant(h, AdvanceStep(h, w, p, 0))
  {
    var v, bound := AdvanceStep(h, w, p, 0), w.procs[p].pc.bound;
    assert ProcessOk(h, w, p);
    LockKept(w, v, p);
    MoveKeepsTemps(w, v, p, v.procs[p].pc);
    forall i | i in v.listening ensures ListenerOk(v, i) {
      if i != bound { assert ListenerOk(w, i); }
    }
    SameSentinels(h, w, v);
    FewerSockets(w, v);
    forall q | q in w.procs && q != p ensures Steady(h, w, v, q) {
      if Admitted(w.procs[q].pc) { OtherSocket(h, w, p, q); }
    }
    OthersSteady(h, w, v, p);
  }

  lemma CloseKeeps(h: Name -> Hash, w: World, p: Pid)
    requires Invariant(h, w) && p in w.procs && w.procs[p].pc.Serving?
    ensures Invariant(h, Next(h, w, Close(p)))
  {
    var v, bound := Next(h, w, Close(p)), w.procs[p].pc.bound;
    assert ProcessOk(h, w, p);
    LockKept(w, v, p);
    forall i | i in v.listening ensures v.listening[i] != p { assert ListenerOk(w, i); }
    MoveTables(h, w, v, p);
    forall q | q in w.procs && q != p ensures Steady(h, w, v, q) {
      if Admitted(w.procs[q].pc) { OtherSocket(h, w, p, q); }
    }
    OthersSteady(h, w, v, p);
  }

  // ----- a process ends or starts

  lemma EndKeepsOther(h: Name -> Hash, w: World, p: Pid, q: Pid)
    requires Invariant(h, w) && p in w.procs && q in w.procs && p != q
    ensures Steady(h, w, Without(w, p), q)
  {
    var b := h(w.procs[q].name);
    if Admitted(w.procs[q].pc) && b in w.sockets && w.sockets[b] in w.listening && w.listening[w.sockets[b]] == p {
      assert ListenerOk(w, w.sockets[b]);
      assert ProcessOk(h, w, p);
      OtherSocket(h, w, p, q);
    }
  }

  lemma EndKeeps(h: Name -> Hash, w: World, p: Pid)
    requires Invariant(h, w) && p in w.procs
    ensures Invariant(h, Without(w, p))
  {
    var v := Without(w, p);
    forall n | n in v.locks ensures LockOk(v, n) { assert LockOk(w, n); }
    forall a, b | a in v.procs && b in v.procs && a != b ensures TempsApart(v, a, b) { assert TempsApart(w, a, b); }
    forall i | i in v.listening ensures ListenerOk(v, i) { assert ListenerOk(w, i); }
    SameSentinels(h, w, v);
    FewerSockets(w, v);
    forall q | q in w.procs && q != p ensures Steady(h, w, v, q) { EndKeepsOther(h, w, p, q); }
    OthersSteady(h, w, v, p);
  }

  lemma SpawnKeeps(h: Name -> Hash, w: World, p: Pid, name: Name, client: bool)
    requires Invariant(h, w) && p !in w.procs
    ensures Invariant(h, Next(h, w, Spawn(p, name, client)))
  {
    var v := Next(h, w, Spawn(p, name, client));
    forall n | n in v.locks ensures LockOk(v, n) { assert LockOk(w, n); }
    forall a, b | a in v.procs && b in v.procs && a != b ensures TempsApart(v, a, b) {
      if a != p && b != p { assert TempsApart(w, a, b); }
    }
    forall i | i in v.listening ensures ListenerOk(v, i) { assert ListenerOk(w, i); }
    SameSentinels(h, w, v);
    FewerSockets(w, v);
    OthersSteady(h, w, v, p);
  }

  // ----- every run

  lemma AdvanceKeeps(h: Name -> Hash, w: World, p: Pid, choice: nat)
    requires Invariant(h, w) && p in w.procs && Enabled(h, w, Advance(p, choice))
    ensures Invariant(h, AdvanceStep(h, w, p, choice))
  {
    match w.procs[p].pc {
      case Starting => AcquireKeeps(h, w, p);
      case CreateTemp => CreateTempKeeps(h, w, p, choice);
      case WriteTemp(temp) =>
        if w.files[temp] == w.procs[p].name { LinkKeeps(h, w, p, choice); } else { WriteTempKeeps(h, w, p, choice); }
      case DiscardTemp(_, _) => DiscardKeeps(h, w, p);
      case UnlinkStale => UnlinkKeeps(h, w, p);
      case UnlinkOwned(_) => UnlinkKeeps(h, w, p);
      case BindSocket => BindKeeps(h, w, p, choice);
      case ListenSocket(_) => ListenKeeps(h, w, p);
      case RecordSocket(_) => OwnedStatKeeps(h, w, p);
      case StatOwned(_) => OwnedStatKeeps(h, w, p);
      case ProbeSocket => ProbeKeeps(h, w, p);
      case ConnectSocket => ProbeKeeps(h, w, p);
      case StatStale => ProbeKeeps(h, w, p);
      case ClientStat => ClientStatKeeps(h, w, p);
      case ClientRead => ClientReadKeeps(h, w, p);
      case Refused(_) => EndKeeps(h, w, p);
      case Released => EndKeeps(h, w, p);
      case StatSocket => StatKeeps(h, w, p);
      case StatSentinel(_) => StatKeeps(h, w, p);
      case ReadSentinel => ReadKeeps(h, w, p);
      case CompareName(_) => ReadKeeps(h, w, p);
    }
  }

  lemma StepKeeps(h: Name -> Hash, w: World, a: Action)
    requires Invariant(h, w) && Enabled(h, w, a)
    ensures Invariant(h, Next(h, w, a))
  {
    match a {
      case Spawn(p, name, client) => SpawnKeeps(h, w, p, name, client);
      case Close(p) => CloseKeeps(h, w, p);
      case Die(p) => EndKeeps(h, w, p);
      case Advance(p, choice) => AdvanceKeeps(h, w, p, choice);
    }
  }

  /** The worlds of a run: each follows from the one before by an enabled action. */
  ghost predicate IsRun(h: Name -> Hash, ws: seq<World>, actions: seq<Action>) {
    && |ws| == |actions| + 1 && ws[0] == EMPTY
    && forall i :: 0 <= i < |actions| ==> Enabled(h, ws[i], actions[i]) && Next(h, ws[i], actions[i]) == ws[i + 1]
  }

  lemma {:induction false} RunKeeps(h: Name -> Hash, ws: seq<World>, actions: seq<Action>, i: nat)
    requires IsRun(h, ws, actions) && i < |ws|
    ensures Invariant(h, ws[i])
  {
    if i > 0 {
      RunKeeps(h, ws, actions, i - 1);
      StepKeeps(h, ws[i - 1], actions[i - 1]);
      assert Next(h, ws[i - 1], actions[i - 1]) == ws[i - 1 + 1];
    }
  }

  /** The process is bound, and listens or is about to. */
  predicate BoundHere(w: World, p: Pid) {
    p in w.procs && (w.procs[p].pc.ListenSocket? || w.procs[p].pc.RecordSocket? || w.procs[p].pc.Serving?)
  }

  /**
   * In every world of every run: at most one live owner is bound per socket path, the path entry is that
   * owner's own socket, open from its listening on, and the sentinel holds exactly that owner's name.
   */
  lemma OneOwnerPerPath(h: Name -> Hash, ws: seq<World>, actions: seq<Action>, i: nat, p: Pid, q: Pid)
    requires IsRun(h, ws, actions) && i < |ws| && BoundHere(ws[i], p)
    ensures var w, hash := ws[i], h(ws[i].procs[p].name);
            && SentinelIs(w, hash, w.procs[p].name)
            && hash in w.sockets && w.sockets[hash] == w.procs[p].pc.bound
            && (w.procs[p].pc.ListenSocket? || (w.sockets[hash] in w.listening && w.listening[w.sockets[hash]] == p))
            && (BoundHere(w, q) && h(w.procs[q].name) == hash ==> q == p)
  {
    RunKeeps(h, ws, actions, i);
    assert ProcessOk(h, ws[i], p);
    if BoundHere(ws[i], q) && h(ws[i].procs[q].name) == h(ws[i].procs[p].name) { AdmittedIsUnique(h, ws[i], p, q); }
  }

  lemma PublishKeepsSentinel(h: Name -> Hash, w: World, p: Pid, choice: nat, hash: Hash)
    requires Invariant(h, w) && p in w.procs && Enabled(h, w, Advance(p, choice)) && Publishing(w.procs[p].pc)
    ensures KeepsSentinel(w, PublishStep(h, w, p, choice), hash)
  {
    if hash in w.sentinels { assert SentinelOk(h, w, hash); }
    assert ProcessOk(h, w, p);
  }

  predicate SameFiles(w: World, v: World) {
    v.sentinels == w.sentinels && v.files == w.files
  }

  lemma ProbeKeepsFiles(h: Name -> Hash, w: World, p: Pid)
    requires p in w.procs
    ensures SameFiles(w, ProbeStep(h, w, p))
  {
  }

  lemma OwnKeepsFiles(h: Name -> Hash, w: World, p: Pid, choice: nat)
    requires p in w.procs
    ensures SameFiles(w, OwnStep(h, w, p, choice))
  {
  }

  lemma StartKeepsTables(h: Name -> Hash, w: World, p: Pid)
    requires p in w.procs
    requires w.procs[p].pc.Starting? || w.procs[p].pc.StatSocket? || w.procs[p].pc.StatSentinel?
    ensures SameFiles(w, FrontStep(h, w, p)) && FrontStep(h, w, p).sockets == w.sockets
  {
  }

  lemma ReadKeepsTables(h: Name -> Hash, w: World, p: Pid)
    requires p in w.procs
    requires !w.procs[p].pc.Starting? && !w.procs[p].pc.StatSocket? && !w.procs[p].pc.StatSentinel?
    ensures SameFiles(w, FrontStep(h, w, p)) && FrontStep(h, w, p).sockets == w.sockets
  {
  }

  lemma FrontKeepsTables(h: Name -> Hash, w: World, p: Pid)
    requires p in w.procs
    ensures SameFiles(w, FrontStep(h, w, p)) && FrontStep(h, w, p).sockets == w.sockets
  {
    if w.procs[p].pc.Starting? || w.procs[p].pc.StatSocket? || w.procs[p].pc.StatSentinel? {
      StartKeepsTables(h, w, p);
    } else {
      ReadKeepsTables(h, w, p);
    }
  }

  lemma StepKeepsSentinel(h: Name -> Hash, w: World, a: Action, hash: Hash)
    requires Invariant(h, w) && Enabled(h, w, a)
    ensures KeepsSentinel(w, Next(h, w, a), hash)
  {
    if a.Advance? && Publishing(w.procs[a.pid].pc) {
      PublishKeepsSentinel(h, w, a.pid, a.choice, hash);
    } else if a.Advance? {
      ProbeKeepsFiles(h, w, a.pid);
      OwnKeepsFiles(h, w, a.pid, a.choice);
      FrontKeepsTables(h, w, a.pid);
    }
  }

  /** A published sentinel holds one complete session name with that hash, and keeps it for the rest of the run. */
  lemma {:induction false} SentinelsNeverChange(h: Name -> Hash, ws: seq<World>, actions: seq<Action>, i: nat, j: nat,
                                                hash: Hash)
    requires IsRun(h, ws, actions) && i <= j < |ws| && hash in ws[i].sentinels
    ensures SentinelOk(h, ws[i], hash)
    ensures SentinelIs(ws[j], hash, ws[i].files[ws[i].sentinels[hash]])
    decreases j
  {
    RunKeeps(h, ws, actions, i);
    assert SentinelOk(h, ws[i], hash);
    if i < j {
      SentinelsNeverChange(h, ws, actions, i, j - 1, hash);
      RunKeeps(h, ws, actions, j - 1);
      StepKeepsSentinel(h, ws[j - 1], actions[j - 1], hash);
      assert Next(h, ws[j - 1], actions[j - 1]) == ws[j - 1 + 1];
    }
  }

  predicate Stands(w: World, v: World, q: Pid) {
    q in w.procs && q in v.procs && v.procs[q] == w.procs[q]
  }

  lemma PublishStands(h: Name -> Hash, w: World, p: Pid, choice: nat, q: Pid)
    requires p in w.procs && q in w.procs && p != q
    ensures Stands(w, PublishStep(h, w, p, choice), q)
  {
  }

  lemma ProbeStands(h: Name -> Hash, w: World, p: Pid, q: Pid)
    requires p in w.procs && q in w.procs && p != q
    ensures Stands(w, ProbeStep(h, w, p), q)
  {
  }

  lemma OwnStands(h: Name -> Hash, w: World, p: Pid, choice: nat, q: Pid)
    requires p in w.procs && q in w.procs && p != q
    ensures Stands(w, OwnStep(h, w, p, choice), q)
  {
  }

  lemma StartStands(h: Name -> Hash, w: World, p: Pid, q: Pid)
    requires p in w.procs && q in w.procs && p != q
    requires w.procs[p].pc.Starting? || w.procs[p].pc.StatSocket? || w.procs[p].pc.StatSentinel?
    ensures Stands(w, FrontStep(h, w, p), q)
  {
  }

  lemma ReadStands(h: Name -> Hash, w: World, p: Pid, q: Pid)
    requires p in w.procs && q in w.procs && p != q
    requires !w.procs[p].pc.Starting? && !w.procs[p].pc.StatSocket? && !w.procs[p].pc.StatSentinel?
    ensures Stands(w, FrontStep(h, w, p), q)
  {
  }

  lemma FrontStands(h: Name -> Hash, w: World, p: Pid, q: Pid)
    requires p in w.procs && q in w.procs && p != q
    ensures Stands(w, FrontStep(h, w, p), q)
  {
    if w.procs[p].pc.Starting? || w.procs[p].pc.StatSocket? || w.procs[p].pc.StatSentinel? {
      StartStands(h, w, p, q);
    } else {
      ReadStands(h, w, p, q);
    }
  }

  lemma OthersStand(h: Name -> Hash, w: World, a: Action, q: Pid)
    requires Enabled(h, w, a) && q in w.procs && a.pid != q
    ensures Stands(w, Next(h, w, a), q)
  {
    if a.Advance? {
      FrontStands(h, w, a.pid, q);
      PublishStands(h, w, a.pid, a.choice, q);
      ProbeStands(h, w, a.pid, q);
      OwnStands(h, w, a.pid, a.choice, q);
    }
  }

  /** No step of another process removes, replaces or silences a bound owner's socket. */
  lemma LiveSocketsSurvive(h: Name -> Hash, ws: seq<World>, actions: seq<Action>, i: nat, q: Pid)
    requires IsRun(h, ws, actions) && i < |actions| && BoundHere(ws[i], q) && actions[i].pid != q
    ensures BoundHere(ws[i + 1], q) && SameSocket(ws[i], ws[i + 1], h(ws[i].procs[q].name))
  {
    OneOwnerPerPath(h, ws, actions, i, q, q);
    assert Next(h, ws[i], actions[i]) == ws[i + 1];
    OthersStand(h, ws[i], actions[i], q);
    OneOwnerPerPath(h, ws, actions, i + 1, q, q);
    RunKeeps(h, ws, actions, i);
    RunKeeps(h, ws, actions, i + 1);
    assert ProcessOk(h, ws[i], q) && ProcessOk(h, ws[i + 1], q);
  }

  /** The entry is the same afterwards, or it is gone and nothing listened on it. */
  predicate LosesOnlyDead(w: World, v: World, hash: Hash) {
    hash in w.sockets ==>
      if hash in v.sockets then v.sockets[hash] == w.sockets[hash] else w.sockets[hash] !in w.listening
  }

  lemma PublishKeepsSockets(h: Name -> Hash, w: World, p: Pid, choice: nat)
    requires p in w.procs
    ensures PublishStep(h, w, p, choice).sockets == w.sockets
  {
  }

  lemma ProbeLosesOnlyDead(h: Name -> Hash, w: World, p: Pid, hash: Hash)
    requires p in w.procs && ProcessOk(h, w, p)
    ensures LosesOnlyDead(w, ProbeStep(h, w, p), hash)
  {
  }

  lemma OwnLosesOnlyDead(h: Name -> Hash, w: World, p: Pid, choice: nat, hash: Hash)
    requires p in w.procs && ProcessOk(h, w, p)
    ensures LosesOnlyDead(w, OwnStep(h, w, p, choice), hash)
  {
  }

  lemma StepLosesOnlyDead(h: Name -> Hash, w: World, a: Action, hash: Hash)
    requires Invariant(h, w) && Enabled(h, w, a)
    ensures LosesOnlyDead(w, Next(h, w, a), hash)
  {
    if a.Advance? {
      assert ProcessOk(h, w, a.pid);
      PublishKeepsSockets(h, w, a.pid, a.choice);
      FrontKeepsTables(h, w, a.pid);
      ProbeLosesOnlyDead(h, w, a.pid, hash);
      OwnLosesOnlyDead(h, w, a.pid, a.choice, hash);
    }
  }

  /** Only dead sockets are ever unlinked, and no path entry is ever replaced. */
  lemma OnlyDeadSocketsUnlinked(h: Name -> Hash, ws: seq<World>, actions: seq<Action>, i: nat, hash: Hash)
    requires IsRun(h, ws, actions) && i < |actions| && hash in ws[i].sockets
    ensures if hash in ws[i + 1].sockets then ws[i + 1].sockets[hash] == ws[i].sockets[hash]
            else ws[i].sockets[hash] !in ws[i].listening
  {
    RunKeeps(h, ws, actions, i);
    assert Next(h, ws[i], actions[i]) == ws[i + 1];
    StepLosesOnlyDead(h, ws[i], actions[i], hash);
  }

  /** An owner is refused input only when the sentinel names another session with the same hash. */
  lemma RefusedOnlyByCollision(h: Name -> Hash, ws: seq<World>, actions: seq<Action>, i: nat, p: Pid)
    requires IsRun(h, ws, actions) && i < |ws| && p in ws[i].procs && ws[i].procs[p].pc.Refused?
    ensures var name, reason := ws[i].procs[p].name, ws[i].procs[p].pc.reason;
            reason.Collision? && reason.found != name && h(reason.found) == h(name)
                && SentinelIs(ws[i], h(name), reason.found)
  {
    RunKeeps(h, ws, actions, i);
    assert ProcessOk(h, ws[i], p);
    assert SentinelOk(h, ws[i], h(ws[i].procs[p].name));
  }

  /** An orderly shutdown leaves the path free until the owner's lock is released. */
  lemma ShutdownFreesPath(h: Name -> Hash, ws: seq<World>, actions: seq<Action>, i: nat, p: Pid)
    requires IsRun(h, ws, actions) && i < |ws| && p in ws[i].procs && ws[i].procs[p].pc.Released?
    ensures h(ws[i].procs[p].name) !in ws[i].sockets && ws[i].procs[p].name in ws[i].locks
  {
    RunKeeps(h, ws, actions, i);
    assert ProcessOk(h, ws[i], p);
  }

  /** Once a client has resolved an endpoint, only an owner of the client's own session is ever bound there. */
  lemma ResolvedEndpointIsOurs(h: Name -> Hash, ws: seq<World>, actions: seq<Action>, i: nat, j: nat, client: Pid,
                               owner: Pid)
    requires IsRun(h, ws, actions) && i <= j < |ws|
    requires client in ws[i].procs && ws[i].procs[client].pc.ClientAvailable?
    requires BoundHere(ws[j], owner) && h(ws[j].procs[owner].name) == h(ws[i].procs[client].name)
    ensures ws[j].procs[owner].name == ws[i].procs[client].name
  {
    RunKeeps(h, ws, actions, i);
    assert ProcessOk(h, ws[i], client);
    SentinelsNeverChange(h, ws, actions, i, j, h(ws[i].procs[client].name));
    OneOwnerPerPath(h, ws, actions, j, owner, owner);
  }
}
