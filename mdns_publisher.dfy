/**
 * The mDNS / DNS-SD service publisher of the border router.
 *
 * The publisher either runs its own mDNS responder ("server" mode) or registers with the
 * Avahi daemon of the host ("client" mode). It owns an event loop (a "poll"), one connection
 * per mode and one record group per mode, and it reacts to the state changes the discovery
 * engine reports: it creates and commits the service record, renames the service on a name
 * collision (section 9 of RFC 6762), stops the loop on fatal failures, falls back from server
 * to client mode when the responder's host name collides, and re-announces the service
 * every time its periodic timer fires.
 *
 * The discovery engine is an abstract collaborator. Its answers (does creating a poll, a
 * connection or a group succeed, is an added record accepted, is a commit accepted, is a TXT
 * update accepted, which events arrive) come from a Script of outcome queues; an exhausted
 * queue answers "success" and an exhausted event queue ends the loop. The engine's alternative
 * name generator is an arbitrary function fixed when the publisher is built. The calls that
 * create, change or release something are recorded in a ghost log; the queries (is a group
 * empty, which state a connection is in, the alternative name) read the model's state or the
 * name generator and are not logged.
 */
module Mdns {

  datatype Option<T> = None | Some(value: T)

  newtype uint16 = x: int | 0 <= x < 0x1_0000

  /** The publisher's return codes, in the order (and so with the values 0..8) of the source's enum. */
  datatype Status =
    | OK
    | FailedCreateServer
    | FailedCreatePoll
    | FailedFreePoll
    | FailedCreateGroup
    | FailedAddService
    | FailedRegisterService
    | FailedUpdateService
    | FailedCreateClient

  datatype Mode = ServerMode | ClientMode

  /** A connection pointer: NULL, pointing to a live connection, or pointing to one already freed. */
  datatype Conn = NullConn | LiveConn | FreedConn

  /**
   * A record-group pointer: NULL, or a live group that is empty, holds records not yet
   * committed, or is committed; or a non-NULL pointer to a group already freed.
   */
  datatype Group = NoGroup | Empty | Pending | Committed | FreedGroup

  datatype ServerState = ServerInvalid | ServerRegistering | ServerRunning | ServerCollision | ServerFailure
  datatype ClientState = ClientConnecting | ClientRegistering | ClientRunning | ClientCollision | ClientFailure
  datatype GroupState = GroupUncommitted | GroupRegistering | GroupEstablished | GroupCollision | GroupFailure

  /** What the engine can deliver to the running loop. */
  datatype Event =
    | ServerChanged(serverState: ServerState)
    | ClientChanged(clientState: ClientState)
    | ServerGroupChanged(serverGroupState: GroupState)
    | ClientGroupChanged(clientGroupState: GroupState)
    | TimerFired

  /** The service record handed to the engine: name, type, port and the two TXT strings. */
  datatype Record = Record(
    name: Option<string>, serviceType: Option<string>, port: uint16,
    networkNameTxt: Option<string>, extPanIdTxt: Option<string>)

  /** One call into the discovery engine, with its outcome where it has one. */
  datatype Call =
    | PollNew(pollOk: bool)
    | PollQuit(quitPoll: nat)
    | PollFree(freedPoll: nat)
    | TimerArmed(timerPoll: nat)
    | ConnNew(newMode: Mode, connOk: bool)
    | ConnFree(freedMode: Mode)
    | GroupNew(groupMode: Mode, groupOk: bool)
    | GroupAdd(addMode: Mode, record: Record, added: bool)
    | GroupCommit(commitMode: Mode, committed: bool)
    | GroupReset(resetMode: Mode)
    | GroupFree(groupFreedMode: Mode)
    | TxtUpdate(updateMode: Mode, updated: Record, updateOk: bool)

  /** The engine's answers, consumed front to back. */
  datatype Script = Script(
    pollNew: seq<bool>, connNew: seq<bool>, groupNew: seq<bool>,
    add: seq<bool>, commit: seq<bool>, updateTxt: seq<bool>, events: seq<Event>)

  /** The next answer of a queue: success once the queue is exhausted. */
  function Next(q: seq<bool>): bool {
    q == [] || q[0]
  }

  function Rest(q: seq<bool>): (r: seq<bool>)
    ensures |r| == if q == [] then 0 else |q| - 1
  {
    if q == [] then [] else q[1..]
  }

  function Drop(q: seq<bool>, n: nat): seq<bool> {
    if n >= |q| then [] else q[n..]
  }

  /** How many answers at the front of a queue are failures. */
  function LeadingFailures(q: seq<bool>): (k: nat)
    ensures k <= |q|
    ensures forall i :: 0 <= i < k ==> !q[i]
    ensures k < |q| ==> q[k]
  {
    if q == [] || q[0] then 0 else 1 + LeadingFailures(q[1..])
  }

  /** f applied k times to x. */
  function Iterate<T>(f: T -> T, k: nat, x: T): T {
    if k == 0 then x else Iterate(f, k - 1, f(x))
  }

  /** The value of every field of a publisher, together with the engine's state. */
  datatype State = State(
    serverGroup: Group, clientGroup: Group, simplePoll: nat, server: Conn, client: Conn,
    serviceName: Option<string>, serviceType: Option<string>, port: uint16,
    networkNameTxt: Option<string>, extPanIdTxt: Option<string>,
    script: Script, serverState: ServerState, clientState: ClientState,
    nextPoll: nat, quit: seq<bool>, armed: multiset<nat>, log: seq<Call>)

  /**
   * Poll ids are 1, 2, ... in order of creation (0 is NULL); quit[p] tells whether poll p
   * was told to quit, for every id handed out so far.
   */
  predicate ValidState(st: State) {
    0 < st.nextPoll && st.simplePoll < st.nextPoll && |st.quit| == st.nextPoll
  }

  /** What a record-group handler never changes. */
  predicate Keeps(st: State, r: State) {
    && r.simplePoll == st.simplePoll && r.server == st.server && r.client == st.client
    && r.serverState == st.serverState && r.clientState == st.clientState
    && r.serviceType == st.serviceType && r.port == st.port
    && r.networkNameTxt == st.networkNameTxt && r.extPanIdTxt == st.extPanIdTxt
    && r.script.pollNew == st.script.pollNew && r.script.connNew == st.script.connNew
    && r.script.updateTxt == st.script.updateTxt && r.script.events == st.script.events
    && r.nextPoll == st.nextPoll && |r.quit| == |st.quit|
  }

  /** Engine calls are never taken back. */
  predicate Grows(st: State, r: State) {
    st.log <= r.log
  }

  function Advertised(st: State): Record {
    Record(st.serviceName, st.serviceType, st.port, st.networkNameTxt, st.extPanIdTxt)
  }

  function AfterReset(g: Group): Group {
    if g == FreedGroup then FreedGroup else Empty
  }

  function AfterAdd(g: Group): Group {
    if g == FreedGroup then FreedGroup else Pending
  }

  function AfterCommit(g: Group): Group {
    if g == FreedGroup then FreedGroup else Committed
  }

  function AfterRelease(g: Group): Group {
    if g == NoGroup then NoGroup else FreedGroup
  }

  /** The quit flags once poll p is told to quit. */
  function QuitPoll(quit: seq<bool>, p: nat): (r: seq<bool>)
    ensures |r| == |quit|
    ensures p < |quit| ==> r[p]
    ensures forall q :: 0 <= q < |quit| && q != p ==> r[q] == quit[q]
  {
    if p < |quit| then quit[p := true] else quit
  }

  /** avahi_simple_poll_quit on the current poll. */
  function RequestQuit(st: State): (r: State)
    ensures Keeps(st, r) && Grows(st, r) && r.quit == QuitPoll(st.quit, st.simplePoll)
    ensures r == st.(quit := r.quit, log := st.log + [PollQuit(st.simplePoll)])
    ensures ValidState(st) ==> ValidState(r)
  {
    st.(quit := QuitPoll(st.quit, st.simplePoll), log := st.log + [PollQuit(st.simplePoll)])
  }

  /** A new periodic timer on the current poll. */
  function ArmTimer(st: State): State {
    st.(armed := st.armed + multiset{st.simplePoll}, log := st.log + [TimerArmed(st.simplePoll)])
  }

  /** Resets the group of one mode when there is one. */
  function ResetGroup(st: State, mode: Mode): (r: State)
    ensures Keeps(st, r) && Grows(st, r) && r.quit == st.quit && r.armed == st.armed
    ensures r.serviceName == st.serviceName && r.script == st.script
    ensures mode == ServerMode ==> r.clientGroup == st.clientGroup
    ensures mode == ClientMode ==> r.serverGroup == st.serverGroup
  {
    match mode
    case ServerMode =>
      if st.serverGroup == NoGroup then st
      else st.(serverGroup := AfterReset(st.serverGroup), log := st.log + [GroupReset(ServerMode)])
    case ClientMode =>
      if st.clientGroup == NoGroup then st
      else st.(clientGroup := AfterReset(st.clientGroup), log := st.log + [GroupReset(ClientMode)])
  }

  /** The service renamed to the engine's alternative for its current name. */
  function Renamed(alt: string -> string, st: State): (r: State)
    requires st.serviceName.Some?
    ensures r.serviceName == Some(alt(st.serviceName.value))
  {
    st.(serviceName := Some(alt(st.serviceName.value)))
  }

  /** The calls of k rejected adds in client mode: each add is followed by a reset, and each retry uses the next alternative name. */
  function RenameCalls(alt: string -> string, rec: Record, k: nat): (calls: seq<Call>)
    requires rec.name.Some?
    ensures |calls| == 2 * k
    decreases k
  {
    if k == 0 then []
    else [GroupAdd(ClientMode, rec, false), GroupReset(ClientMode)]
         + RenameCalls(alt, rec.(name := Some(alt(rec.name.value))), k - 1)
  }

  /** The i-th rejected add uses the name the alternative-name generator gives after i steps. */
  lemma {:induction false} RenameCallsAt(alt: string -> string, rec: Record, k: nat, i: nat)
    requires rec.name.Some? && i < k
    ensures RenameCalls(alt, rec, k)[2 * i]
         == GroupAdd(ClientMode, rec.(name := Some(Iterate(alt, i, rec.name.value))), false)
    ensures RenameCalls(alt, rec, k)[2 * i + 1] == GroupReset(ClientMode)
    decreases i
  {
    if i > 0 {
      RenameCallsAt(alt, rec.(name := Some(alt(rec.name.value))), k - 1, i - 1);
    }
  }

  // ---------------------------------------------------------------------------------------
  // CreateService: the two overloads
  // ---------------------------------------------------------------------------------------

  /**
   * CreateService in client mode: create the group when there is none, and add and commit
   * the service only when the group is empty. A rejected add renames the service, resets
   * the group and tries again; a rejected commit stops the loop; a failed group creation
   * is returned and nothing else happens.
   */
  function CreateOnClient(alt: string -> string, st: State): (r: (State, Status))
    requires st.serviceName.Some?
    ensures Keeps(st, r.0) && Grows(st, r.0)
    ensures r.0.armed == st.armed && r.0.serverGroup == st.serverGroup && r.0.serviceName.Some?
    ensures ValidState(st) ==> ValidState(r.0)
    decreases |st.script.add|
  {
    if st.clientGroup == NoGroup && !Next(st.script.groupNew) then
      (st.(script := st.script.(groupNew := Rest(st.script.groupNew)),
           log := st.log + [GroupNew(ClientMode, false)]), FailedCreateGroup)
    else
      var st1 :=
        if st.clientGroup == NoGroup then
          st.(clientGroup := Empty, script := st.script.(groupNew := Rest(st.script.groupNew)),
              log := st.log + [GroupNew(ClientMode, true)])
        else st;
      if st1.clientGroup != Empty then (st1, OK)
      else
        if !Next(st1.script.add) then
          (CreateOnClient(alt, AfterRejectedAdd(alt, st1)).0, FailedAddService)
        else
          CommitClient(st1.(script := st1.script.(add := Rest(st1.script.add)),
                                   log := st1.log + [GroupAdd(ClientMode, Advertised(st1), true)]))
  }

  /**
   * The cases of CreateService in client mode that make no add: a group that is neither
   * absent nor empty is left alone and OK is returned; a failed group creation is returned
   * at once, with no rename and no quit request.
   */
  lemma ClientCreateWithoutAdd(alt: string -> string, st: State)
    requires st.serviceName.Some?
    ensures st.clientGroup !in {NoGroup, Empty} ==> CreateOnClient(alt, st) == (st, OK)
    ensures st.clientGroup == NoGroup && !Next(st.script.groupNew) ==>
              var r := CreateOnClient(alt, st);
              && r.1 == FailedCreateGroup && r.0.clientGroup == NoGroup
              && r.0.serviceName == st.serviceName && r.0.quit == st.quit
              && r.0.log == st.log + [GroupNew(ClientMode, false)]
  {
  }

  /** The commit that follows an accepted add in client mode; a rejected commit stops the loop. */
  function CommitClient(st: State): (State, Status) {
    var committed := Next(st.script.commit);
    var st1 := st.(clientGroup := if committed then Committed else Pending,
                   script := st.script.(commit := Rest(st.script.commit)),
                   log := st.log + [GroupCommit(ClientMode, committed)]);
    if committed then (st1, OK) else (RequestQuit(st1), FailedRegisterService)
  }

  /**
   * After k rejected adds (k = the leading failures of the add queue) the service carries
   * the k-th alternative name, and the group holds one accepted add and one commit. The
   * call reports FailedAddService whenever at least one add was rejected, even though the
   * retry went through; a rejected commit requests loop quit.
   */
  lemma {:induction false} ClientCollisionsRename(alt: string -> string, st: State)
    requires st.serviceName.Some? && st.clientGroup == Empty
    ensures
      var r := CreateOnClient(alt, st);
      var k := LeadingFailures(st.script.add);
      var committed := Next(st.script.commit);
      && r.0.serviceName == Some(Iterate(alt, k, st.serviceName.value))
      && r.0.clientGroup == (if committed then Committed else Pending)
      && r.0.script.add == Drop(st.script.add, k + 1)
      && r.0.script.commit == Rest(st.script.commit)
      && r.0.script.groupNew == st.script.groupNew
      && r.0.quit == (if committed then st.quit else QuitPoll(st.quit, st.simplePoll))
      && r.1 == (if k > 0 then FailedAddService else if committed then OK else FailedRegisterService)
    decreases |st.script.add|
  {
    if !Next(st.script.add) {
      var k := LeadingFailures(st.script.add);
      var retry := AfterRejectedAdd(alt, st);
      RejectedAddStep(alt, st);
      ClientCollisionsRename(alt, retry);
      RejectedAnswerShifts(st.script.add, k);
      IterateFirst(alt, k - 1, st.serviceName.value);
    } else {
      assert CreateOnClient(alt, st)
          == CommitClient(st.(script := st.script.(add := Rest(st.script.add)),
                              log := st.log + [GroupAdd(ClientMode, Advertised(st), true)]));
    }
  }

  /**
   * The calls of a client-mode CreateService on an empty group that meets k rejected adds:
   * each rejected add and the reset after it, then the accepted add under the k-th
   * alternative name and the commit, and a quit request when the commit is rejected.
   */
  function CollisionCalls(alt: string -> string, rec: Record, k: nat, committed: bool, poll: nat): (calls: seq<Call>)
    requires rec.name.Some?
    ensures |calls| == 2 * k + (if committed then 2 else 3)
    decreases k
  {
    if k == 0 then
      [GroupAdd(ClientMode, rec, true), GroupCommit(ClientMode, committed)]
      + (if committed then [] else [PollQuit(poll)])
    else
      [GroupAdd(ClientMode, rec, false), GroupReset(ClientMode)]
      + CollisionCalls(alt, rec.(name := Some(alt(rec.name.value))), k - 1, committed, poll)
  }

  /** CollisionCalls is the k rename rounds followed by the accepted add under the k-th name. */
  lemma {:induction false} CollisionCallsSplit(alt: string -> string, rec: Record, k: nat, committed: bool, poll: nat)
    requires rec.name.Some?
    ensures CollisionCalls(alt, rec, k, committed, poll)
         == RenameCalls(alt, rec, k)
            + [GroupAdd(ClientMode, rec.(name := Some(Iterate(alt, k, rec.name.value))), true),
               GroupCommit(ClientMode, committed)]
            + (if committed then [] else [PollQuit(poll)])
    decreases k
  {
    if k > 0 {
      var next := rec.(name := Some(alt(rec.name.value)));
      CollisionCallsSplit(alt, next, k - 1, committed, poll);
      IterateFirst(alt, k - 1, rec.name.value);
      assert next.(name := Some(Iterate(alt, k - 1, next.name.value)))
          == rec.(name := Some(Iterate(alt, k, rec.name.value)));
    }
  }

  /**
   * The calls behind ClientCollisionsRename: each rejected add is followed by a reset of
   * the group, the retry adds under the next alternative name, and the one accepted add
   * carries the final name and is followed by one commit (and a quit request when the
   * commit is rejected).
   */
  lemma {:induction false} ClientCollisionsLog(alt: string -> string, st: State)
    requires st.serviceName.Some? && st.clientGroup == Empty
    ensures CreateOnClient(alt, st).0.log
         == st.log + CollisionCalls(alt, Advertised(st), LeadingFailures(st.script.add),
                                    Next(st.script.commit), st.simplePoll)
    decreases |st.script.add|
  {
    if !Next(st.script.add) {
      var k := LeadingFailures(st.script.add);
      var retry := AfterRejectedAdd(alt, st);
      RejectedAddStep(alt, st);
      ClientCollisionsLog(alt, retry);
      RejectedAnswerShifts(st.script.add, k);
      var rejected := [GroupAdd(ClientMode, Advertised(st), false), GroupReset(ClientMode)];
      var rest := CollisionCalls(alt, Advertised(retry), k - 1, Next(st.script.commit), st.simplePoll);
      assert CollisionCalls(alt, Advertised(st), k, Next(st.script.commit), st.simplePoll) == rejected + rest;
      assert st.log + rejected + rest == st.log + (rejected + rest);
    } else {
      AcceptedAddStep(alt, st);
    }
  }

  lemma AcceptedAddStep(alt: string -> string, st: State)
    requires st.serviceName.Some? && st.clientGroup == Empty && Next(st.script.add)
    ensures
      var committed := Next(st.script.commit);
      CreateOnClient(alt, st).0.log
        == st.log + [GroupAdd(ClientMode, Advertised(st), true), GroupCommit(ClientMode, committed)]
           + (if committed then [] else [PollQuit(st.simplePoll)])
  {
  }

  /** The state CreateService retries with after the engine rejected an add in client mode. */
  function AfterRejectedAdd(alt: string -> string, st: State): (r: State)
    requires st.serviceName.Some?
    ensures r.serviceName == Some(alt(st.serviceName.value))
    ensures Advertised(r) == Advertised(st).(name := r.serviceName)
    ensures r.log == st.log + [GroupAdd(ClientMode, Advertised(st), false), GroupReset(ClientMode)]
    ensures |r.script.add| < |st.script.add| || st.script.add == []
  {
    st.(serviceName := Some(alt(st.serviceName.value)),
        script := st.script.(add := Rest(st.script.add)),
        log := st.log + [GroupAdd(ClientMode, Advertised(st), false), GroupReset(ClientMode)])
  }

  lemma RejectedAddStep(alt: string -> string, st: State)
    requires st.serviceName.Some? && st.clientGroup == Empty && !Next(st.script.add)
    ensures CreateOnClient(alt, st) == (CreateOnClient(alt, AfterRejectedAdd(alt, st)).0, FailedAddService)
    ensures AfterRejectedAdd(alt, st).script == st.script.(add := Rest(st.script.add))
    ensures AfterRejectedAdd(alt, st).clientGroup == Empty
  {
  }

  /** A rejected answer at the front shifts the count of leading failures by one. */
  lemma RejectedAnswerShifts(q: seq<bool>, k: nat)
    requires !Next(q) && k == LeadingFailures(q)
    ensures k > 0 && LeadingFailures(Rest(q)) == k - 1
    ensures Drop(Rest(q), k) == Drop(q, k + 1)
  {
  }

  lemma IterateFirst<T>(f: T -> T, k: nat, x: T)
    ensures Iterate(f, k + 1, x) == Iterate(f, k, f(x))
  {
  }

  /**
   * CreateService in server mode: create the group when there is none, then add and commit
   * the service whatever the group holds. Every failure (group creation, add, commit) is
   * fatal: it requests loop quit, and the service is never renamed here.
   */
  function CreateOnServer(st: State): (r: (State, Status))
    requires st.serviceName.Some?
    ensures Keeps(st, r.0) && Grows(st, r.0)
    ensures r.0.armed == st.armed && r.0.clientGroup == st.clientGroup
    ensures r.0.serviceName == st.serviceName
    ensures ValidState(st) ==> ValidState(r.0)
  {
    if st.serverGroup == NoGroup && !Next(st.script.groupNew) then
      (RequestQuit(st.(script := st.script.(groupNew := Rest(st.script.groupNew)),
                       log := st.log + [GroupNew(ServerMode, false)])), FailedCreateGroup)
    else
      var st1 :=
        if st.serverGroup == NoGroup then
          st.(serverGroup := Empty, script := st.script.(groupNew := Rest(st.script.groupNew)),
              log := st.log + [GroupNew(ServerMode, true)])
        else st;
      AddServer(st1)
  }

  /**
   * The outcome of CreateService in server mode: the first rejected step picks the error;
   * every error requests loop quit as the last call; success leaves the accepted add and
   * the commit as the last two calls, and a group that is neither absent nor pending.
   */
  lemma ServerCreateOutcome(st: State)
    requires st.serviceName.Some?
    ensures
      var r := CreateOnServer(st);
      && r.1 == (if st.serverGroup == NoGroup && !Next(st.script.groupNew) then FailedCreateGroup
                 else if !Next(st.script.add) then FailedAddService
                 else if !Next(st.script.commit) then FailedRegisterService
                 else OK)
      && (r.1 != OK ==> r.0.quit == QuitPoll(st.quit, st.simplePoll)
                        && |r.0.log| >= 1 && r.0.log[|r.0.log| - 1] == PollQuit(st.simplePoll))
      && (r.1 == OK ==> r.0.quit == st.quit && r.0.serverGroup in {Committed, FreedGroup}
                        && |r.0.log| >= 2
                        && r.0.log[|r.0.log| - 2..] == [GroupAdd(ServerMode, Advertised(st), true), GroupCommit(ServerMode, true)])
  {
  }

  /** The add-and-commit half of CreateService in server mode; each rejection stops the loop. */
  function AddServer(st: State): (State, Status) {
    var added := Next(st.script.add);
    var st1 := st.(script := st.script.(add := Rest(st.script.add)),
                   log := st.log + [GroupAdd(ServerMode, Advertised(st), added)]);
    if !added then (RequestQuit(st1), FailedAddService) else CommitServer(st1)
  }

  /** The commit that follows an accepted add in server mode. */
  function CommitServer(st: State): (State, Status) {
    var committed := Next(st.script.commit);
    var st1 := st.(serverGroup := AfterAdd(st.serverGroup),
                   script := st.script.(commit := Rest(st.script.commit)),
                   log := st.log + [GroupCommit(ServerMode, committed)]);
    if !committed then (RequestQuit(st1), FailedRegisterService)
    else (st1.(serverGroup := AfterCommit(st1.serverGroup)), OK)
  }

  // ---------------------------------------------------------------------------------------
  // Reactions to engine events
  // ---------------------------------------------------------------------------------------

  /** HandleClientStart: RUNNING creates the service, FAILURE stops the loop, COLLISION and REGISTERING reset the group. */
  function ClientReaction(alt: string -> string, st: State, s: ClientState): (r: State)
    requires st.serviceName.Some?
    ensures Grows(st, r) && r.serviceName.Some?
    ensures ValidState(st) ==> ValidState(r)
    ensures Keeps(st, r) && r.armed == st.armed && r.serverGroup == st.serverGroup
    ensures s == ClientRunning ==> r == CreateOnClient(alt, st).0
    ensures s == ClientFailure ==> r == RequestQuit(st)
    ensures s in {ClientCollision, ClientRegistering} ==> r == ResetGroup(st, ClientMode)
    ensures s == ClientConnecting ==> r == st
  {
    match s
    case ClientRunning => CreateOnClient(alt, st).0
    case ClientFailure => RequestQuit(st)
    case ClientCollision => ResetGroup(st, ClientMode)
    case ClientRegistering => ResetGroup(st, ClientMode)
    case ClientConnecting => st
  }

  /** HandleServerStart for every state but COLLISION (which restarts in client mode). */
  function ServerReaction(st: State, s: ServerState): (r: State)
    requires st.serviceName.Some? && s != ServerCollision
    ensures Grows(st, r) && r.serviceName == st.serviceName
    ensures ValidState(st) ==> ValidState(r)
    ensures Keeps(st, r) && r.armed == st.armed && r.clientGroup == st.clientGroup
    ensures s == ServerRunning && st.serverGroup != NoGroup ==> r == st
    ensures s == ServerRunning && st.serverGroup == NoGroup ==> r == CreateOnServer(st).0
    ensures s == ServerFailure ==> r == RequestQuit(st)
    ensures s == ServerRegistering ==> r == ResetGroup(st, ServerMode)
    ensures s == ServerInvalid ==> r == st
  {
    match s
    case ServerRunning => if st.serverGroup == NoGroup then CreateOnServer(st).0 else st
    case ServerRegistering => ResetGroup(st, ServerMode)
    case ServerFailure => RequestQuit(st)
    case ServerInvalid => st
  }

  /** HandleEntryGroupStart, client overload: COLLISION renames and calls CreateService, FAILURE stops the loop. */
  function ClientGroupReaction(alt: string -> string, st: State, g: GroupState): (r: State)
    requires st.serviceName.Some?
    ensures Grows(st, r) && r.serviceName.Some?
    ensures ValidState(st) ==> ValidState(r)
    ensures Keeps(st, r) && r.armed == st.armed && r.serverGroup == st.serverGroup
    ensures g == GroupFailure ==> r == RequestQuit(st)
    ensures g in {GroupUncommitted, GroupRegistering, GroupEstablished} ==> r == st
  {
    match g
    case GroupCollision => CreateOnClient(alt, Renamed(alt, st)).0
    case GroupFailure => RequestQuit(st)
    case _ => st
  }

  /** HandleEntryGroupStart, server overload: COLLISION renames and calls CreateService, FAILURE stops the loop. */
  function ServerGroupReaction(alt: string -> string, st: State, g: GroupState): (r: State)
    requires st.serviceName.Some?
    ensures Grows(st, r) && r.serviceName.Some?
    ensures ValidState(st) ==> ValidState(r)
    ensures Keeps(st, r) && r.armed == st.armed && r.clientGroup == st.clientGroup
    ensures g == GroupFailure ==> r == RequestQuit(st)
    ensures g == GroupCollision ==> r.serviceName == Some(alt(st.serviceName.value))
    ensures g in {GroupUncommitted, GroupRegistering, GroupEstablished} ==> r == st
  {
    match g
    case GroupCollision => CreateOnServer(Renamed(alt, st)).0
    case GroupFailure => RequestQuit(st)
    case _ => st
  }

  function ServerRunningNow(st: State): bool {
    st.server != NullConn && st.serverState == ServerRunning
  }

  function ClientRunningNow(st: State): bool {
    st.client != NullConn && st.clientState == ClientRunning
  }

  /**
   * HandleServicePublish: for each mode whose connection is non-NULL and running, reset the
   * group if there is one, create the service again and arm one new timer.
   */
  function Publish(alt: string -> string, st: State): (r: State)
    requires st.serviceName.Some?
    ensures Grows(st, r) && r.serviceName.Some?
    ensures ValidState(st) ==> ValidState(r)
    ensures r.simplePoll == st.simplePoll && r.server == st.server && r.client == st.client
    ensures r.script.events == st.script.events && r.nextPoll == st.nextPoll
  {
    RepublishClient(alt, RepublishServer(st))
  }

  /** The server half of a firing. */
  function RepublishServer(st: State): State
    requires st.serviceName.Some?
  {
    if ServerRunningNow(st) then ArmTimer(CreateOnServer(ResetGroup(st, ServerMode)).0) else st
  }

  /** The client half of a firing. */
  function RepublishClient(alt: string -> string, st: State): State
    requires st.serviceName.Some?
  {
    if ClientRunningNow(st) then ArmTimer(CreateOnClient(alt, ResetGroup(st, ClientMode)).0) else st
  }

  /** Every firing re-arms one timer per running mode, and a firing with neither mode running changes nothing. */
  lemma PublishArmsOneTimerPerRunningMode(alt: string -> string, st: State)
    requires st.serviceName.Some?
    ensures
      var n: nat := (if ServerRunningNow(st) then 1 else 0) + (if ClientRunningNow(st) then 1 else 0);
      && Publish(alt, st).armed[st.simplePoll] == st.armed[st.simplePoll] + n
      && forall q :: q != st.simplePoll ==> Publish(alt, st).armed[q] == st.armed[q]
    ensures !ServerRunningNow(st) && !ClientRunningNow(st) ==> Publish(alt, st) == st
  {
  }

  /**
   * The reset that precedes re-creation comes first in each half of a firing: the server
   * group's reset is the firing's first call, and the client group's reset is the first
   * call after the server half (which is empty when the responder is not running).
   */
  lemma PublishResetsBeforeRecreating(alt: string -> string, st: State)
    requires st.serviceName.Some?
    ensures ServerRunningNow(st) && st.serverGroup != NoGroup ==>
              |Publish(alt, st).log| > |st.log| && Publish(alt, st).log[|st.log|] == GroupReset(ServerMode)
    ensures !ServerRunningNow(st) ==> RepublishServer(st) == st
    ensures
      var mid := RepublishServer(st).log;
      && st.log <= mid <= Publish(alt, st).log
      && (ClientRunningNow(st) && st.clientGroup != NoGroup ==>
            |Publish(alt, st).log| > |mid| && Publish(alt, st).log[|mid|] == GroupReset(ClientMode))
  {
    if ServerRunningNow(st) && st.serverGroup != NoGroup {
      var st0 := ResetGroup(st, ServerMode);
      assert st0.log == st.log + [GroupReset(ServerMode)];
      assert st0.log <= Publish(alt, st).log;
    }
    var mid := RepublishServer(st);
    assert mid.clientGroup == st.clientGroup && ClientRunningNow(mid) == ClientRunningNow(st);
    if ClientRunningNow(st) && st.clientGroup != NoGroup {
      var st0 := ResetGroup(mid, ClientMode);
      assert st0.log == mid.log + [GroupReset(ClientMode)];
      assert st0.log <= Publish(alt, st).log;
    }
  }

  /**
   * UpdateService: replace the TXT record in place, in the server group if there is one,
   * otherwise in the client group; with no group it reports success and calls nothing.
   */
  function Update(st: State): (r: (State, Status))
    ensures r.1 == OK || r.1 == FailedUpdateService
    ensures st.serverGroup == NoGroup && st.clientGroup == NoGroup ==> r == (st, OK)
    ensures st.serverGroup != NoGroup ==>
              r.0.log == st.log + [TxtUpdate(ServerMode, Advertised(st), r.1 == OK)]
    ensures st.serverGroup == NoGroup && st.clientGroup != NoGroup ==>
              r.0.log == st.log + [TxtUpdate(ClientMode, Advertised(st), r.1 == OK)]
    ensures r.1 == OK <==> Next(st.script.updateTxt) || (st.serverGroup == NoGroup && st.clientGroup == NoGroup)
    ensures st.serverGroup != NoGroup || st.clientGroup != NoGroup ==>
              r.0.script == st.script.(updateTxt := Rest(st.script.updateTxt))
    ensures r.0 == st.(script := r.0.script, log := r.0.log)
  {
    if st.serverGroup == NoGroup && st.clientGroup == NoGroup then (st, OK)
    else
      var mode := if st.serverGroup != NoGroup then ServerMode else ClientMode;
      var ok := Next(st.script.updateTxt);
      (st.(script := st.script.(updateTxt := Rest(st.script.updateTxt)),
           log := st.log + [TxtUpdate(mode, Advertised(st), ok)]),
       if ok then OK else FailedUpdateService)
  }

  /** A single release when it happens, none otherwise. */
  function Once(happens: bool, c: Call): seq<Call> {
    if happens then [c] else []
  }

  lemma OnceCount(happens: bool, c: Call, x: Call)
    ensures multiset(Once(happens, c))[x] == if happens && c == x then 1 else 0
  {
  }

  /** The calls Free makes: one release per non-NULL handle, in the order of the source. */
  function FreeCalls(server: Conn, client: Conn, poll: nat, serverGroup: Group, clientGroup: Group): seq<Call> {
    Once(server != NullConn, ConnFree(ServerMode))
    + Once(client != NullConn, ConnFree(ClientMode))
    + Once(poll != 0, PollFree(poll))
    + Once(serverGroup != NoGroup, GroupFree(ServerMode))
    + Once(clientGroup != NoGroup, GroupFree(ClientMode))
  }

  /** Occurrences in five concatenated call lists add up. */
  lemma CountOfConcat(a: seq<Call>, b: seq<Call>, c: seq<Call>, d: seq<Call>, e: seq<Call>, x: Call)
    ensures multiset(a + b + c + d + e)[x]
         == multiset(a)[x] + multiset(b)[x] + multiset(c)[x] + multiset(d)[x] + multiset(e)[x]
  {
    assert multiset(a + b + c + d + e) == multiset(a) + multiset(b) + multiset(c) + multiset(d) + multiset(e);
  }

  /** How often Free releases a given handle. */
  lemma FreeCallsCount(server: Conn, client: Conn, poll: nat, serverGroup: Group, clientGroup: Group, x: Call)
    ensures multiset(FreeCalls(server, client, poll, serverGroup, clientGroup))[x]
         == (if server != NullConn && x == ConnFree(ServerMode) then 1 else 0)
          + (if client != NullConn && x == ConnFree(ClientMode) then 1 else 0)
          + (if poll != 0 && x == PollFree(poll) then 1 else 0)
          + (if serverGroup != NoGroup && x == GroupFree(ServerMode) then 1 else 0)
          + (if clientGroup != NoGroup && x == GroupFree(ClientMode) then 1 else 0)
  {
    CountOfConcat(Once(server != NullConn, ConnFree(ServerMode)), Once(client != NullConn, ConnFree(ClientMode)),
                  Once(poll != 0, PollFree(poll)), Once(serverGroup != NoGroup, GroupFree(ServerMode)),
                  Once(clientGroup != NoGroup, GroupFree(ClientMode)), x);
    OnceCount(server != NullConn, ConnFree(ServerMode), x);
    OnceCount(client != NullConn, ConnFree(ClientMode), x);
    OnceCount(poll != 0, PollFree(poll), x);
    OnceCount(serverGroup != NoGroup, GroupFree(ServerMode), x);
    OnceCount(clientGroup != NoGroup, GroupFree(ClientMode), x);
  }

  /** Each handle that was non-NULL is released exactly once by Free, and no NULL one is. */
  lemma FreeReleasesEachHandleOnce(server: Conn, client: Conn, poll: nat, serverGroup: Group, clientGroup: Group)
    ensures
      var calls := multiset(FreeCalls(server, client, poll, serverGroup, clientGroup));
      && calls[ConnFree(ServerMode)] == (if server != NullConn then 1 else 0)
      && calls[ConnFree(ClientMode)] == (if client != NullConn then 1 else 0)
      && calls[GroupFree(ServerMode)] == (if serverGroup != NoGroup then 1 else 0)
      && calls[GroupFree(ClientMode)] == (if clientGroup != NoGroup then 1 else 0)
      && calls[PollFree(poll)] == (if poll != 0 then 1 else 0)
  {
    FreeCallsCount(server, client, poll, serverGroup, clientGroup, ConnFree(ServerMode));
    FreeCallsCount(server, client, poll, serverGroup, clientGroup, ConnFree(ClientMode));
    FreeCallsCount(server, client, poll, serverGroup, clientGroup, GroupFree(ServerMode));
    FreeCallsCount(server, client, poll, serverGroup, clientGroup, GroupFree(ClientMode));
    FreeCallsCount(server, client, poll, serverGroup, clientGroup, PollFree(poll));
  }

  /** Whether the engine can deliver an event to the loop running on poll p. */
  function Deliverable(st: State, p: nat, e: Event): bool {
    match e
    case ServerChanged(_) => st.server == LiveConn
    case ClientChanged(_) => st.client == LiveConn
    case ServerGroupChanged(_) => st.server == LiveConn && st.serverGroup in {Pending, Committed}
    case ClientGroupChanged(_) => st.client == LiveConn && st.clientGroup in {Pending, Committed}
    case TimerFired => st.armed[p] > 0
  }

  /**
   * What the engine does to a group before it reports a COLLISION on it: the group's entries
   * are withdrawn, so the group is live and empty when the handler runs.
   */
  function Withdrawn(st: State, e: Event): State {
    match e
    case ServerGroupChanged(GroupCollision) => st.(serverGroup := Empty)
    case ClientGroupChanged(GroupCollision) => st.(clientGroup := Empty)
    case _ => st
  }

  /** The publisher's reaction to a delivered event, except a server COLLISION. */
  function React(alt: string -> string, p: nat, st: State, e: Event): (r: State)
    requires st.serviceName.Some? && e != ServerChanged(ServerCollision)
    ensures Grows(st, r) && r.serviceName.Some?
    ensures ValidState(st) ==> ValidState(r)
    ensures r.simplePoll == st.simplePoll && r.server == st.server && r.client == st.client
    ensures r.script.events == st.script.events && r.nextPoll == st.nextPoll
  {
    match e
    case ServerChanged(s) => ServerReaction(st.(serverState := s), s)
    case ClientChanged(s) => ClientReaction(alt, st.(clientState := s), s)
    case ServerGroupChanged(g) => ServerGroupReaction(alt, Withdrawn(st, e), g)
    case ClientGroupChanged(g) => ClientGroupReaction(alt, Withdrawn(st, e), g)
    case TimerFired => Publish(alt, st.(armed := st.armed - multiset{p}))
  }

  /**
   * A client-group COLLISION publishes the service again: with the colliding entries
   * withdrawn, the handler's CreateService adds the service under the alternative name (and
   * under further alternatives while the engine rejects the add) and commits it.
   */
  lemma ClientGroupCollisionRepublishes(alt: string -> string, p: nat, st: State)
    requires st.serviceName.Some? && Deliverable(st, p, ClientGroupChanged(GroupCollision))
    ensures
      var r := React(alt, p, st, ClientGroupChanged(GroupCollision));
      var k := LeadingFailures(st.script.add);
      var committed := Next(st.script.commit);
      && r.serviceName == Some(Iterate(alt, k + 1, st.serviceName.value))
      && r.clientGroup == (if committed then Committed else Pending)
      && r.log == st.log + CollisionCalls(alt, Advertised(st).(name := Some(alt(st.serviceName.value))),
                                          k, committed, st.simplePoll)
  {
    var w := Renamed(alt, st.(clientGroup := Empty));
    assert React(alt, p, st, ClientGroupChanged(GroupCollision)) == CreateOnClient(alt, w).0;
    ClientCollisionsRename(alt, w);
    ClientCollisionsLog(alt, w);
    IterateFirst(alt, LeadingFailures(st.script.add), st.serviceName.value);
    assert Advertised(w) == Advertised(st).(name := Some(alt(st.serviceName.value)));
  }

  /**
   * A server-group COLLISION publishes the service again under the alternative name: the
   * add and the commit under that name are the last two calls when both are accepted, and
   * otherwise the loop is told to quit.
   */
  lemma ServerGroupCollisionRepublishes(alt: string -> string, p: nat, st: State)
    requires st.serviceName.Some? && Deliverable(st, p, ServerGroupChanged(GroupCollision))
    ensures
      var r := React(alt, p, st, ServerGroupChanged(GroupCollision));
      var renamed := Advertised(st).(name := Some(alt(st.serviceName.value)));
      && r.serviceName == renamed.name
      && (Next(st.script.add) && Next(st.script.commit) ==>
            && r.quit == st.quit && |r.log| >= 2
            && r.log[|r.log| - 2..] == [GroupAdd(ServerMode, renamed, true), GroupCommit(ServerMode, true)])
      && (!(Next(st.script.add) && Next(st.script.commit)) ==> r.quit == QuitPoll(st.quit, st.simplePoll))
  {
    var w := Renamed(alt, st.(serverGroup := Empty));
    ServerCreateOutcome(w);
    assert Advertised(w) == Advertised(st).(name := Some(alt(st.serviceName.value)));
  }

  // ---------------------------------------------------------------------------------------
  // The publisher object
  // ---------------------------------------------------------------------------------------

  class Publisher {
    // The fields of the source object.
    var serverGroup: Group
    var clientGroup: Group
    var simplePoll: nat
    var server: Conn
    var client: Conn
    var port: uint16
    var serviceName: Option<string>
    var networkNameTxt: Option<string>
    var extPanIdTxt: Option<string>
    var serviceType: Option<string>

    // The discovery engine the publisher talks to.
    const alternativeName: string -> string
    var script: Script
    var serverState: ServerState
    var clientState: ClientState
    var nextPoll: nat
    var quit: seq<bool>
    var armed: multiset<nat>
    ghost var log: seq<Call>

    ghost function Abs(): State
      reads this
    {
      State(serverGroup, clientGroup, simplePoll, server, client,
            serviceName, serviceType, port, networkNameTxt, extPanIdTxt,
            script, serverState, clientState, nextPoll, quit, armed, log)
    }

    ghost predicate Valid()
      reads this
    {
      0 < nextPoll && simplePoll < nextPoll && |quit| == nextPoll
    }

    /**
     * What a reaction to one event keeps, besides the fields outside its frame: the quit
     * flags of every poll, the pending events and every earlier call.
     */
    twostate predicate Stepped()
      reads this
    {
      |quit| == |old(quit)| && old(log) <= log && script.events == old(script.events) && serviceName.Some?
    }

    function Current(): Record
      reads this
    {
      Record(serviceName, serviceType, port, networkNameTxt, extPanIdTxt)
    }

    /** Every handle NULL, port 0, nothing set; the engine will answer as the script says. */
    constructor (alternativeName: string -> string, script: Script)
      ensures Valid()
      ensures Abs() == State(NoGroup, NoGroup, 0, NullConn, NullConn, None, None, 0, None, None,
                             script, ServerInvalid, ClientConnecting, 1, [false], multiset{}, [])
      ensures this.alternativeName == alternativeName
    {
      serverGroup, clientGroup := NoGroup, NoGroup;
      simplePoll := 0;
      server, client := NullConn, NullConn;
      port := 0;
      serviceName, networkNameTxt, extPanIdTxt, serviceType := None, None, None, None;
      this.alternativeName := alternativeName;
      this.script := script;
      serverState, clientState := ServerInvalid, ClientConnecting;
      nextPoll := 1;
      quit, armed := [false], multiset{};
      log := [];
    }

    method SetServiceName(name: string)
      modifies this`serviceName
      ensures serviceName == Some(name)
    {
      serviceName := Some(name);
    }

    method SetType(serviceType: string)
      modifies this`serviceType
      ensures this.serviceType == Some(serviceType)
    {
      this.serviceType := Some(serviceType);
    }

    method SetPort(port: uint16)
      modifies this`port
      ensures this.port == port
    {
      this.port := port;
    }

    method SetNetworkNameTxt(txt: string)
      modifies this`networkNameTxt
      ensures networkNameTxt == Some(txt)
    {
      networkNameTxt := Some(txt);
    }

    method SetExtPanIdTxt(txt: string)
      modifies this`extPanIdTxt
      ensures extPanIdTxt == Some(txt)
    {
      extPanIdTxt := Some(txt);
    }

    /**
     * Free. The timers of the released poll are left in place: poll ids are never reused,
     * so they can never fire again.
     */
    method Free()
      requires Valid()
      modifies this`server, this`client, this`simplePoll, this`serviceName, this`serverGroup,
               this`clientGroup, this`log
      ensures Valid()
      ensures server == NullConn && client == NullConn && simplePoll == 0 && serviceName == None
      ensures serverGroup == AfterRelease(old(serverGroup)) && clientGroup == AfterRelease(old(clientGroup))
      ensures log == old(log) + FreeCalls(old(server), old(client), old(simplePoll), old(serverGroup), old(clientGroup))
    {
      ghost var calls := Once(server != NullConn, ConnFree(ServerMode));
      if server != NullConn {
        server := NullConn;
        serverGroup := AfterRelease(serverGroup);
      }
      calls := calls + Once(client != NullConn, ConnFree(ClientMode));
      if client != NullConn {
        client := NullConn;
        clientGroup := AfterRelease(clientGroup);
      }
      calls := calls + Once(simplePoll != 0, PollFree(simplePoll));
      simplePoll := 0;
      serviceName := None;
      calls := calls + Once(serverGroup != NoGroup, GroupFree(ServerMode));
      if serverGroup != NoGroup {
        serverGroup := FreedGroup;
      }
      calls := calls + Once(clientGroup != NoGroup, GroupFree(ClientMode));
      if clientGroup != NoGroup {
        clientGroup := FreedGroup;
      }
      log := log + calls;
    }

    method RequestLoopQuit()
      modifies this`quit, this`log
      ensures Abs() == RequestQuit(old(Abs()))
    {
      quit := QuitPoll(quit, simplePoll);
      log := log + [PollQuit(simplePoll)];
    }

    /** CreateService(AvahiClient *). */
    method CreateServiceOnClient() returns (ret: Status)
      requires serviceName.Some?
      modifies this`clientGroup, this`serviceName, this`script, this`quit, this`log
      decreases |script.add|, 2
      ensures (Abs(), ret) == CreateOnClient(alternativeName, old(Abs()))
      ensures Stepped()
    {
      if clientGroup == NoGroup {
        var created := Next(script.groupNew);
        script := script.(groupNew := Rest(script.groupNew));
        log := log + [GroupNew(ClientMode, created)];
        if !created {
          return FailedCreateGroup;
        }
        clientGroup := Empty;
      }
      ret := OK;
      if clientGroup == Empty {
        ret := AddOnClient();
      }
    }

    /** The add-and-commit half of CreateService(AvahiClient *), on an empty group. */
    method AddOnClient() returns (ret: Status)
      requires serviceName.Some? && clientGroup == Empty
      modifies this`clientGroup, this`serviceName, this`script, this`quit, this`log
      decreases |script.add|, 1
      ensures (Abs(), ret) == CreateOnClient(alternativeName, old(Abs()))
      ensures Stepped()
    {
      if !Next(script.add) {
        RejectedAddStep(alternativeName, Abs());
        ret := RetryWithAlternativeName();
      } else {
        script := script.(add := Rest(script.add));
        log := log + [GroupAdd(ClientMode, Current(), true)];
        ret := CommitOnClient();
      }
    }

    /**
     * A rejected add in client mode: the service takes the engine's alternative name, the
     * group is reset and CreateService runs again; the call reports FailedAddService.
     */
    method RetryWithAlternativeName() returns (ret: Status)
      requires serviceName.Some? && clientGroup == Empty && !Next(script.add)
      modifies this`clientGroup, this`serviceName, this`script, this`quit, this`log
      decreases |script.add|, 0
      ensures (Abs(), ret) == (CreateOnClient(alternativeName, AfterRejectedAdd(alternativeName, old(Abs()))).0, FailedAddService)
      ensures Stepped()
    {
      TakeAlternativeName();
      var _ := CreateServiceOnClient();
      ret := FailedAddService;
    }

    /** The bookkeeping of a rejected add: the add is logged, the service renamed and the group reset. */
    method TakeAlternativeName()
      requires serviceName.Some? && clientGroup == Empty
      modifies this`clientGroup, this`serviceName, this`script, this`log
      ensures Abs() == AfterRejectedAdd(alternativeName, old(Abs()))
    {
      ghost var before := Abs();
      log := before.log + [GroupAdd(ClientMode, Advertised(before), false), GroupReset(ClientMode)];
      script := script.(add := Rest(script.add));
      serviceName := Some(alternativeName(serviceName.value));
      clientGroup := AfterReset(clientGroup);
    }

    /** The commit that follows an accepted add in client mode. */
    method CommitOnClient() returns (ret: Status)
      requires serviceName.Some?
      modifies this`clientGroup, this`script, this`quit, this`log
      ensures (Abs(), ret) == CommitClient(old(Abs()))
      ensures Stepped()
    {
      var committed := Next(script.commit);
      script := script.(commit := Rest(script.commit));
      clientGroup := if committed then Committed else Pending;
      log := log + [GroupCommit(ClientMode, committed)];
      ret := OK;
      if !committed {
        RequestLoopQuit();
        ret := FailedRegisterService;
      }
    }

    /** CreateService(AvahiServer *). */
    method CreateServiceOnServer() returns (ret: Status)
      requires serviceName.Some?
      modifies this`serverGroup, this`script, this`quit, this`log
      ensures (Abs(), ret) == CreateOnServer(old(Abs()))
      ensures Stepped()
    {
      if serverGroup == NoGroup {
        var created := Next(script.groupNew);
        script := script.(groupNew := Rest(script.groupNew));
        log := log + [GroupNew(ServerMode, created)];
        if !created {
          RequestLoopQuit();
          return FailedCreateGroup;
        }
        serverGroup := Empty;
      }
      ret := AddOnServer();
    }

    /** The add-and-commit half of CreateService(AvahiServer *), once the group exists. */
    method AddOnServer() returns (ret: Status)
      requires serviceName.Some?
      modifies this`serverGroup, this`script, this`quit, this`log
      ensures (Abs(), ret) == AddServer(old(Abs()))
      ensures Stepped()
    {
      var added := Next(script.add);
      script := script.(add := Rest(script.add));
      log := log + [GroupAdd(ServerMode, Current(), added)];
      if !added {
        RequestLoopQuit();
        return FailedAddService;
      }
      ret := CommitOnServer();
    }

    /** The commit that follows an accepted add in server mode. */
    method CommitOnServer() returns (ret: Status)
      requires serviceName.Some?
      modifies this`serverGroup, this`script, this`quit, this`log
      ensures (Abs(), ret) == CommitServer(old(Abs()))
      ensures Stepped()
    {
      var committed := Next(script.commit);
      script := script.(commit := Rest(script.commit));
      serverGroup := AfterAdd(serverGroup);
      log := log + [GroupCommit(ServerMode, committed)];
      if !committed {
        RequestLoopQuit();
        return FailedRegisterService;
      }
      serverGroup := AfterCommit(serverGroup);
      ret := OK;
    }

    method ResetServerGroup()
      modifies this`serverGroup, this`log
      ensures Abs() == ResetGroup(old(Abs()), ServerMode)
    {
      if serverGroup != NoGroup {
        serverGroup := AfterReset(serverGroup);
        log := log + [GroupReset(ServerMode)];
      }
    }

    method ResetClientGroup()
      modifies this`clientGroup, this`log
      ensures Abs() == ResetGroup(old(Abs()), ClientMode)
    {
      if clientGroup != NoGroup {
        clientGroup := AfterReset(clientGroup);
        log := log + [GroupReset(ClientMode)];
      }
    }

    method HandleClientStart(s: ClientState)
      requires serviceName.Some?
      modifies this`clientGroup, this`serviceName, this`script, this`quit, this`log
      ensures Abs() == ClientReaction(alternativeName, old(Abs()), s)
      ensures Stepped()
    {
      match s
      case ClientRunning =>
        var _ := CreateServiceOnClient();
      case ClientFailure =>
        RequestLoopQuit();
      case ClientCollision =>
        ResetClientGroup();
      case ClientRegistering =>
        ResetClientGroup();
      case ClientConnecting =>
    }

    /**
     * HandleServerStart. COLLISION restarts the publisher in client mode; every other state
     * is handled as ServerReaction says.
     */
    method HandleServerStart(s: ServerState)
      requires Valid() && serviceName.Some?
      modifies this`serverGroup, this`clientGroup, this`simplePoll, this`server, this`client,
               this`serviceName, this`script, this`serverState, this`clientState, this`nextPoll,
               this`quit, this`armed, this`log
      decreases |script.events|, 5
      ensures Valid()
      ensures |script.events| <= old(|script.events|) && old(nextPoll) <= nextPoll && old(log) <= log
      ensures s != ServerCollision ==> Abs() == ServerReaction(old(Abs()), s)
      ensures s == ServerCollision ==> server == NullConn && client == NullConn && simplePoll == 0
    {
      if s == ServerCollision {
        RestartAsClient();
      } else {
        HandleServerState(s);
      }
    }

    /**
     * The COLLISION arm of HandleServerStart: the loop is told to quit, the server connection
     * is released (its pointer is not cleared) and the publisher starts over in client mode,
     * whose own Free releases the server connection a second time.
     */
    method RestartAsClient()
      requires Valid() && serviceName.Some?
      modifies this`serverGroup, this`clientGroup, this`simplePoll, this`server, this`client,
               this`serviceName, this`script, this`serverState, this`clientState, this`nextPoll,
               this`quit, this`armed, this`log
      decreases |script.events|, 4
      ensures Valid()
      ensures |script.events| <= old(|script.events|) && old(nextPoll) <= nextPoll
      ensures server == NullConn && client == NullConn && simplePoll == 0 && serviceName == None
      ensures old(log) + [PollQuit(old(simplePoll))] + Once(old(server) != NullConn, ConnFree(ServerMode))
              + [PollNew(Next(old(script.pollNew)))] <= log
      ensures old(server) != NullConn ==> ConnFree(ServerMode) in log[|old(log)| + 3..]
    {
      RequestLoopQuit();
      if server != NullConn {
        server := FreedConn;
        serverGroup := AfterRelease(serverGroup);
        log := log + [ConnFree(ServerMode)];
      }
      var _ := StartClient();
    }

    /** HandleServerStart for every state but COLLISION. */
    method HandleServerState(s: ServerState)
      requires serviceName.Some? && s != ServerCollision
      modifies this`serverGroup, this`script, this`quit, this`log
      ensures Abs() == ServerReaction(old(Abs()), s)
      ensures Stepped()
    {
      match s
      case ServerRunning =>
        if serverGroup == NoGroup {
          var _ := CreateServiceOnServer();
        }
      case ServerRegistering =>
        ResetServerGroup();
      case ServerFailure =>
        RequestLoopQuit();
      case ServerInvalid =>
    }

    /** HandleEntryGroupStart(AvahiEntryGroup *, ...). */
    method HandleClientEntryGroupStart(g: GroupState)
      requires serviceName.Some?
      modifies this`clientGroup, this`serviceName, this`script, this`quit, this`log
      ensures Abs() == ClientGroupReaction(alternativeName, old(Abs()), g)
      ensures Stepped()
    {
      match g
      case GroupCollision =>
        serviceName := Some(alternativeName(serviceName.value));
        var _ := CreateServiceOnClient();
      case GroupFailure =>
        RequestLoopQuit();
      case _ =>
    }

    /** HandleEntryGroupStart(AvahiServer *, AvahiSEntryGroup *, ...). */
    method HandleServerEntryGroupStart(g: GroupState)
      requires serviceName.Some?
      modifies this`serverGroup, this`serviceName, this`script, this`quit, this`log
      ensures Abs() == ServerGroupReaction(alternativeName, old(Abs()), g)
      ensures Stepped()
    {
      match g
      case GroupCollision =>
        serviceName := Some(alternativeName(serviceName.value));
        var _ := CreateServiceOnServer();
      case GroupFailure =>
        RequestLoopQuit();
      case _ =>
    }

    /** HandleServicePublish: the periodic reset-and-recommit. */
    method HandleServicePublish()
      requires serviceName.Some?
      modifies this`serverGroup, this`clientGroup, this`serviceName, this`script, this`quit,
               this`armed, this`log
      ensures Abs() == Publish(alternativeName, old(Abs()))
      ensures Stepped()
    {
      RepublishOnServer();
      RepublishOnClient();
    }

    /** The server half of HandleServicePublish. */
    method RepublishOnServer()
      requires serviceName.Some?
      modifies this`serverGroup, this`script, this`quit, this`armed, this`log
      ensures Abs() == RepublishServer(old(Abs()))
      ensures Stepped()
    {
      if server != NullConn && serverState == ServerRunning {
        ResetServerGroup();
        var _ := CreateServiceOnServer();
        ArmPeriodicTimer();
      }
    }

    /** The client half of HandleServicePublish. */
    method RepublishOnClient()
      requires serviceName.Some?
      modifies this`clientGroup, this`serviceName, this`script, this`quit, this`armed, this`log
      ensures Abs() == RepublishClient(alternativeName, old(Abs()))
      ensures Stepped()
    {
      if client != NullConn && clientState == ClientRunning {
        ResetClientGroup();
        var _ := CreateServiceOnClient();
        ArmPeriodicTimer();
      }
    }

    method UpdateService() returns (ret: Status)
      modifies this`script, this`log
      ensures (Abs(), ret) == Update(old(Abs()))
    {
      ret := OK;
      if serverGroup != NoGroup || clientGroup != NoGroup {
        var mode := if serverGroup != NoGroup then ServerMode else ClientMode;
        var ok := Next(script.updateTxt);
        script := script.(updateTxt := Rest(script.updateTxt));
        log := log + [TxtUpdate(mode, Current(), ok)];
        if !ok {
          ret := FailedUpdateService;
        }
      }
    }

    /** The engine delivers one event to the loop running on poll p. */
    method Dispatch(p: nat, e: Event)
      requires Valid() && serviceName.Some? && 0 < p == simplePoll
      modifies this`serverGroup, this`clientGroup, this`simplePoll, this`server, this`client,
               this`serviceName, this`script, this`serverState, this`clientState, this`nextPoll,
               this`quit, this`armed, this`log
      decreases |script.events|, 6
      ensures Valid()
      ensures |script.events| <= old(|script.events|) && old(nextPoll) <= nextPoll && old(log) <= log
      ensures old(server) != LiveConn ==> server == old(server)
      ensures simplePoll == p ==> serviceName.Some?
      ensures !Deliverable(old(Abs()), p, e) ==> Abs() == old(Abs())
      ensures Deliverable(old(Abs()), p, e) && e != ServerChanged(ServerCollision) ==>
                Abs() == React(alternativeName, p, old(Abs()), e)
    {
      if e.ServerChanged? {
        if server == LiveConn {
          serverState := e.serverState;
          HandleServerStart(e.serverState);
        }
      } else {
        Deliver(p, e);
      }
    }

    /** Delivery of every event but a change of the responder's state. */
    method Deliver(p: nat, e: Event)
      requires serviceName.Some? && !e.ServerChanged?
      modifies this`serverGroup, this`clientGroup, this`serviceName, this`script, this`quit,
               this`armed, this`log, this`clientState
      ensures Deliverable(old(Abs()), p, e) ==> Abs() == React(alternativeName, p, old(Abs()), e)
      ensures !Deliverable(old(Abs()), p, e) ==> Abs() == old(Abs())
      ensures Stepped()
    {
      match e
      case ClientChanged(s) => DeliverClientChange(p, s);
      case ServerGroupChanged(g) => DeliverServerGroupChange(p, g);
      case ClientGroupChanged(g) => DeliverClientGroupChange(p, g);
      case TimerFired => DeliverTimer(p);
    }

    method DeliverClientChange(p: nat, s: ClientState)
      requires serviceName.Some?
      modifies this`serverGroup, this`clientGroup, this`serviceName, this`script, this`quit,
               this`armed, this`log, this`clientState
      ensures Abs() == if Deliverable(old(Abs()), p, ClientChanged(s)) then React(alternativeName, p, old(Abs()), ClientChanged(s)) else old(Abs())
      ensures Stepped()
    {
      if client == LiveConn {
        clientState := s;
        HandleClientStart(s);
      }
    }

    method DeliverServerGroupChange(p: nat, g: GroupState)
      requires serviceName.Some?
      modifies this`serverGroup, this`clientGroup, this`serviceName, this`script, this`quit,
               this`armed, this`log, this`clientState
      ensures Abs() == if Deliverable(old(Abs()), p, ServerGroupChanged(g)) then React(alternativeName, p, old(Abs()), ServerGroupChanged(g)) else old(Abs())
      ensures Stepped()
    {
      if server == LiveConn && (serverGroup == Pending || serverGroup == Committed) {
        if g == GroupCollision {
          serverGroup := Empty;
        }
        HandleServerEntryGroupStart(g);
      }
    }

    method DeliverClientGroupChange(p: nat, g: GroupState)
      requires serviceName.Some?
      modifies this`serverGroup, this`clientGroup, this`serviceName, this`script, this`quit,
               this`armed, this`log, this`clientState
      ensures Abs() == if Deliverable(old(Abs()), p, ClientGroupChanged(g)) then React(alternativeName, p, old(Abs()), ClientGroupChanged(g)) else old(Abs())
      ensures Stepped()
    {
      if client == LiveConn && (clientGroup == Pending || clientGroup == Committed) {
        if g == GroupCollision {
          clientGroup := Empty;
        }
        HandleClientEntryGroupStart(g);
      }
    }

    method DeliverTimer(p: nat)
      requires serviceName.Some?
      modifies this`serverGroup, this`clientGroup, this`serviceName, this`script, this`quit,
               this`armed, this`log, this`clientState
      ensures Abs() == if Deliverable(old(Abs()), p, TimerFired) then React(alternativeName, p, old(Abs()), TimerFired) else old(Abs())
      ensures Stepped()
    {
      if armed[p] > 0 {
        ghost var fired := Abs().(armed := armed - multiset{p});
        assert React(alternativeName, p, Abs(), TimerFired) == Publish(alternativeName, fired);
        armed := armed - multiset{p};
        assert Abs() == fired;
        HandleServicePublish();
      }
    }

    /**
     * avahi_simple_poll_loop on poll p: deliver events until p is told to quit or no event
     * is left. The loop also ends once p is no longer the publisher's poll: only a server
     * COLLISION replaces the poll, and it tells p to quit before doing so.
     */
    method RunLoop(p: nat)
      requires Valid() && 0 < p < nextPoll
      requires simplePoll == p ==> serviceName.Some?
      modifies this`serverGroup, this`clientGroup, this`simplePoll, this`server, this`client,
               this`serviceName, this`script, this`serverState, this`clientState, this`nextPoll,
               this`quit, this`armed, this`log
      decreases |script.events|, 0
      ensures Valid()
      ensures |script.events| <= old(|script.events|) && old(nextPoll) <= nextPoll && old(log) <= log
      ensures old(server) != LiveConn ==> server == old(server)
      ensures simplePoll != p || quit[p] || script.events == []
    {
      while simplePoll == p && !quit[p] && script.events != []
        invariant Valid() && p < nextPoll
        invariant |script.events| <= old(|script.events|) && old(nextPoll) <= nextPoll && old(log) <= log
        invariant old(server) != LiveConn ==> server == old(server)
        invariant simplePoll == p ==> serviceName.Some?
        decreases |script.events|
      {
        ghost var logBefore := log;
        var e := script.events[0];
        script := script.(events := script.events[1..]);
        Dispatch(p, e);
        assert logBefore <= log;
      }
    }

    /** avahi_simple_poll_new: the new poll gets the next id, or the pointer is NULL. */
    method NewPoll() returns (ok: bool)
      requires Valid()
      modifies this`script, this`log, this`simplePoll, this`nextPoll, this`quit
      ensures Valid()
      ensures ok == Next(old(script.pollNew))
      ensures script == old(script).(pollNew := Rest(old(script.pollNew)))
      ensures log == old(log) + [PollNew(ok)]
      ensures ok ==> simplePoll == old(nextPoll) && nextPoll == old(nextPoll) + 1 && quit == old(quit) + [false]
      ensures !ok ==> simplePoll == 0 && nextPoll == old(nextPoll) && quit == old(quit)
    {
      ok := Next(script.pollNew);
      script := script.(pollNew := Rest(script.pollNew));
      log := log + [PollNew(ok)];
      if ok {
        simplePoll := nextPoll;
        nextPoll := nextPoll + 1;
        quit := quit + [false];
      } else {
        simplePoll := 0;
      }
    }

    /** avahi_client_new / avahi_server_new: the connection pointer of that mode is live, or NULL. */
    method NewConnection(mode: Mode) returns (ok: bool)
      modifies this`script, this`log, this`server, this`client, this`serverState, this`clientState
      ensures ok == Next(old(script.connNew))
      ensures script == old(script).(connNew := Rest(old(script.connNew)))
      ensures log == old(log) + [ConnNew(mode, ok)]
      ensures mode == ClientMode ==>
                client == (if ok then LiveConn else NullConn) && clientState == ClientConnecting
                && server == old(server) && serverState == old(serverState)
      ensures mode == ServerMode ==>
                server == (if ok then LiveConn else NullConn) && serverState == ServerInvalid
                && client == old(client) && clientState == old(clientState)
    {
      ok := Next(script.connNew);
      script := script.(connNew := Rest(script.connNew));
      log := log + [ConnNew(mode, ok)];
      match mode
      case ClientMode =>
        client := if ok then LiveConn else NullConn;
        clientState := ClientConnecting;
      case ServerMode =>
        server := if ok then LiveConn else NullConn;
        serverState := ServerInvalid;
    }

    /** A new periodic timer on the current poll. */
    method ArmPeriodicTimer()
      modifies this`armed, this`log
      ensures armed == old(armed) + multiset{simplePoll}
      ensures log == old(log) + [TimerArmed(simplePoll)]
    {
      armed := armed + multiset{simplePoll};
      log := log + [TimerArmed(simplePoll)];
    }

    /**
     * The part StartClient and StartServer share once the poll exists: create the connection
     * of the given mode, arm the first timer and run the loop on the current poll.
     */
    method ConnectAndRun(mode: Mode) returns (connected: bool)
      requires Valid() && serviceName.Some? && 0 < simplePoll
      modifies this`serverGroup, this`clientGroup, this`simplePoll, this`server, this`client,
               this`serviceName, this`script, this`serverState, this`clientState, this`nextPoll,
               this`quit, this`armed, this`log
      decreases |script.events|, 1
      ensures Valid()
      ensures |script.events| <= old(|script.events|) && old(nextPoll) <= nextPoll && old(log) <= log
      ensures connected == Next(old(script.connNew))
      ensures !connected ==>
                Abs() == old(Abs()).(script := old(script).(connNew := Rest(old(script.connNew))),
                                     log := old(log) + [ConnNew(mode, false)],
                                     server := server, client := client,
                                     serverState := serverState, clientState := clientState)
      ensures !connected ==>
                && script.events == old(script.events) && simplePoll == old(simplePoll)
                && serverGroup == old(serverGroup) && clientGroup == old(clientGroup)
                && log == old(log) + [ConnNew(mode, false)]
                && (mode == ClientMode ==> client == NullConn && clientState == ClientConnecting
                                           && server == old(server) && serverState == old(serverState))
                && (mode == ServerMode ==> server == NullConn && serverState == ServerInvalid
                                           && client == old(client) && clientState == old(clientState))
      ensures connected ==> old(log) + [ConnNew(mode, true)] + [TimerArmed(old(simplePoll))] <= log
      ensures mode == ClientMode && old(server) != LiveConn ==> server == old(server)
    {
      connected := NewConnection(mode);
      if connected {
        ArmPeriodicTimer();
        ghost var started := log;
        RunLoop(simplePoll);
        assert started <= log;
      }
    }

    /** The part of StartClient before Free: the poll, then the client connection and the loop. */
    method OpenClient() returns (ret: Status)
      requires Valid() && serviceName.Some?
      modifies this`serverGroup, this`clientGroup, this`simplePoll, this`server, this`client,
               this`serviceName, this`script, this`serverState, this`clientState, this`nextPoll,
               this`quit, this`armed, this`log
      decreases |script.events|, 2
      ensures Valid()
      ensures |script.events| <= old(|script.events|) && old(nextPoll) <= nextPoll
      ensures ret == if !Next(old(script.pollNew)) then FailedCreatePoll
                     else if !Next(old(script.connNew)) then FailedCreateClient
                     else OK
      ensures old(log) + [PollNew(Next(old(script.pollNew)))] <= log
      ensures ret == FailedCreatePoll ==>
                && script.events == old(script.events) && log == old(log) + [PollNew(false)]
                && simplePoll == 0 && server == old(server) && client == old(client)
                && serverGroup == old(serverGroup) && clientGroup == old(clientGroup)
      ensures ret == FailedCreateClient ==>
                && script.events == old(script.events)
                && log == old(log) + [PollNew(true)] + [ConnNew(ClientMode, false)]
                && simplePoll == old(nextPoll) && server == old(server) && client == NullConn
                && serverGroup == old(serverGroup) && clientGroup == old(clientGroup)
      ensures ret == OK ==> old(log) + [PollNew(true)] + [ConnNew(ClientMode, true)] + [TimerArmed(old(nextPoll))] <= log
      ensures old(server) != LiveConn ==> server == old(server)
    {
      var pollOk := NewPoll();
      ghost var afterPollNew := log;
      if !pollOk {
        ret := FailedCreatePoll;
      } else {
        var clientOk := ConnectAndRun(ClientMode);
        ret := if clientOk then OK else FailedCreateClient;
      }
      assert afterPollNew <= log;
    }

    /**
     * StartClient: create a poll and a client connection, arm the first timer, run the loop,
     * and Free on every exit, the two creation failures included.
     */
    method StartClient() returns (ret: Status)
      requires Valid() && serviceName.Some?
      modifies this`serverGroup, this`clientGroup, this`simplePoll, this`server, this`client,
               this`serviceName, this`script, this`serverState, this`clientState, this`nextPoll,
               this`quit, this`armed, this`log
      decreases |script.events|, 3
      ensures Valid()
      ensures |script.events| <= old(|script.events|) && old(nextPoll) <= nextPoll && old(log) <= log
      ensures server == NullConn && client == NullConn && simplePoll == 0 && serviceName == None
      ensures serverGroup in {NoGroup, FreedGroup} && clientGroup in {NoGroup, FreedGroup}
      ensures serviceType == old(serviceType) && port == old(port)
              && networkNameTxt == old(networkNameTxt) && extPanIdTxt == old(extPanIdTxt)
      ensures ret == if !Next(old(script.pollNew)) then FailedCreatePoll
                     else if !Next(old(script.connNew)) then FailedCreateClient
                     else OK
      ensures old(log) + [PollNew(Next(old(script.pollNew)))] <= log
      ensures ret == FailedCreatePoll ==>
                && script.events == old(script.events)
                && log == old(log) + [PollNew(false)] + FreeCalls(old(server), old(client), 0, old(serverGroup), old(clientGroup))
      ensures ret == FailedCreateClient ==>
                && script.events == old(script.events)
                && log == old(log) + [PollNew(true)] + [ConnNew(ClientMode, false)]
                          + FreeCalls(old(server), NullConn, old(nextPoll), old(serverGroup), old(clientGroup))
      ensures ret == OK ==> old(log) + [PollNew(true)] + [ConnNew(ClientMode, true)] + [TimerArmed(old(nextPoll))] <= log
      ensures old(server) == FreedConn ==> ConnFree(ServerMode) in log[|old(log)| + 1..]
    {
      ghost var log0 := log;
      ret := OpenClient();
      ghost var beforeFree := log;
      Free();
      assert beforeFree <= log;
      if old(server) == FreedConn {
        assert log[|beforeFree|] == ConnFree(ServerMode);
        assert log[|log0| + 1..][|beforeFree| - |log0| - 1] == ConnFree(ServerMode);
      }
    }

    /**
     * StartServer: create a poll and an mDNS responder, arm the first timer, run the loop,
     * and Free on every exit, the two creation failures included.
     */
    method StartServer() returns (ret: Status)
      requires Valid() && serviceName.Some?
      modifies this`serverGroup, this`clientGroup, this`simplePoll, this`server, this`client,
               this`serviceName, this`script, this`serverState, this`clientState, this`nextPoll,
               this`quit, this`armed, this`log
      ensures Valid()
      ensures |script.events| <= old(|script.events|) && old(nextPoll) <= nextPoll && old(log) <= log
      ensures server == NullConn && client == NullConn && simplePoll == 0 && serviceName == None
      ensures serverGroup in {NoGroup, FreedGroup} && clientGroup in {NoGroup, FreedGroup}
      ensures ret == if !Next(old(script.pollNew)) then FailedCreatePoll
                     else if !Next(old(script.connNew)) then FailedCreateServer
                     else OK
      ensures old(log) + [PollNew(Next(old(script.pollNew)))] <= log
      ensures ret == FailedCreatePoll ==>
                && script.events == old(script.events)
                && log == old(log) + [PollNew(false)] + FreeCalls(old(server), old(client), 0, old(serverGroup), old(clientGroup))
      ensures ret == FailedCreateServer ==>
                && script.events == old(script.events)
                && log == old(log) + [PollNew(true)] + [ConnNew(ServerMode, false)]
                          + FreeCalls(NullConn, old(client), old(nextPoll), old(serverGroup), old(clientGroup))
      ensures ret == OK ==> old(log) + [PollNew(true)] + [ConnNew(ServerMode, true)] + [TimerArmed(old(nextPoll))] <= log
    {
      var pollOk := NewPoll();
      ghost var afterPollNew := log;
      if !pollOk {
        ret := FailedCreatePoll;
      } else {
        var serverOk := ConnectAndRun(ServerMode);
        ret := if serverOk then OK else FailedCreateServer;
      }
      assert afterPollNew <= log;
      Free();
    }
  }
}
