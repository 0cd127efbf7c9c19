/** Runs of the server with the room of one file: every request and timer of the room, reloads, and
    every Layer 1 request, in any order. The numbers a room hands out are consecutive in all of them. */
module RoomRuns {
  import opened Options
  import opened VersionVectors
  import opened Vault
  import opened VaultRuns
  import opened Rooms

  datatype RoomEvent =
    | PromoteRoom(deviceId: string, mayEdit: bool, now: nat)
    | Edit(mayWrite: bool, deviceId: string, epoch: nat, update: Doc, now: nat)
    | Beat(deviceId: string, epoch: nat, now: nat)
    | LeaveRoom(deviceId: string, epoch: nat)
    | DropDevice(deviceId: string)
    | CompactRoom(throughSeq: Option<int>)
    | DemoteRoom(expected: Option<nat>, joined: seq<VersionVector>, now: nat, freshId: string)
    | IdleRoom(expiredOnly: bool, now: nat, freshId: string)
    | FileDeleted
    | RestoreVersion(mayWrite: bool, deviceId: string, version: nat, requestId: OpId, deviceSeq: nat, now: nat,
                     freshId: string)
    | Reload
    | Layer1(event: Event)

  function RoomStep(c: Config, s: Server, e: RoomEvent): Server {
    match e
    case PromoteRoom(deviceId, mayEdit, now) => Promote(c, s, deviceId, mayEdit, now).0
    case Edit(mayWrite, deviceId, epoch, update, now) => HandleUpdate(c, s, mayWrite, deviceId, epoch, update, now).0
    case Beat(deviceId, epoch, now) => Heartbeat(c, s, deviceId, epoch, now).0
    case LeaveRoom(deviceId, epoch) => Leave(s, deviceId, epoch).0
    case DropDevice(deviceId) => Disconnect(s, deviceId)
    case CompactRoom(throughSeq) => Compact(c, s, throughSeq)
    case DemoteRoom(expected, joined, now, freshId) => Demote(c, s, expected, joined, now, freshId).0
    case IdleRoom(expiredOnly, now, freshId) => CloseIdle(c, s, expiredOnly, now, freshId)
    case FileDeleted => CloseDeleted(c, s)
    case RestoreVersion(mayWrite, deviceId, version, requestId, deviceSeq, now, freshId) =>
      RestoreHistory(c, s, mayWrite, deviceId, version, requestId, deviceSeq, now, freshId).0
    case Reload => s.(room := None)
    case Layer1(event) => s.(layer1 := Step(s.layer1, event))
  }

  const NO_ROOM := RoomStore(None, map[], [])

  /** A server that has never had a room. */
  function NoRooms(layer1: State): Server {
    Server(layer1, NO_ROOM, None, [])
  }

  function RoomRun(c: Config, s: Server, events: seq<RoomEvent>): Server {
    if events == [] then s else RoomStep(c, RoomRun(c, s, events[..|events| - 1]), events[|events| - 1])
  }

  // ---- the numbers handed out ----

  /** Numbers run on by one within an epoch and start from 1 in a later one. */
  ghost predicate Follows(a: Issued, b: Issued) {
    (b.epoch == a.epoch && b.n == a.n + 1) || (b.epoch > a.epoch && b.n == 1)
  }

  ghost predicate Numbered(issued: seq<Issued>, epoch: nat, nextSeq: nat) {
    && (forall i :: 0 <= i < |issued| - 1 ==> Follows(issued[i], issued[i + 1]))
    && (issued == [] ==> nextSeq == 1)
    && (issued != [] ==> issued[0].n == 1 && Follows(issued[|issued| - 1], Issued(epoch, nextSeq, {})))
  }

  /** The record in memory is the stored one, and continues the numbers handed out. */
  ghost predicate Continues(s: Server) {
    && (s.room.Some? ==> s.room.value.persisted == RoomRecord(s.store))
    && Numbered(s.issued, RoomRecord(s.store).epoch, RoomRecord(s.store).nextSeq)
  }

  lemma NumberedMore(issued: seq<Issued>, epoch: nat, n: nat, update: Doc)
    requires Numbered(issued, epoch, n)
    ensures Numbered(issued + [Issued(epoch, n, update)], epoch, n + 1)
  {
  }

  lemma NumberedLater(issued: seq<Issued>, epoch: nat, n: nat)
    requires Numbered(issued, epoch, n)
    ensures Numbered(issued, epoch + 1, 1)
  {
  }

  /** A step hands out at most one number, the next one of the current epoch, or opens a new epoch. */
  ghost predicate Moves(s: Server, s': Server) {
    var r, r' := RoomRecord(s.store), RoomRecord(s'.store);
    && (s'.room.Some? ==> s'.room.value.persisted == r')
    && (|| (s'.issued == s.issued && r'.epoch == r.epoch && r'.nextSeq == r.nextSeq)
        || (s'.issued == s.issued && r'.epoch == r.epoch + 1 && r'.nextSeq == 1)
        || (exists update :: s'.issued == s.issued + [Issued(r.epoch, r.nextSeq, update)]
                             && r'.epoch == r.epoch && r'.nextSeq == r.nextSeq + 1))
  }

  lemma PromoteMoves(c: Config, s: Server, deviceId: string, mayEdit: bool, now: nat)
    requires s.room.Some? ==> s.room.value.persisted == RoomRecord(s.store)
    ensures Moves(s, Promote(c, s, deviceId, mayEdit, now).0)
  {
    hide DocOf, SeedDoc;
  }

  lemma EditMoves(c: Config, s: Server, mayWrite: bool, deviceId: string, epoch: nat, update: Doc, now: nat)
    requires s.room.Some? ==> s.room.value.persisted == RoomRecord(s.store)
    ensures Moves(s, HandleUpdate(c, s, mayWrite, deviceId, epoch, update, now).0)
  {
    hide DocOf, InsertUpdate;
  }

  lemma RestoreMoves(c: Config, s: Server, e: RoomEvent)
    requires s.room.Some? ==> s.room.value.persisted == RoomRecord(s.store)
    requires e.RestoreVersion?
    ensures Moves(s, RoomStep(c, s, e))
  {
    hide Process, DocOf, InsertUpdate, RestoreOp;
  }

  lemma OthersMove(c: Config, s: Server, e: RoomEvent)
    requires s.room.Some? ==> s.room.value.persisted == RoomRecord(s.store)
    requires !e.PromoteRoom? && !e.Edit? && !e.RestoreVersion?
    ensures Moves(s, RoomStep(c, s, e))
  {
    hide Process, Step, DocOf, UpdatesAfter, FlushOp, Promote, HandleUpdate, RestoreHistory;
  }

  lemma StepMoves(c: Config, s: Server, e: RoomEvent)
    requires s.room.Some? ==> s.room.value.persisted == RoomRecord(s.store)
    ensures Moves(s, RoomStep(c, s, e))
  {
    hide Moves, Promote, HandleUpdate, RestoreHistory;
    match e
    case PromoteRoom(deviceId, mayEdit, now) => PromoteMoves(c, s, deviceId, mayEdit, now);
    case Edit(mayWrite, deviceId, epoch, update, now) => EditMoves(c, s, mayWrite, deviceId, epoch, update, now);
    case RestoreVersion(_, _, _, _, _, _, _) => RestoreMoves(c, s, e);
    case _ => OthersMove(c, s, e);
  }

  lemma MovesKeeps(s: Server, s': Server)
    requires Continues(s) && Moves(s, s')
    ensures Continues(s')
  {
    var r, r' := RoomRecord(s.store), RoomRecord(s'.store);
    hide Numbered;
    if s'.issued != s.issued {
      var update :| s'.issued == s.issued + [Issued(r.epoch, r.nextSeq, update)];
      NumberedMore(s.issued, r.epoch, r.nextSeq, update);
    } else if r'.epoch != r.epoch {
      NumberedLater(s.issued, r.epoch, r.nextSeq);
    }
  }

  lemma {:induction false} RunContinues(c: Config, layer1: State, events: seq<RoomEvent>)
    ensures Continues(RoomRun(c, NoRooms(layer1), events))
  {
    hide RoomStep;
    if events != [] {
      RunContinues(c, layer1, events[..|events| - 1]);
      var before := RoomRun(c, NoRooms(layer1), events[..|events| - 1]);
      hide Moves, Numbered;
      StepMoves(c, before, events[|events| - 1]);
      MovesKeeps(before, RoomStep(c, before, events[|events| - 1]));
    }
  }

  /** In every run the numbers handed out within an epoch are 1, 2, 3, ..., and epochs only grow. */
  lemma {:induction false} NumbersAreConsecutive(c: Config, layer1: State, events: seq<RoomEvent>)
    ensures var issued := RoomRun(c, NoRooms(layer1), events).issued;
      && (issued != [] ==> issued[0].n == 1)
      && forall i :: 0 <= i < |issued| - 1 ==>
           || (issued[i + 1].epoch == issued[i].epoch && issued[i + 1].n == issued[i].n + 1)
           || (issued[i + 1].epoch > issued[i].epoch && issued[i + 1].n == 1)
  {
    RunContinues(c, layer1, events);
    hide RoomRun;
  }
}
