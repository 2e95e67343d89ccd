/** Every run of the blob store: uploads and output writes interleave with deletes, expiry,
    reads and crashes, and every crash is followed by recovery, which can crash again. */
module BlobRuns {
  import opened Prelude
  import opened BlobModel

  /** Where one upload stands between two durable steps (`_receive_and_publish`). */
  datatype Progress =
    | Waiting
    | Journalled
    | Opened
    | Receiving
    | Pending
    | Renamed
    | Committed
    | Marked
    | ReceiveFailed
    | ReceiveCleaned
    | RenameFailed
    | RenameCleaned
    | PublishFailed
    | PublishCleaned
    | Aborted

  datatype Upload = Upload(
    owner: Owner,
    limit: nat,
    declared: Option<nat>,
    expected: Option<Digest>,
    received: Bytes,
    stage: Progress)

  /** The durable store, the uploads and unlinks this process is working on, whether it is still
      recovering, and every blob id ever drawn. */
  datatype Store = Store(
    durable: Durable,
    uploads: map<BlobId, Upload>,
    unlinks: set<FileKey>,
    recovering: bool,
    used: set<BlobId>)

  datatype Event =
    | Reserve(id: BlobId, owner: Owner, limit: nat, declared: Option<nat>, expected: Option<Digest>, free: nat)
    | Journal(id: BlobId)
    | OpenPart(id: BlobId)
    | Stage(id: BlobId)
    | Chunk(id: BlobId, bytes: Bytes)
    | Complete(id: BlobId)
    | FailReceive(id: BlobId)
    | Rename(id: BlobId)
    | FailRename(id: BlobId, moved: bool)
    | Publish(id: BlobId, now: Time)
    | FailPublish(id: BlobId, committed: bool, now: Time)
    | CleanUp(id: BlobId)
    | Finish(id: BlobId)
    | Die(id: BlobId)
    | AbandonPart(id: BlobId)
    | AbandonFile(id: BlobId, owner: Owner)
    | AbandonRow(id: BlobId)
    | AbandonJournal(id: BlobId)
    | Delete(id: BlobId, owner: Owner, now: Time)
    | Expire(id: BlobId, now: Time)
    | Unlink(key: FileKey)
    | Purge(id: BlobId, now: Time)
    | FindCorrupt(id: BlobId)
    | TakeLease(id: BlobId, holder: Holder)
    | DropLease(id: BlobId, holder: Holder)
    | Crash
    | Recovery(mv: RecoveryMove)
    | Open

  const MAX_BLOB_BYTES: nat := 1073741824

  predicate Counted(r: Row) {
    r.state.Published? || r.state.Staging? || r.state.Reserved?
  }

  /** `usage(owner).total_bytes`. */
  ghost function OwnerTable(d: Durable, owner: Owner): (w: map<BlobId, nat>) {
    map id | id in d.rows && Counted(d.rows[id]) && d.rows[id].owner == owner :: d.rows[id].size
  }

  /** `global_bytes`. */
  ghost function GlobalTable(d: Durable): (w: map<BlobId, nat>) {
    map id | id in d.rows && Counted(d.rows[id]) :: d.rows[id].size
  }

  ghost predicate QuotaAdmits(p: Policy, d: Durable, owner: Owner, size: nat, free: nat) {
    && size > 0
    && free >= p.minFree + size
    && Sum(OwnerTable(d, owner)) + size <= p.ownerQuota
    && Sum(GlobalTable(d)) + size <= p.globalQuota
  }

  function At(s: Store, id: BlobId, d: Durable, stage: Progress): (s': Store)
    requires id in s.uploads
  {
    s.(durable := d, uploads := s.uploads[id := s.uploads[id].(stage := stage)])
  }

  function Gone(s: Store, id: BlobId, d: Durable): (s': Store) {
    s.(durable := d, uploads := s.uploads - {id})
  }

  predicate AtStage(s: Store, id: BlobId, stage: Progress) {
    id in s.uploads && s.uploads[id].stage == stage
  }

  predicate Accepted(h: Bytes -> Digest, u: Upload) {
    Matches(h, u.received, u.declared, u.expected)
  }

  function Received(s: Store, id: BlobId, bytes: Bytes): (s': Store)
    requires id in s.uploads
  {
    var u := s.uploads[id];
    var d := if id in s.durable.parts then s.durable.(parts := s.durable.parts[id := s.durable.parts[id] + bytes])
        else s.durable;
    s.(durable := d, uploads := s.uploads[id := u.(received := u.received + bytes)])
  }

  function MovePart(d: Durable, id: BlobId, owner: Owner): (d': Durable)
    requires id in d.parts
  {
    d.(files := d.files[FileKey(owner, id) := d.parts[id]], parts := d.parts - {id})
  }

  ghost predicate MayAct(p: Policy, s: Store, e: Event) {
    match e
    case Reserve(id, owner, limit, declared, _, free) =>
      && id !in s.used && limit <= MAX_BLOB_BYTES && QuotaAdmits(p, s.durable, owner, limit, free)
      && (declared.Some? ==> declared.value == limit)
    case Journal(id) => AtStage(s, id, Waiting)
    case OpenPart(id) => AtStage(s, id, Journalled) && id !in s.durable.parts
    case Stage(id) => AtStage(s, id, Opened)
    case Chunk(id, bytes) => AtStage(s, id, Receiving)
    case Complete(id) => AtStage(s, id, Receiving)
    case FailReceive(id) => AtStage(s, id, Opened) || AtStage(s, id, Receiving)
    case Rename(id) => AtStage(s, id, Pending) && id in s.durable.parts
    case FailRename(id, moved) => AtStage(s, id, Pending) && (moved ==> id in s.durable.parts)
    case Publish(id, _) => AtStage(s, id, Renamed)
    case FailPublish(id, _, _) => AtStage(s, id, Renamed)
    case CleanUp(id) =>
      AtStage(s, id, ReceiveFailed) || AtStage(s, id, ReceiveCleaned) || AtStage(s, id, RenameFailed)
      || AtStage(s, id, RenameCleaned) || AtStage(s, id, PublishFailed) || AtStage(s, id, PublishCleaned)
    case Finish(id) => AtStage(s, id, Committed) || AtStage(s, id, Marked) || AtStage(s, id, Aborted)
    case Die(id) => id in s.uploads
    case Unlink(key) => key in s.unlinks
    case _ => true
  }

  ghost predicate Enabled(h: Bytes -> Digest, p: Policy, s: Store, e: Event) {
    if e.Crash? then true
    else if e.Recovery? then s.recovering && MayMove(h, s.durable, e.mv)
    else if e.Open? then s.recovering && Settled(h, s.durable)
    else !s.recovering && MayAct(p, s, e)
  }

  /** The failure handlers: remove the temporary or published file, give the reservation back,
      and, past the receive phase, clear the journal. */
  function Cleaned(s: Store, id: BlobId): (s': Store)
    requires id in s.uploads
  {
    var d, u := s.durable, s.uploads[id];
    match u.stage
    case ReceiveFailed => At(s, id, RemovePart(d, id), ReceiveCleaned)
    case ReceiveCleaned => Gone(s, id, AbortRow(d, id))
    case RenameFailed => At(s, id, RemovePart(d, id), RenameCleaned)
    case RenameCleaned => At(s, id, AbortRow(d, id), Aborted)
    case PublishFailed => At(s, id, RemoveFile(d, FileKey(u.owner, id)), PublishCleaned)
    case PublishCleaned => At(s, id, AbortRow(d, id), Aborted)
    case _ => s
  }

  function Finished(h: Bytes -> Digest, s: Store, id: BlobId): (s': Store)
    requires id in s.uploads
  {
    var d, u := s.durable, s.uploads[id];
    match u.stage
    case Committed => At(s, id, WriteJournal(d, id, StepPublished, Some(h(u.received)), |u.received|), Marked)
    case _ => Gone(s, id, ClearJournal(d, id))
  }

  function Deletes(p: Policy, s: Store, id: BlobId, owner: Owner, now: Time): (s': Store) {
    var d := s.durable;
    if id !in d.rows || d.rows[id].owner != owner then s
    else if d.rows[id].state.Deleted? then s.(unlinks := s.unlinks + {FileKey(owner, id)})
    else if IsLeased(d, id) then s
    else s.(durable := Tombstone(d, id, now + p.tombstone), unlinks := s.unlinks + {FileKey(owner, id)})
  }

  function Expires(p: Policy, s: Store, id: BlobId, now: Time): (s': Store) {
    var d := s.durable;
    if !IsPublished(d, id) || d.rows[id].expiresAt.None? || now < d.rows[id].expiresAt.value || IsLeased(d, id) then s
    else s.(durable := Tombstone(d, id, now + p.tombstone), unlinks := s.unlinks + {KeyOf(d, id)})
  }

  function Purges(s: Store, id: BlobId, now: Time): (s': Store) {
    var d := s.durable;
    if id in d.rows && (d.rows[id].state.Deleted? || d.rows[id].state.Corrupt?)
       && d.rows[id].expiresAt.Some? && d.rows[id].expiresAt.value <= now
    then s.(durable := d.(rows := d.rows - {id}))
    else s
  }

  function Completes(h: Bytes -> Digest, s: Store, id: BlobId): (s': Store)
    requires id in s.uploads
  {
    var u := s.uploads[id];
    if Accepted(h, u)
    then At(s, id, WriteJournal(s.durable, id, StepPending, Some(h(u.received)), |u.received|), Pending)
    else At(s, id, s.durable, ReceiveFailed)
  }

  function Publishes(h: Bytes -> Digest, p: Policy, s: Store, id: BlobId, now: Time): (s': Store)
    requires id in s.uploads
  {
    var u := s.uploads[id];
    if IsOpen(s.durable, id)
    then At(s, id, PublishRow(s.durable, id, h(u.received), |u.received|, now + p.retention), Committed)
    else At(s, id, s.durable, if IsPublished(s.durable, id) then Committed else PublishFailed)
  }

  /** The publish call ends in an exception; a cancelled wait for it can leave the transaction
      running, and then it commits all the same. */
  function FailsToPublish(h: Bytes -> Digest, p: Policy, s: Store, id: BlobId, committed: bool, now: Time): (s': Store)
    requires id in s.uploads
  {
    var d, u := s.durable, s.uploads[id];
    At(s, id, if committed then PublishRow(d, id, h(u.received), |u.received|, now + p.retention) else d, PublishFailed)
  }

  predicate IsReceiveEvent(e: Event) {
    e.Reserve? || e.Journal? || e.OpenPart? || e.Stage? || e.Chunk? || e.Complete? || e.FailReceive?
  }

  predicate IsPublishEvent(e: Event) {
    e.Rename? || e.FailRename? || e.Publish? || e.FailPublish? || e.Finish? || e.Die?
  }

  predicate IsUploadEvent(e: Event) {
    IsReceiveEvent(e) || IsPublishEvent(e) || e.CleanUp?
  }

  predicate IsAbandonEvent(e: Event) {
    e.AbandonPart? || e.AbandonFile? || e.AbandonRow? || e.AbandonJournal?
  }

  /** Reserving, journalling and receiving. */
  ghost function DoReceive(h: Bytes -> Digest, p: Policy, s: Store, e: Event): (s': Store)
    requires IsReceiveEvent(e) && MayAct(p, s, e)
  {
    var d := s.durable;
    match e
    case Reserve(id, owner, limit, declared, expected, _) =>
      s.(durable := SetRow(d, id, Row(owner, None, limit, Reserved, None)),
         uploads := s.uploads[id := Upload(owner, limit, declared, expected, [], Waiting)], used := s.used + {id})
    case Journal(id) =>
      At(s, id, WriteJournal(d, id, StepStaging, s.uploads[id].expected, s.uploads[id].limit), Journalled)
    case OpenPart(id) => At(s, id, d.(parts := d.parts[id := []]), Opened)
    case Stage(id) => At(s, id, BeginStaging(d, id), if id in d.rows then Receiving else ReceiveFailed)
    case Chunk(id, bytes) =>
      if |s.uploads[id].received| + |bytes| > s.uploads[id].limit then At(s, id, d, ReceiveFailed)
          else Received(s, id, bytes)
    case Complete(id) => Completes(h, s, id)
    case FailReceive(id) => At(s, id, d, ReceiveFailed)
  }

  /** Renaming, publishing, finishing and dying. */
  ghost function DoPublish(h: Bytes -> Digest, p: Policy, s: Store, e: Event): (s': Store)
    requires IsPublishEvent(e) && MayAct(p, s, e)
  {
    var d := s.durable;
    match e
    case Rename(id) => At(s, id, MovePart(d, id, s.uploads[id].owner), Renamed)
    case FailRename(id, moved) => At(s, id, if moved then MovePart(d, id, s.uploads[id].owner) else d, RenameFailed)
    case Publish(id, now) => Publishes(h, p, s, id, now)
    case FailPublish(id, committed, now) => FailsToPublish(h, p, s, id, committed, now)
    case Finish(id) => Finished(h, s, id)
    case Die(id) => Gone(s, id, d)
  }

  /** `abandon_output`, in any order and at any time. */
  ghost function DoAbandon(s: Store, e: Event): (s': Store)
    requires IsAbandonEvent(e)
  {
    var d := s.durable;
    match e
    case AbandonPart(id) => s.(durable := RemovePart(d, id))
    case AbandonFile(id, owner) => s.(durable := RemoveFile(d, FileKey(owner, id)))
    case AbandonRow(id) => s.(durable := AbortRow(d, id))
    case AbandonJournal(id) => s.(durable := ClearJournal(d, id))
  }

  /** Deletion, expiry, reads and crashes. */
  ghost function DoOther(p: Policy, s: Store, e: Event): (s': Store)
    requires !IsUploadEvent(e) && !IsAbandonEvent(e) && !e.Recovery?
  {
    var d := s.durable;
    match e
    case Delete(id, owner, now) => Deletes(p, s, id, owner, now)
    case Expire(id, now) => Expires(p, s, id, now)
    case Unlink(key) => s.(durable := RemoveFile(d, key), unlinks := s.unlinks - {key})
    case Purge(id, now) => Purges(s, id, now)
    case FindCorrupt(id) => s.(durable := MarkCorrupt(d, id))
    case TakeLease(id, holder) =>
      if IsPublished(d, id) then s.(durable := d.(leases := d.leases + {ReadLease(id, holder)})) else s
    case DropLease(id, holder) => s.(durable := d.(leases := d.leases - {ReadLease(id, holder)}))
    case Crash => s.(uploads := map[], unlinks := {}, recovering := true)
    case Open => s.(recovering := false)
  }

  ghost function Do(h: Bytes -> Digest, p: Policy, s: Store, e: Event): (s': Store)
    requires Enabled(h, p, s, e)
  {
    if IsReceiveEvent(e) then DoReceive(h, p, s, e)
    else if IsPublishEvent(e) then DoPublish(h, p, s, e)
    else if e.CleanUp? then Cleaned(s, e.id)
    else if IsAbandonEvent(e) then DoAbandon(s, e)
    else if e.Recovery? then s.(durable := Move(h, s.durable, e.mv))
    else DoOther(p, s, e)
  }

  lemma IsCleaning(p: Policy, s: Store, e: Event)
    requires MayAct(p, s, e) && e.CleanUp?
    ensures e.id in s.uploads
  {
  }

  /** Recovery runs before any upload of the new process. */
  lemma RecoveringIsAlone(h: Bytes -> Digest, p: Policy, s: Store, e: Event)
    requires Enabled(h, p, s, e) && (s.recovering ==> s.uploads == map[])
    ensures Do(h, p, s, e).recovering ==> Do(h, p, s, e).uploads == map[]
  {
    hide QuotaAdmits, Settled, MayMove, Move;
  }

  ghost predicate Steps(h: Bytes -> Digest, p: Policy, s: Store, e: Event, s': Store) {
    Enabled(h, p, s, e) && s' == Do(h, p, s, e)
  }

  ghost predicate IsHistory(h: Bytes -> Digest, p: Policy, ss: seq<Store>, es: seq<Event>) {
    |ss| == |es| + 1 && forall i :: 0 <= i < |es| ==> Steps(h, p, ss[i], es[i], ss[i + 1])
  }

  ghost predicate Empty(s: Store) {
    s == Store(Durable(map[], map[], map[], map[], {}), map[], {}, false, {})
  }
}
