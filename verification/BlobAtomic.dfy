/** An upload is atomic under crashes, over every run of the blob store. */
module BlobAtomic {
  import opened Prelude
  import opened BlobModel
  import opened BlobRuns

  /** Events that take a blob away from under its upload, or that report a rename or a publish
      transaction as failed although it happened. Crash atomicity is about the runs without them. */
  predicate Disturbs(e: Event, id: BlobId) {
    match e
    case Delete(x, _, _) => x == id
    case Expire(x, _) => x == id
    case FindCorrupt(x) => x == id
    case AbandonPart(x) => x == id
    case AbandonFile(x, _) => x == id
    case AbandonRow(x) => x == id
    case AbandonJournal(x) => x == id
    case FailRename(x, moved) => x == id && moved
    case FailPublish(x, committed, _) => x == id && committed
    case _ => false
  }

  predicate NoFile(d: Durable, id: BlobId) {
    forall key :: key in d.files ==> key.id != id
  }

  predicate OwnFileOnly(d: Durable, id: BlobId) {
    id in d.rows && forall key :: key in d.files && key.id == id ==> key == KeyOf(d, id)
  }

  /** The four shapes one id can have between two durable steps: absent, reserved without a
      published file, renamed with its bytes journalled, and published with its file. */
  predicate Absent(d: Durable, id: BlobId) {
    id !in d.rows && id !in d.parts && NoFile(d, id)
  }

  predicate Begun(d: Durable, id: BlobId) {
    IsOpen(d, id) && NoFile(d, id)
  }

  predicate Moved(h: Bytes -> Digest, d: Durable, id: BlobId) {
    Completable(h, d, id) && id !in d.parts && OwnFileOnly(d, id)
  }

  predicate Kept(h: Bytes -> Digest, d: Durable, id: BlobId) {
    Readable(h, d, id) && id !in d.parts && OwnFileOnly(d, id)
  }

  predicate Shaped(h: Bytes -> Digest, d: Durable, id: BlobId) {
    Absent(d, id) || Begun(d, id) || Moved(h, d, id) || Kept(h, d, id)
  }

  predicate PartIs(d: Durable, id: BlobId, bytes: Bytes) {
    id in d.parts && d.parts[id] == bytes
  }

  /** Which shape each stage of an upload goes with. */
  predicate StageShape(h: Bytes -> Digest, d: Durable, id: BlobId, u: Upload) {
    && (id in d.rows ==> d.rows[id].owner == u.owner)
    && match u.stage
       case Waiting => Begun(d, id) && id !in d.parts && u.received == []
       case Journalled => Begun(d, id) && id !in d.parts && u.received == []
       case Opened => Begun(d, id) && PartIs(d, id, u.received)
       case Receiving => Begun(d, id) && PartIs(d, id, u.received)
       case Pending => Begun(d, id) && PartIs(d, id, u.received)
                       && id in d.journal && d.journal[id] == Entry(StepPending, Some(h(u.received)), |u.received|)
       case Renamed => Moved(h, d, id) && d.files[KeyOf(d, id)] == u.received
       case Committed => Kept(h, d, id)
       case Marked => Kept(h, d, id)
       case ReceiveFailed => Begun(d, id)
       case ReceiveCleaned => Begun(d, id) && id !in d.parts
       case RenameFailed => Begun(d, id)
       case RenameCleaned => Begun(d, id) && id !in d.parts
       case PublishFailed => Moved(h, d, id)
       case PublishCleaned => Begun(d, id) && id !in d.parts
       case Aborted => Absent(d, id)
  }

  ghost predicate AtomicInv(h: Bytes -> Digest, s: Store, id: BlobId) {
    && Shaped(h, s.durable, id)
    && (id !in s.used ==> Absent(s.durable, id) && id !in s.uploads)
    && (id in s.uploads ==> StageShape(h, s.durable, id, s.uploads[id]))
    && (forall key :: key in s.unlinks ==> key.id != id)
  }

  predicate SameTables(d: Durable, d': Durable, id: BlobId) {
    && (id in d'.rows <==> id in d.rows)
    && (id in d.rows ==> d'.rows[id] == d.rows[id])
    && (id in d'.journal <==> id in d.journal)
    && (id in d.journal ==> d'.journal[id] == d.journal[id])
    && (id in d'.parts <==> id in d.parts)
    && (id in d.parts ==> d'.parts[id] == d.parts[id])
  }

  predicate SameUpload(s: Store, s': Store, id: BlobId) {
    && (id in s'.uploads <==> id in s.uploads)
    && (id in s.uploads ==> s'.uploads[id] == s.uploads[id])
    && (id in s'.used <==> id in s.used)
  }

  predicate SameFile(s: Store, s': Store, key: FileKey) {
    && (key in s'.durable.files <==> key in s.durable.files)
    && (key in s.durable.files ==> s'.durable.files[key] == s.durable.files[key])
    && (key in s'.unlinks ==> key in s.unlinks)
  }

  predicate SameAt(s: Store, s': Store, key: FileKey) {
    SameTables(s.durable, s'.durable, key.id) && SameUpload(s, s', key.id) && SameFile(s, s', key)
  }

  /** Nothing about this id, durable or running, differs. */
  ghost predicate SameFor(s: Store, s': Store, id: BlobId) {
    forall key: FileKey :: key.id == id ==> SameAt(s, s', key)
  }

  lemma SameForKeeps(h: Bytes -> Digest, s: Store, s': Store, id: BlobId)
    requires AtomicInv(h, s, id) && SameFor(s, s', id)
    ensures AtomicInv(h, s', id)
  {
    assert SameAt(s, s', FileKey(Owner(0), id));
    assert forall key :: key in s'.unlinks && key.id == id ==> SameAt(s, s', key);
    assert forall key :: key in s'.durable.files && key.id == id ==> SameAt(s, s', key);
    assert id in s.durable.rows ==> SameAt(s, s', KeyOf(s.durable, id));
  }

  /** The id an event works on, if it works on one. */
  function Subject(e: Event): (id: Option<BlobId>) {
    match e
    case Unlink(key) => Some(key.id)
    case Crash => None
    case Open => None
    case Recovery(mv) => if mv.AddProtection? then None else Some(mv.id)
    case _ => Some(e.id)
  }

  lemma ReceiveActsAlone(h: Bytes -> Digest, p: Policy, s: Store, e: Event, key: FileKey)
    requires IsReceiveEvent(e) && MayAct(p, s, e) && e.id != key.id
    ensures SameAt(s, DoReceive(h, p, s, e), key)
  {
    if e.Reserve? || e.Journal? || e.OpenPart? || e.Stage? {
      hide SameAt, DoReceive, MayAct;
      ReserveActsAlone(h, p, s, e, key);
    } else {
      hide QuotaAdmits, Received, Completes, BeginStaging;
      assert e.id in s.uploads;
      if e.Complete? { CompletesActsAlone(h, s, e.id, key); }
      if e.Chunk? { ReceivedActsAlone(s, e.id, e.bytes, key); }
    }
  }

  lemma CompletesActsAlone(h: Bytes -> Digest, s: Store, x: BlobId, key: FileKey)
    requires x in s.uploads && x != key.id
    ensures SameAt(s, Completes(h, s, x), key)
  {
    hide Accepted;
  }

  lemma ReceivedActsAlone(s: Store, x: BlobId, bytes: Bytes, key: FileKey)
    requires x in s.uploads && x != key.id
    ensures SameAt(s, Received(s, x, bytes), key)
  {
  }

  lemma ReserveActsAlone(h: Bytes -> Digest, p: Policy, s: Store, e: Event, key: FileKey)
    requires e.Reserve? || e.Journal? || e.OpenPart? || e.Stage?
    requires MayAct(p, s, e) && e.id != key.id
    ensures SameAt(s, DoReceive(h, p, s, e), key)
  {
    hide QuotaAdmits, Completes, Received;
  }

  lemma RenameActsAlone(h: Bytes -> Digest, p: Policy, s: Store, e: Event, key: FileKey)
    requires (e.Rename? || e.FailRename?) && MayAct(p, s, e) && e.id != key.id
    ensures SameAt(s, DoPublish(h, p, s, e), key)
  {
    hide QuotaAdmits, Publishes, Finished;
  }

  lemma PublishActsAlone(h: Bytes -> Digest, p: Policy, s: Store, e: Event, key: FileKey)
    requires IsPublishEvent(e) && MayAct(p, s, e) && e.id != key.id
    ensures SameAt(s, DoPublish(h, p, s, e), key)
  {
    if e.Rename? || e.FailRename? {
      hide SameAt, DoPublish, MayAct;
      RenameActsAlone(h, p, s, e, key);
    } else {
      hide QuotaAdmits, MovePart;
    }
  }

  lemma CleaningTables(d: Durable, x: BlobId, owner: Owner, key: FileKey)
    requires x != key.id
    ensures SameTables(d, RemovePart(d, x), key.id) && RemovePart(d, x).files == d.files
    ensures SameTables(d, AbortRow(d, x), key.id) && AbortRow(d, x).files == d.files
    ensures SameTables(d, RemoveFile(d, FileKey(owner, x)), key.id)
    ensures key in RemoveFile(d, FileKey(owner, x)).files <==> key in d.files
    ensures key in d.files ==> RemoveFile(d, FileKey(owner, x)).files[key] == d.files[key]
  {
  }

  lemma MovedOnActsAlone(s: Store, x: BlobId, d: Durable, stage: Progress, key: FileKey)
    requires x in s.uploads && x != key.id && SameTables(s.durable, d, key.id)
    requires (key in d.files <==> key in s.durable.files) && (key in d.files ==> d.files[key] == s.durable.files[key])
    ensures SameAt(s, At(s, x, d, stage), key) && SameAt(s, Gone(s, x, d), key)
  {
    hide SameTables;
  }

  lemma CleanActsAlone(s: Store, x: BlobId, key: FileKey)
    requires x in s.uploads && x != key.id
    ensures SameAt(s, Cleaned(s, x), key)
  {
    var d, key' := s.durable, FileKey(s.uploads[x].owner, x);
    assert SameAt(s, s, key);
    CleaningTables(d, x, s.uploads[x].owner, key);
    hide SameAt, SameTables, At, Gone, RemovePart, AbortRow, RemoveFile;
    MovedOnActsAlone(s, x, RemovePart(d, x), ReceiveCleaned, key);
    MovedOnActsAlone(s, x, RemovePart(d, x), RenameCleaned, key);
    MovedOnActsAlone(s, x, AbortRow(d, x), Aborted, key);
    MovedOnActsAlone(s, x, RemoveFile(d, key'), PublishCleaned, key);
  }

  lemma AbandonActsAlone(s: Store, e: Event, key: FileKey)
    requires IsAbandonEvent(e) && e.id != key.id
    ensures SameAt(s, DoAbandon(s, e), key)
  {
  }

  lemma DeleteActsAlone(p: Policy, s: Store, id: BlobId, owner: Owner, now: Time, key: FileKey)
    requires id != key.id
    ensures SameAt(s, Deletes(p, s, id, owner, now), key)
  {
    hide IsLeased;
  }

  lemma ExpireActsAlone(p: Policy, s: Store, id: BlobId, now: Time, key: FileKey)
    requires id != key.id
    ensures SameAt(s, Expires(p, s, id, now), key)
  {
    hide IsLeased;
  }

  lemma RemovalActsAlone(p: Policy, s: Store, e: Event, key: FileKey)
    requires (e.Delete? || e.Expire? || e.Unlink?) && Subject(e) != Some(key.id)
    ensures SameAt(s, DoOther(p, s, e), key)
  {
    hide Deletes, Expires, Purges, MarkCorrupt;
    if e.Delete? { DeleteActsAlone(p, s, e.id, e.owner, e.now, key); }
    if e.Expire? { ExpireActsAlone(p, s, e.id, e.now, key); }
  }

  lemma OtherActsAlone(p: Policy, s: Store, e: Event, key: FileKey)
    requires !IsUploadEvent(e) && !IsAbandonEvent(e) && !e.Recovery? && !e.Crash? && Subject(e) != Some(key.id)
    requires !e.Delete? && !e.Expire? && !e.Unlink?
    ensures SameAt(s, DoOther(p, s, e), key)
  {
    hide Deletes, Expires;
  }

  lemma MoveActsAlone(h: Bytes -> Digest, s: Store, mv: RecoveryMove, key: FileKey)
    requires MayMove(h, s.durable, mv) && (mv.AddProtection? || mv.id != key.id)
    ensures SameAt(s, s.(durable := Move(h, s.durable, mv)), key)
  {
  }

  lemma ActsAlone(h: Bytes -> Digest, p: Policy, s: Store, e: Event, id: BlobId)
    requires Enabled(h, p, s, e) && !e.Crash? && Subject(e) != Some(id)
    ensures SameFor(s, Do(h, p, s, e), id)
  {
    hide SameAt, MayAct, MayMove, Move, DoReceive, DoPublish, Cleaned, DoAbandon, DoOther;
    forall key: FileKey | key.id == id
      ensures SameAt(s, Do(h, p, s, e), key)
    {
      if IsReceiveEvent(e) {
        ReceiveActsAlone(h, p, s, e, key);
      } else if IsPublishEvent(e) {
        PublishActsAlone(h, p, s, e, key);
      } else if e.CleanUp? {
        IsCleaning(p, s, e);
        CleanActsAlone(s, e.id, key);
      } else if IsAbandonEvent(e) {
        AbandonActsAlone(s, e, key);
      } else if e.Recovery? {
        MoveActsAlone(h, s, e.mv, key);
      } else if e.Delete? || e.Expire? || e.Unlink? {
        RemovalActsAlone(p, s, e, key);
      } else {
        OtherActsAlone(p, s, e, key);
      }
    }
  }

  // ---- an upload's own events ---------------------------------------------------------------

  lemma ReceivePhaseKeeps(h: Bytes -> Digest, p: Policy, s: Store, e: Event)
    requires IsReceiveEvent(e) && MayAct(p, s, e) && AtomicInv(h, s, e.id)
    ensures AtomicInv(h, DoReceive(h, p, s, e), e.id)
  {
    hide QuotaAdmits, Accepted;
  }

  lemma RenameKeeps(h: Bytes -> Digest, p: Policy, s: Store, e: Event)
    requires (e.Rename? || e.FailRename?) && MayAct(p, s, e) && AtomicInv(h, s, e.id) && !Disturbs(e, e.id)
    ensures AtomicInv(h, DoPublish(h, p, s, e), e.id)
  {
    hide QuotaAdmits, Publishes, Finished;
  }

  lemma PublishPhaseKeeps(h: Bytes -> Digest, p: Policy, s: Store, e: Event)
    requires IsPublishEvent(e) && MayAct(p, s, e) && AtomicInv(h, s, e.id) && !Disturbs(e, e.id)
    ensures AtomicInv(h, DoPublish(h, p, s, e), e.id)
  {
    if e.Rename? || e.FailRename? {
      hide AtomicInv, DoPublish, MayAct;
      RenameKeeps(h, p, s, e);
    } else if e.Publish? {
      hide AtomicInv, DoPublish, MayAct;
      CommitKeeps(h, p, s, e);
    } else {
      hide QuotaAdmits, MovePart, Publishes;
    }
  }

  lemma CommitKeeps(h: Bytes -> Digest, p: Policy, s: Store, e: Event)
    requires e.Publish? && MayAct(p, s, e) && AtomicInv(h, s, e.id)
    ensures AtomicInv(h, DoPublish(h, p, s, e), e.id)
  {
    hide QuotaAdmits, MovePart, Finished;
  }

  lemma PartGone(d: Durable, id: BlobId)
    requires Begun(d, id)
    ensures Begun(RemovePart(d, id), id) && id !in RemovePart(d, id).parts && RemovePart(d, id).rows == d.rows
  {
  }

  lemma RowGone(d: Durable, id: BlobId)
    requires Begun(d, id) && id !in d.parts
    ensures Absent(AbortRow(d, id), id)
  {
  }

  lemma FileGone(h: Bytes -> Digest, d: Durable, id: BlobId)
    requires Moved(h, d, id)
    ensures var d' := RemoveFile(d, KeyOf(d, id)); Begun(d', id) && id !in d'.parts && d'.rows == d.rows
  {
  }

  /** The handlers walk back through the shapes they came from. */
  lemma CleanUpKeeps(h: Bytes -> Digest, p: Policy, s: Store, e: Event)
    requires e.CleanUp? && MayAct(p, s, e) && AtomicInv(h, s, e.id)
    ensures AtomicInv(h, Cleaned(s, e.id), e.id)
  {
    var d, id, stage := s.durable, e.id, s.uploads[e.id].stage;
    assert StageShape(h, d, id, s.uploads[id]);
    if stage.ReceiveFailed? || stage.RenameFailed? { PartGone(d, id); }
    if stage.ReceiveCleaned? || stage.RenameCleaned? || stage.PublishCleaned? { RowGone(d, id); }
    if stage.PublishFailed? {
      assert Moved(h, d, id) && id in d.rows;
      FileGone(h, d, id);
    }
    assert Absent(AbortRow(d, id), id) ==> id !in AbortRow(d, id).rows;
    hide Begun, Absent, Moved, Kept, RemovePart, AbortRow, RemoveFile, MayAct, PartIs;
  }

  lemma RecoveryKeepsShape(h: Bytes -> Digest, d: Durable, mv: RecoveryMove, id: BlobId)
    requires MayMove(h, d, mv) && Shaped(h, d, id) && !mv.AddProtection? && mv.id == id
    ensures Shaped(h, Move(h, d, mv), id)
    ensures Absent(d, id) ==> Absent(Move(h, d, mv), id)
  {
  }

  lemma OtherKeepsShape(h: Bytes -> Digest, p: Policy, s: Store, e: Event, id: BlobId)
    requires MayAct(p, s, e) && AtomicInv(h, s, id) && !Disturbs(e, id)
    requires !IsUploadEvent(e) && !IsAbandonEvent(e) && !e.Recovery? && Subject(e) == Some(id)
    ensures AtomicInv(h, DoOther(p, s, e), id)
  {
    hide QuotaAdmits, Deletes, Expires;
  }

  lemma CrashKeepsShape(h: Bytes -> Digest, p: Policy, s: Store, e: Event, id: BlobId)
    requires e.Crash? && AtomicInv(h, s, id)
    ensures AtomicInv(h, DoOther(p, s, e), id)
  {
    hide StageShape, Shaped, Absent;
  }

  lemma EventKeepsAtomic(h: Bytes -> Digest, p: Policy, s: Store, e: Event, id: BlobId)
    requires Enabled(h, p, s, e) && AtomicInv(h, s, id) && !Disturbs(e, id)
    requires s.recovering ==> s.uploads == map[]
    ensures AtomicInv(h, Do(h, p, s, e), id)
  {
    hide MayAct, MayMove, Move, DoReceive, DoPublish, Cleaned, DoAbandon, DoOther, Shaped, Absent, StageShape;
    if e.Crash? {
      CrashKeepsShape(h, p, s, e, id);
    } else if Subject(e) != Some(id) {
      ActsAlone(h, p, s, e, id);
      SameForKeeps(h, s, Do(h, p, s, e), id);
    } else if IsReceiveEvent(e) {
      ReceivePhaseKeeps(h, p, s, e);
    } else if IsPublishEvent(e) {
      PublishPhaseKeeps(h, p, s, e);
    } else if e.CleanUp? {
      CleanUpKeeps(h, p, s, e);
    } else if e.Recovery? {
      RecoveryKeepsShape(h, s.durable, e.mv, id);
    } else {
      OtherKeepsShape(h, p, s, e, id);
    }
  }

  ghost predicate Undisturbed(es: seq<Event>, id: BlobId, i: nat)
    requires i <= |es|
  {
    forall k :: 0 <= k < i ==> !Disturbs(es[k], id)
  }

  lemma {:induction false} HistoryKeepsAtomic(h: Bytes -> Digest, p: Policy, ss: seq<Store>, es: seq<Event>, i: nat,
                                              id: BlobId)
    requires IsHistory(h, p, ss, es) && Empty(ss[0]) && i < |ss| && Undisturbed(es, id, i)
    ensures AtomicInv(h, ss[i], id) && (ss[i].recovering ==> ss[i].uploads == map[])
  {
    hide Do, Enabled;
    if i > 0 {
      hide AtomicInv, Disturbs;
      HistoryKeepsAtomic(h, p, ss, es, i - 1, id);
      assert Steps(h, p, ss[i - 1], es[i - 1], ss[i]);
      EventKeepsAtomic(h, p, ss[i - 1], es[i - 1], id);
      RecoveringIsAlone(h, p, ss[i - 1], es[i - 1]);
    }
  }

  /** Crash atomicity: stop an undisturbed run at any durable step of any upload, including inside
      an earlier recovery, and recover. The upload's id is then either published with a file of
      the row's size and hash, or it has no row, no `.part` file and no published file. */
  lemma CrashAtomicity(h: Bytes -> Digest, p: Policy, ss: seq<Store>, es: seq<Event>, i: nat, id: BlobId, now: Time)
    requires IsHistory(h, p, ss, es) && Empty(ss[0]) && i < |ss| && Undisturbed(es, id, i)
    ensures var d := Recovered(h, p, ss[i].durable, now);
            Readable(h, d, id) != (id !in d.rows && id !in d.parts && NoFile(d, id))
    ensures Readable(h, Recovered(h, p, ss[i].durable, now), id) <==>
              Moved(h, ss[i].durable, id) || Kept(h, ss[i].durable, id)
  {
    hide IsHistory, Undisturbed;
    HistoryKeepsAtomic(h, p, ss, es, i, id);
    ShapedRecovers(h, p, ss[i].durable, id, now);
  }

  lemma ShapedRecovers(h: Bytes -> Digest, p: Policy, d: Durable, id: BlobId, now: Time)
    requires Shaped(h, d, id)
    ensures var d' := Recovered(h, p, d, now);
            && (Moved(h, d, id) || Kept(h, d, id) ==> Readable(h, d', id))
            && (Absent(d, id) || Begun(d, id) ==> Absent(d', id))
  {
    assert Begun(d, id) ==> !Completable(h, d, id);
  }

  /** Once the publish transaction has committed, only the first outcome is possible, and the
      blob stays exactly what it was. */
  lemma {:induction false} CommittedStaysReadable(h: Bytes -> Digest, p: Policy, ss: seq<Store>, es: seq<Event>,
                                                  i: nat, j: nat, id: BlobId)
    requires IsHistory(h, p, ss, es) && Empty(ss[0]) && i <= j < |ss| && Undisturbed(es, id, j)
    requires IsPublished(ss[i].durable, id)
    ensures Readable(h, ss[j].durable, id) && PublishedAt(ss[j].durable, id) == PublishedAt(ss[i].durable, id)
    decreases j
  {
    hide Do, Enabled;
    HistoryKeepsAtomic(h, p, ss, es, j, id);
    if i < j {
      CommittedStaysReadable(h, p, ss, es, i, j - 1, id);
      assert Steps(h, p, ss[j - 1], es[j - 1], ss[j]);
      HistoryKeepsAtomic(h, p, ss, es, j - 1, id);
      hide AtomicInv, IsHistory;
      CommittedStays(h, p, ss[j - 1], es[j - 1], id);
    }
  }

  lemma CommittedStays(h: Bytes -> Digest, p: Policy, s: Store, e: Event, id: BlobId)
    requires Enabled(h, p, s, e) && AtomicInv(h, s, id) && !Disturbs(e, id) && IsPublished(s.durable, id)
    ensures PublishedAt(Do(h, p, s, e).durable, id) == PublishedAt(s.durable, id)
  {
    if Subject(e) != Some(id) && !e.Crash? {
      hide Do, Enabled, AtomicInv;
      ActsAlone(h, p, s, e, id);
      assert SameAt(s, Do(h, p, s, e), FileKey(Owner(0), id));
    } else if e.Recovery? {
      assert Readable(h, s.durable, id);
      hide DoReceive, DoPublish, Cleaned, DoAbandon, DoOther, AtomicInv;
      RecoveryKeepsPublished(h, s.durable, e.mv, id);
    } else {
      CommittedStaysAlone(h, p, s, e, id);
    }
  }

  lemma RecoveryKeepsPublished(h: Bytes -> Digest, d: Durable, mv: RecoveryMove, id: BlobId)
    requires MayMove(h, d, mv) && Readable(h, d, id)
    ensures PublishedAt(Move(h, d, mv), id) == PublishedAt(d, id)
  {
  }

  lemma CommittedStaysAlone(h: Bytes -> Digest, p: Policy, s: Store, e: Event, id: BlobId)
    requires Enabled(h, p, s, e) && AtomicInv(h, s, id) && !Disturbs(e, id) && IsPublished(s.durable, id)
    requires !e.Recovery? && (Subject(e) == Some(id) || e.Crash?)
    ensures PublishedAt(Do(h, p, s, e).durable, id) == PublishedAt(s.durable, id)
  {
    if IsUploadEvent(e) {
      assert !IsReceiveEvent(e) && !e.CleanUp? by { BusyMeansUnpublished(h, p, s, e); }
      hide AtomicInv, MayAct, DoPublish;
      PublishKeepsCommitted(h, p, s, e);
    } else {
      hide MayAct, MayMove, Move, Deletes, Expires, DoReceive, DoPublish, Cleaned, AtomicInv;
    }
  }

  /** An upload that is still receiving or cleaning up has no published row. */
  lemma BusyMeansUnpublished(h: Bytes -> Digest, p: Policy, s: Store, e: Event)
    requires IsUploadEvent(e) && MayAct(p, s, e) && AtomicInv(h, s, e.id)
    ensures IsReceiveEvent(e) || e.CleanUp? ==> !IsPublished(s.durable, e.id)
  {
    hide QuotaAdmits;
  }

  lemma PublishKeepsCommitted(h: Bytes -> Digest, p: Policy, s: Store, e: Event)
    requires IsPublishEvent(e) && MayAct(p, s, e) && AtomicInv(h, s, e.id) && IsPublished(s.durable, e.id)
    ensures PublishedAt(DoPublish(h, p, s, e).durable, e.id) == PublishedAt(s.durable, e.id)
  {
    hide QuotaAdmits;
  }
}
