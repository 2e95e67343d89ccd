/** What every event of the blob store does to each row, said on the rows before and after, and that a
    published blob is kept until its retention ends. */
module BlobAnswers {
  import opened Prelude
  import opened BlobModel
  import opened BlobRuns
  import opened BlobLeases

  function RowOf(d: Durable, id: BlobId): (row: Option<Row>) {
    if id in d.rows then Some(d.rows[id]) else None
  }

  predicate IsUnfinished(row: Option<Row>) {
    row.Some? && (row.value.state == Reserved || row.value.state == Staging)
  }

  ghost predicate HasReader(d: Durable, id: BlobId) {
    exists holder :: ReadLease(id, holder) in d.leases
  }

  /** A blob is retired by its own owner, or by the sweep once its retention has ended, and never while
      somebody reads it. */
  ghost predicate Retires(s: Store, e: Event, id: BlobId) {
    && id in s.durable.rows && !HasReader(s.durable, id)
    && var row := s.durable.rows[id];
       || (e.Delete? && e.id == id && e.owner == row.owner && row.state != Deleted)
       || (e.Expire? && e.id == id && row.state == Published && row.expiresAt.Some? && row.expiresAt.value <= e.now)
  }

  /** The publish transaction of this upload commits, reported or not. */
  predicate Commits(s: Store, e: Event, id: BlobId) {
    && (e.Publish? || (e.FailPublish? && e.committed)) && e.id == id && id in s.uploads
    && IsUnfinished(RowOf(s.durable, id))
  }

  /** The reservation goes back: a failure handler has removed the bytes, or the output is abandoned. */
  predicate GivesBack(s: Store, e: Event, id: BlobId) {
    && IsUnfinished(RowOf(s.durable, id))
    && (|| e == AbandonRow(id)
        || (&& e == CleanUp(id) && id in s.uploads
            && s.uploads[id].stage in {ReceiveCleaned, RenameCleaned, PublishCleaned}))
  }

  predicate Forgets(s: Store, e: Event, id: BlobId) {
    && e.Purge? && e.id == id && id in s.durable.rows && s.durable.rows[id].state in {Deleted, Corrupt}
    && s.durable.rows[id].expiresAt.Some? && s.durable.rows[id].expiresAt.value <= e.now
  }

  /** What recovery does to a row, where its pass makes that step. */
  function RecoveredDue(d: Durable, mv: RecoveryMove, id: BlobId): (row: Option<Row>)
    requires id in d.rows && (mv.ToPublished? ==> mv.id in d.journal)
  {
    var row := d.rows[id];
    match mv
    case ToCorrupt(x) => if x == id then Some(row.(state := Corrupt)) else Some(row)
    case ToTombstone(x, t) =>
      if x == id then Some(row.(state := Deleted, size := 0, expiresAt := Some(t))) else Some(row)
    case ToPublished(x, t) =>
      if x == id
      then Some(row.(state := Published, sha := d.journal[id].sha, size := d.journal[id].size, expiresAt := Some(t)))
      else Some(row)
    case DropRow(x) => if x == id then None else Some(row)
    case _ => Some(row)
  }

  /** The row an event leaves. */
  ghost function RowDue(h: Bytes -> Digest, p: Policy, s: Store, e: Event, id: BlobId): (row: Option<Row>)
    requires e.Recovery? && e.mv.ToPublished? ==> e.mv.id in s.durable.journal
  {
    var row := RowOf(s.durable, id);
    if e.Reserve? && e.id == id then Some(Row(e.owner, None, e.limit, Reserved, None))
    else if row.None? then None
    else if e == Stage(id) && row.value.state == Reserved then Some(row.value.(state := Staging))
    else if Commits(s, e, id) then
      Some(row.value.(state := Published, sha := Some(h(s.uploads[id].received)), size := |s.uploads[id].received|,
                      expiresAt := Some(e.now + p.retention)))
    else if GivesBack(s, e, id) || Forgets(s, e, id) then None
    else if Retires(s, e, id) then Some(row.value.(state := Deleted, expiresAt := Some(e.now + p.tombstone)))
    else if e == FindCorrupt(id) && row.value.state == Published then Some(row.value.(state := Corrupt))
    else if e.Recovery? then RecoveredDue(s.durable, e.mv, id)
    else row
  }

  lemma LeasedIff(d: Durable, id: BlobId)
    ensures IsLeased(d, id) <==> HasReader(d, id)
  {
    if IsLeased(d, id) {
      var lease :| lease in d.leases && lease.id == id;
      assert ReadLease(id, lease.holder) in d.leases;
    }
    if HasReader(d, id) {
      var holder :| ReadLease(id, holder) in d.leases;
      assert ReadLease(id, holder).id == id;
    }
  }

  lemma ReceiveFollows(h: Bytes -> Digest, p: Policy, s: Store, e: Event, id: BlobId)
    requires IsReceiveEvent(e) && MayAct(p, s, e)
    ensures RowOf(DoReceive(h, p, s, e).durable, id) == RowDue(h, p, s, e, id)
  {
    hide QuotaAdmits, Accepted, HasReader;
  }

  lemma PublishFollows(h: Bytes -> Digest, p: Policy, s: Store, e: Event, id: BlobId)
    requires IsPublishEvent(e) && MayAct(p, s, e)
    ensures RowOf(DoPublish(h, p, s, e).durable, id) == RowDue(h, p, s, e, id)
  {
    hide QuotaAdmits, HasReader;
  }

  lemma CleanFollows(h: Bytes -> Digest, p: Policy, s: Store, e: Event, id: BlobId)
    requires e.CleanUp? && e.id in s.uploads
    ensures RowOf(Cleaned(s, e.id).durable, id) == RowDue(h, p, s, e, id)
  {
    CleanedTables(s, e.id);
    hide HasReader, Cleaned;
  }

  lemma CleanedTables(s: Store, x: BlobId)
    requires x in s.uploads
    ensures var stage, d, d' := s.uploads[x].stage, s.durable, Cleaned(s, x).durable;
            && d'.rows == (if stage in {ReceiveCleaned, RenameCleaned, PublishCleaned} then AbortRow(d, x).rows
                           else d.rows)
            && d'.files == (if stage == PublishFailed then d.files - {FileKey(s.uploads[x].owner, x)} else d.files)
            && d'.leases == d.leases && Cleaned(s, x).unlinks == s.unlinks
  {
  }

  lemma AbandonFollows(h: Bytes -> Digest, p: Policy, s: Store, e: Event, id: BlobId)
    requires IsAbandonEvent(e)
    ensures RowOf(DoAbandon(s, e).durable, id) == RowDue(h, p, s, e, id)
  {
    hide HasReader;
  }

  lemma RetireFollows(h: Bytes -> Digest, p: Policy, s: Store, e: Event, id: BlobId)
    requires e.Delete? || e.Expire?
    ensures RowOf(DoOther(p, s, e).durable, id) == RowDue(h, p, s, e, id)
  {
    LeasedIff(s.durable, id);
    hide HasReader, IsLeased;
  }

  lemma OtherFollows(h: Bytes -> Digest, p: Policy, s: Store, e: Event, id: BlobId)
    requires !IsUploadEvent(e) && !IsAbandonEvent(e) && !e.Recovery?
    ensures RowOf(DoOther(p, s, e).durable, id) == RowDue(h, p, s, e, id)
  {
    if e.Delete? || e.Expire? {
      hide RowOf, RowDue, DoOther;
      RetireFollows(h, p, s, e, id);
    } else {
      hide HasReader, IsLeased, Deletes, Expires;
    }
  }

  lemma MoveFollows(h: Bytes -> Digest, p: Policy, s: Store, e: Event, id: BlobId)
    requires e.Recovery? && MayMove(h, s.durable, e.mv)
    ensures e.mv.ToPublished? ==> e.mv.id in s.durable.journal
    ensures RowOf(Move(h, s.durable, e.mv), id) == RowDue(h, p, s, e, id)
  {
    hide HasReader;
  }

  /** Every event on every store leaves every row so. */
  lemma RowsFollow(h: Bytes -> Digest, p: Policy, s: Store, e: Event, id: BlobId)
    requires Enabled(h, p, s, e)
    ensures e.Recovery? && e.mv.ToPublished? ==> e.mv.id in s.durable.journal
    ensures RowOf(Do(h, p, s, e).durable, id) == RowDue(h, p, s, e, id)
  {
    if e.Recovery? { MoveFollows(h, p, s, e, id); }
    hide RowOf, RowDue, MayAct, MayMove, Move, DoReceive, DoPublish, Cleaned, DoAbandon, DoOther, Settled;
    if IsReceiveEvent(e) {
      ReceiveFollows(h, p, s, e, id);
    } else if IsPublishEvent(e) {
      PublishFollows(h, p, s, e, id);
    } else if e.CleanUp? {
      IsCleaning(p, s, e);
      CleanFollows(h, p, s, e, id);
    } else if IsAbandonEvent(e) {
      AbandonFollows(h, p, s, e, id);
    } else if !e.Recovery? {
      OtherFollows(h, p, s, e, id);
    }
  }

  // ---- files, unlinks and read leases ----------------------------------------------------------

  function FileOf(d: Durable, key: FileKey): (bytes: Option<Bytes>) {
    if key in d.files then Some(d.files[key]) else None
  }

  /** The file is removed: by the handler of a failed publish, with an abandoned output, by a pending
      unlink, or by recovery together with an upload that cannot be finished. */
  predicate Removes(s: Store, e: Event, key: FileKey) {
    || (e == CleanUp(key.id) && AtStage(s, key.id, PublishFailed) && s.uploads[key.id].owner == key.owner)
    || e == AbandonFile(key.id, key.owner)
    || e == Unlink(key)
    || (e == Recovery(DropFile(key.id)) && key.id in s.durable.rows && s.durable.rows[key.id].owner == key.owner)
  }

  function FileDue(s: Store, e: Event, key: FileKey): (bytes: Option<Bytes>) {
    if (e.Rename? || (e.FailRename? && e.moved)) && e.id == key.id && key.id in s.uploads
       && s.uploads[key.id].owner == key.owner && key.id in s.durable.parts
    then Some(s.durable.parts[key.id])
    else if Removes(s, e, key) then None
    else FileOf(s.durable, key)
  }

  /** The file of a retired blob is unlinked, again each time its owner asks for the deletion; a crash
      forgets what was left to unlink. */
  ghost function UnlinksDue(s: Store, e: Event): (keys: set<FileKey>) {
    match e
    case Crash => {}
    case Unlink(key) => s.unlinks - {key}
    case Delete(id, owner, _) =>
      if id in s.durable.rows && s.durable.rows[id].owner == owner
         && (s.durable.rows[id].state == Deleted || !HasReader(s.durable, id))
      then s.unlinks + {FileKey(owner, id)} else s.unlinks
    case Expire(id, _) =>
      if Retires(s, e, id) then s.unlinks + {FileKey(s.durable.rows[id].owner, id)} else s.unlinks
    case _ => s.unlinks
  }

  /** A lease is taken on a published blob only; at a restart recovery takes one on each of them. */
  predicate LeaseDue(s: Store, e: Event, lease: ReadLease) {
    match e
    case TakeLease(id, holder) =>
      lease in s.durable.leases || (lease == ReadLease(id, holder) && IsPublished(s.durable, id))
    case DropLease(id, holder) => lease in s.durable.leases && lease != ReadLease(id, holder)
    case Recovery(AddProtection(holder)) =>
      lease in s.durable.leases || (lease.holder == holder && IsPublished(s.durable, lease.id))
    case _ => lease in s.durable.leases
  }

  predicate HoldsSo(s: Store, e: Event, s': Store, key: FileKey, lease: ReadLease) {
    FileOf(s'.durable, key) == FileDue(s, e, key) && (lease in s'.durable.leases <==> LeaseDue(s, e, lease))
  }

  lemma ReceiveHolds(h: Bytes -> Digest, p: Policy, s: Store, e: Event, key: FileKey, lease: ReadLease)
    requires IsReceiveEvent(e) && MayAct(p, s, e)
    ensures HoldsSo(s, e, DoReceive(h, p, s, e), key, lease) && DoReceive(h, p, s, e).unlinks == s.unlinks
  {
    hide QuotaAdmits, Accepted;
  }

  lemma PublishHolds(h: Bytes -> Digest, p: Policy, s: Store, e: Event, key: FileKey, lease: ReadLease)
    requires IsPublishEvent(e) && MayAct(p, s, e)
    ensures HoldsSo(s, e, DoPublish(h, p, s, e), key, lease) && DoPublish(h, p, s, e).unlinks == s.unlinks
  {
    hide QuotaAdmits;
  }

  lemma CleanHolds(s: Store, e: Event, key: FileKey, lease: ReadLease)
    requires e.CleanUp? && e.id in s.uploads
    ensures HoldsSo(s, e, Cleaned(s, e.id), key, lease) && Cleaned(s, e.id).unlinks == s.unlinks
  {
    CleanedTables(s, e.id);
    hide Cleaned;
  }

  lemma AbandonHolds(s: Store, e: Event, key: FileKey, lease: ReadLease)
    requires IsAbandonEvent(e)
    ensures HoldsSo(s, e, DoAbandon(s, e), key, lease) && DoAbandon(s, e).unlinks == s.unlinks
  {
  }

  lemma OtherHolds(p: Policy, s: Store, e: Event, key: FileKey, lease: ReadLease)
    requires !IsUploadEvent(e) && !IsAbandonEvent(e) && !e.Recovery?
    ensures HoldsSo(s, e, DoOther(p, s, e), key, lease)
  {
    hide IsLeased;
  }

  lemma OtherUnlinks(p: Policy, s: Store, e: Event)
    requires !IsUploadEvent(e) && !IsAbandonEvent(e) && !e.Recovery?
    ensures DoOther(p, s, e).unlinks == UnlinksDue(s, e)
  {
    if e.Delete? || e.Expire? { LeasedIff(s.durable, e.id); }
    hide IsLeased, HasReader;
  }

  lemma MoveHolds(h: Bytes -> Digest, s: Store, e: Event, key: FileKey, lease: ReadLease)
    requires e.Recovery? && MayMove(h, s.durable, e.mv)
    ensures HoldsSo(s, e, s.(durable := Move(h, s.durable, e.mv)), key, lease)
  {
  }

  lemma FilesFollow(h: Bytes -> Digest, p: Policy, s: Store, e: Event, key: FileKey, lease: ReadLease)
    requires Enabled(h, p, s, e)
    ensures HoldsSo(s, e, Do(h, p, s, e), key, lease) && Do(h, p, s, e).unlinks == UnlinksDue(s, e)
  {
    hide HoldsSo, MayAct, MayMove, Move, DoReceive, DoPublish, Cleaned, DoAbandon, DoOther, Settled;
    if IsReceiveEvent(e) {
      ReceiveHolds(h, p, s, e, key, lease);
    } else if IsPublishEvent(e) {
      PublishHolds(h, p, s, e, key, lease);
    } else if e.CleanUp? {
      IsCleaning(p, s, e);
      CleanHolds(s, e, key, lease);
    } else if IsAbandonEvent(e) {
      AbandonHolds(s, e, key, lease);
    } else if e.Recovery? {
      MoveHolds(h, s, e, key, lease);
    } else {
      OtherHolds(p, s, e, key, lease);
      OtherUnlinks(p, s, e);
    }
  }

  // ---- every history -------------------------------------------------------------------------------

  /** In every history a published blob becomes a tombstone, outside recovery, if and only if its owner
      deletes it or the sweep finds its retention over, nobody reading it; every other row stays. */
  lemma RetiredIff(h: Bytes -> Digest, p: Policy, ss: seq<Store>, es: seq<Event>, i: nat, id: BlobId)
    requires IsHistory(h, p, ss, es) && i < |es| && !es[i].Recovery?
    requires id in ss[i].durable.rows && ss[i].durable.rows[id].state.Published?
    ensures (id in ss[i + 1].durable.rows && ss[i + 1].durable.rows[id].state.Deleted?) <==> Retires(ss[i], es[i], id)
    ensures Retires(ss[i], es[i], id) ==>
              forall x :: x != id ==> RowOf(ss[i + 1].durable, x) == RowOf(ss[i].durable, x)
  {
    hide Enabled, Do;
    assert Steps(h, p, ss[i], es[i], ss[i + 1]);
    RowsFollow(h, p, ss[i], es[i], id);
    assert !GivesBack(ss[i], es[i], id) && !Commits(ss[i], es[i], id) && !Forgets(ss[i], es[i], id);
    hide HasReader;
    forall x | x != id && Retires(ss[i], es[i], id)
      ensures RowOf(ss[i + 1].durable, x) == RowOf(ss[i].durable, x)
    {
      RowsFollow(h, p, ss[i], es[i], x);
    }
  }

  /** In every history a row appears if and only if a reservation of a positive size was admitted for its
      new id: no more than the limit of one blob, with the reserve of free disk space left, and within
      the quota of its owner and of all. */
  lemma RowsAppearIff(h: Bytes -> Digest, p: Policy, ss: seq<Store>, es: seq<Event>, i: nat, id: BlobId)
    requires IsHistory(h, p, ss, es) && i < |es| && id !in ss[i].durable.rows
    ensures id in ss[i + 1].durable.rows <==> es[i].Reserve? && es[i].id == id
    ensures id in ss[i + 1].durable.rows ==>
              && 0 < es[i].limit <= 1073741824 && es[i].free - es[i].limit >= p.minFree && id !in ss[i].used
              && Sum(OwnerTable(ss[i].durable, es[i].owner)) <= p.ownerQuota - es[i].limit
              && Sum(GlobalTable(ss[i].durable)) <= p.globalQuota - es[i].limit
              && ss[i + 1].durable.rows[id] == Row(es[i].owner, None, es[i].limit, Reserved, None)
  {
    hide Do, Sum, OwnerTable, GlobalTable;
    assert Steps(h, p, ss[i], es[i], ss[i + 1]);
    RowsFollow(h, p, ss[i], es[i], id);
    if es[i].Reserve? {
      assert MayAct(p, ss[i], es[i]);
    }
    hide Enabled;
  }

  /** An upload on its way to be published holds what was declared, byte count and digest, and no more
      than it reserved. */
  predicate Checked(h: Bytes -> Digest, s: Store, id: BlobId) {
    id in s.uploads ==>
      var u := s.uploads[id];
      && |u.received| <= u.limit
      && (u.stage == Pending || u.stage == Renamed ==>
            && (u.declared.Some? ==> u.declared.value == |u.received|)
            && (u.expected.Some? ==> u.expected.value == h(u.received)))
  }

  lemma ReceiveKeepsChecked(h: Bytes -> Digest, p: Policy, s: Store, e: Event, id: BlobId)
    requires IsReceiveEvent(e) && MayAct(p, s, e) && Checked(h, s, id)
    ensures Checked(h, DoReceive(h, p, s, e), id)
  {
    hide QuotaAdmits;
  }

  lemma PublishKeepsChecked(h: Bytes -> Digest, p: Policy, s: Store, e: Event, id: BlobId)
    requires IsPublishEvent(e) && MayAct(p, s, e) && Checked(h, s, id)
    ensures Checked(h, DoPublish(h, p, s, e), id)
  {
    hide QuotaAdmits;
  }

  lemma OtherKeepsChecked(h: Bytes -> Digest, p: Policy, s: Store, e: Event, id: BlobId)
    requires Checked(h, s, id)
    ensures e.CleanUp? && e.id in s.uploads ==> Checked(h, Cleaned(s, e.id), id)
    ensures IsAbandonEvent(e) ==> Checked(h, DoAbandon(s, e), id)
    ensures !IsUploadEvent(e) && !IsAbandonEvent(e) && !e.Recovery? ==> Checked(h, DoOther(p, s, e), id)
  {
    hide IsLeased;
  }

  lemma EventKeepsChecked(h: Bytes -> Digest, p: Policy, s: Store, e: Event, id: BlobId)
    requires Enabled(h, p, s, e) && Checked(h, s, id)
    ensures Checked(h, Do(h, p, s, e), id)
  {
    assert e.Recovery? ==> forall d :: Checked(h, s.(durable := d), id);
    hide Checked, MayAct, MayMove, Move, DoReceive, DoPublish, Cleaned, DoAbandon, DoOther, Settled;
    if IsReceiveEvent(e) {
      ReceiveKeepsChecked(h, p, s, e, id);
    } else if IsPublishEvent(e) {
      PublishKeepsChecked(h, p, s, e, id);
    } else {
      if e.CleanUp? { IsCleaning(p, s, e); }
      OtherKeepsChecked(h, p, s, e, id);
    }
  }

  lemma {:induction false} HistoryKeepsChecked(h: Bytes -> Digest, p: Policy, ss: seq<Store>, es: seq<Event>, i: nat,
                                               id: BlobId)
    requires IsHistory(h, p, ss, es) && Empty(ss[0]) && i < |ss|
    ensures Checked(h, ss[i], id)
  {
    hide Do, Enabled;
    if i > 0 {
      HistoryKeepsChecked(h, p, ss, es, i - 1, id);
      assert Steps(h, p, ss[i - 1], es[i - 1], ss[i]);
      EventKeepsChecked(h, p, ss[i - 1], es[i - 1], id);
    }
  }

  /** In every history only bytes that are the declared ones are ever published: the row gets their digest
      and their size, which match what the uploader declared and stay within the reservation, and its
      retention runs from the moment of publication. */
  lemma PublishedAsDeclared(h: Bytes -> Digest, p: Policy, ss: seq<Store>, es: seq<Event>, i: nat, id: BlobId)
    requires IsHistory(h, p, ss, es) && Empty(ss[0]) && i < |es| && !es[i].Recovery?
    requires IsPublished(ss[i + 1].durable, id) && !IsPublished(ss[i].durable, id)
    ensures Commits(ss[i], es[i], id)
    ensures var u, row := ss[i].uploads[id], ss[i + 1].durable.rows[id];
            && row.sha == Some(h(u.received)) && row.size == |u.received| <= u.limit
            && row.expiresAt == Some(es[i].now + p.retention)
            && (u.declared.Some? ==> u.declared.value == row.size) && (u.expected.Some? ==> u.expected == row.sha)
  {
    hide Do, HasReader;
    assert Steps(h, p, ss[i], es[i], ss[i + 1]);
    RowsFollow(h, p, ss[i], es[i], id);
    HistoryKeepsChecked(h, p, ss, es, i, id);
    assert Commits(ss[i], es[i], id) ==> ss[i].uploads[id].stage == Renamed by {
      CommitsFromRenamed(h, p, ss[i], es[i], id);
    }
    hide Enabled, IsHistory;
  }

  lemma CommitsFromRenamed(h: Bytes -> Digest, p: Policy, s: Store, e: Event, id: BlobId)
    requires Enabled(h, p, s, e)
    ensures Commits(s, e, id) ==> s.uploads[id].stage == Renamed
  {
    hide QuotaAdmits, Settled, MayMove;
  }

  /** What ends a readable blob: retirement, a read error, the abandonment of that output, or the handler
      of a publish that was reported failed although it committed. */
  ghost predicate Ends(s: Store, e: Event, key: FileKey) {
    Retires(s, e, key.id) || TakesHeld(s, e, key)
  }

  predicate IsBlob(h: Bytes -> Digest, s: Store, key: FileKey) {
    Readable(h, s.durable, key.id) && KeyOf(s.durable, key.id) == key
  }

  lemma RowStaysIff(h: Bytes -> Digest, p: Policy, s: Store, e: Event, key: FileKey)
    requires Enabled(h, p, s, e) && LeaseOk(s, key) && IsBlob(h, s, key)
    ensures RowOf(Do(h, p, s, e).durable, key.id) == RowOf(s.durable, key.id) <==>
              !Retires(s, e, key.id) && e != FindCorrupt(key.id)
  {
    RowsFollow(h, p, s, e, key.id);
    NewIdsOnly(h, p, s, e, key);
    hide Enabled, Do, RowDue, LeaseOk, Retires, IsBlob, MayMove;
    if e.Recovery? {
      RecoveryKeepsRow(h, p, s, e, key);
    } else {
      OrdinaryKeepsRow(h, p, s, e, key);
    }
  }

  lemma NewIdsOnly(h: Bytes -> Digest, p: Policy, s: Store, e: Event, key: FileKey)
    requires Enabled(h, p, s, e) && LeaseOk(s, key) && IsBlob(h, s, key)
    ensures !(e.Reserve? && e.id == key.id)
    ensures e.Recovery? ==> MayMove(h, s.durable, e.mv)
  {
    hide QuotaAdmits, MayMove;
  }

  lemma OrdinaryKeepsRow(h: Bytes -> Digest, p: Policy, s: Store, e: Event, key: FileKey)
    requires !e.Recovery? && IsBlob(h, s, key) && !(e.Reserve? && e.id == key.id)
    ensures RowDue(h, p, s, e, key.id) == RowOf(s.durable, key.id) <==>
              !Retires(s, e, key.id) && e != FindCorrupt(key.id)
  {
    hide HasReader;
  }

  lemma RecoveryKeepsRow(h: Bytes -> Digest, p: Policy, s: Store, e: Event, key: FileKey)
    requires e.Recovery? && MayMove(h, s.durable, e.mv) && IsBlob(h, s, key)
    requires e.mv.ToPublished? ==> e.mv.id in s.durable.journal
    ensures RowDue(h, p, s, e, key.id) == RowOf(s.durable, key.id) && !Retires(s, e, key.id)
  {
    hide HasReader;
  }

  lemma FileStaysIff(h: Bytes -> Digest, p: Policy, s: Store, e: Event, key: FileKey)
    requires Enabled(h, p, s, e) && LeaseOk(s, key) && IsBlob(h, s, key)
    ensures FileOf(Do(h, p, s, e).durable, key) == FileOf(s.durable, key) <==>
              !(e == AbandonFile(key.id, key.owner) || (e == CleanUp(key.id) && AtStage(s, key.id, PublishFailed)))
  {
    FilesFollow(h, p, s, e, key, ReadLease(key.id, Holder(0)));
    assert !(e == Unlink(key)) && e != Recovery(DropFile(key.id)) by { hide QuotaAdmits; }
    assert !((e.Rename? || e.FailRename?) && e.id == key.id) by { hide QuotaAdmits; }
    hide Enabled, Do;
  }

  /** In every history a readable blob keeps its row and its bytes through the next event if and only if
      that event does not end it. */
  lemma BlobStaysIff(h: Bytes -> Digest, p: Policy, ss: seq<Store>, es: seq<Event>, i: nat, key: FileKey)
    requires IsHistory(h, p, ss, es) && Empty(ss[0]) && i < |es| && IsBlob(h, ss[i], key)
    ensures StillThere(ss[i].durable, ss[i + 1].durable, key) <==> !Ends(ss[i], es[i], key)
  {
    HistoryKeepsLeases(h, p, ss, es, i);
    var s, e := ss[i], es[i];
    assert Steps(h, p, s, e, ss[i + 1]) && LeaseOk(s, key);
    hide IsHistory, LeaseInv, LeaseOk, Enabled, Do, Empty, Retires;
    RowStaysIff(h, p, s, e, key);
    FileStaysIff(h, p, s, e, key);
  }

  /** Retention holds: in every history a readable blob keeps its row and its bytes from one moment to any
      later one if in between its owner does not delete it, no sweep comes at or after the end of its
      retention, its file gives no read error and it is not taken away from under a publisher. */
  lemma {:induction false} KeptUntilItsTime(h: Bytes -> Digest, p: Policy, ss: seq<Store>, es: seq<Event>, i: nat,
                                            j: nat, key: FileKey)
    requires IsHistory(h, p, ss, es) && Empty(ss[0]) && i <= j < |ss| && IsBlob(h, ss[i], key)
    requires forall k :: i <= k < j && es[k].Delete? && es[k].id == key.id ==> es[k].owner != key.owner
    requires forall k :: i <= k < j && es[k].Expire? && es[k].id == key.id ==>
               ss[i].durable.rows[key.id].expiresAt.Some? ==> es[k].now < ss[i].durable.rows[key.id].expiresAt.value
    requires forall k :: i <= k < j ==> !TakesHeld(ss[k], es[k], key)
    ensures IsBlob(h, ss[j], key) && StillThere(ss[i].durable, ss[j].durable, key)
    decreases j
  {
    hide Steps;
    if i < j {
      KeptUntilItsTime(h, p, ss, es, i, j - 1, key);
      var s, e := ss[j - 1], es[j - 1];
      assert !Retires(s, e, key.id);
      BlobStaysIff(h, p, ss, es, j - 1, key);
    }
  }

  /** A deletion is only as durable as its unlink: a crash between the two leaves the tombstone with the
      bytes still on disk, and recovery does not take them away. */
  lemma CrashKeepsRetiredFile(h: Bytes -> Digest, p: Policy, s: Store, key: FileKey, now: Time, later: Time)
    requires IsBlob(h, s, key) && !HasReader(s.durable, key.id)
    ensures var s1 := Deletes(p, s, key.id, key.owner, now);
            var d := Recovered(h, p, DoOther(p, s1, Crash).durable, later);
            && key.id in d.rows && d.rows[key.id].state.Deleted?
            && key in d.files && d.files[key] == s.durable.files[key]
            && key in s1.unlinks && DoOther(p, s1, Crash).unlinks == {}
  {
    LeasedIff(s.durable, key.id);
    var s1 := Deletes(p, s, key.id, key.owner, now);
    var d1 := DoOther(p, s1, Crash).durable;
    assert d1 == s1.durable && !Doomed(h, d1, key);
    assert RecoveredRow(h, p, d1, key.id, later) == Some(d1.rows[key.id]);
  }

  /** What a full recovery pass makes of each row: a published one whose file is not what it says becomes an
      empty tombstone for the tombstone time; an unfinished one is published for a full retention if its
      bytes had moved and are the journalled ones, and is gone otherwise; every other row stays. */
  lemma RecoveredRows(h: Bytes -> Digest, p: Policy, d: Durable, id: BlobId, now: Time)
    requires id in d.rows
    ensures var row, row' := d.rows[id], RowOf(Recovered(h, p, d, now), id);
            var key := FileKey(row.owner, id);
            var moved := && id in d.journal && d.journal[id].step == StepPending && key in d.files
                         && d.journal[id].sha == Some(h(d.files[key])) && d.journal[id].size == |d.files[key]|;
            row' == if row.state == Published then
                      if key in d.files && row.sha == Some(h(d.files[key])) && row.size == |d.files[key]| then Some(row)
                      else Some(row.(state := Deleted, size := 0, expiresAt := Some(now + p.tombstone)))
                    else if row.state != Reserved && row.state != Staging then Some(row)
                    else if moved then
                      Some(row.(state := Published, sha := d.journal[id].sha, size := d.journal[id].size,
                                expiresAt := Some(now + p.retention)))
                    else None
  {
    var d' := Recovered(h, p, d, now);
    assert id in d'.rows <==> RecoveredRow(h, p, d, id, now).Some?;
  }
}
