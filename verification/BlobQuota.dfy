/** Quota is never oversold, over every run of the blob store. */
module BlobQuota {
  import opened Prelude
  import opened BlobModel
  import opened BlobRuns

  ghost predicate WithinQuota(p: Policy, d: Durable) {
    && (forall owner :: Sum(OwnerTable(d, owner)) <= p.ownerQuota)
    && Sum(GlobalTable(d)) <= p.globalQuota
  }

  predicate KnownAt(s: Store, id: BlobId) {
    id in s.durable.rows || id in s.durable.journal || id in s.durable.parts || id in s.uploads ==> id in s.used
  }

  predicate KnownFile(s: Store, key: FileKey) {
    key in s.durable.files ==> key.id in s.used
  }

  /** Nothing durable or running mentions an id that was never drawn. */
  ghost predicate Known(s: Store) {
    (forall id :: KnownAt(s, id)) && (forall key :: KnownFile(s, key))
  }

  predicate JournalBounded(d: Durable, id: BlobId) {
    IsOpen(d, id) && id in d.journal && d.journal[id].step.StepPending? ==> d.journal[id].size <= d.rows[id].size
  }

  predicate UploadBounded(s: Store, id: BlobId)
    requires id in s.uploads
  {
    var u := s.uploads[id];
    |u.received| <= u.limit && (IsOpen(s.durable, id) ==> s.durable.rows[id].size == u.limit)
  }

  /** What a publish may rely on: no received or journalled size exceeds the reserved row. */
  ghost predicate Bounded(s: Store) {
    && Known(s)
    && (forall id :: id in s.uploads ==> UploadBounded(s, id))
    && (forall id :: JournalBounded(s.durable, id))
  }

  predicate RowShrinks(d: Durable, d': Durable, id: BlobId) {
    id in d'.rows && Counted(d'.rows[id]) ==>
      id in d.rows && Counted(d.rows[id]) && d'.rows[id].owner == d.rows[id].owner
          && d'.rows[id].size <= d.rows[id].size
  }

  lemma ShrinkingKeepsQuota(p: Policy, d: Durable, d': Durable)
    requires WithinQuota(p, d) && forall id :: RowShrinks(d, d', id)
    ensures WithinQuota(p, d')
  {
    forall owner ensures Sum(OwnerTable(d', owner)) <= p.ownerQuota {
      assert forall id :: id in OwnerTable(d', owner) ==> RowShrinks(d, d', id);
      SumMono(OwnerTable(d', owner), OwnerTable(d, owner));
    }
    assert forall id :: id in GlobalTable(d') ==> RowShrinks(d, d', id);
    SumMono(GlobalTable(d'), GlobalTable(d));
  }

  lemma ReserveKeepsQuota(p: Policy, d: Durable, id: BlobId, owner: Owner, size: nat, free: nat)
    requires WithinQuota(p, d) && id !in d.rows && QuotaAdmits(p, d, owner, size, free)
    ensures WithinQuota(p, SetRow(d, id, Row(owner, None, size, Reserved, None)))
  {
    var d' := SetRow(d, id, Row(owner, None, size, Reserved, None));
    forall o ensures Sum(OwnerTable(d', o)) <= p.ownerQuota {
      ReserveAddsToOwner(d, id, owner, size, o);
    }
    assert GlobalTable(d') == GlobalTable(d)[id := size];
    SumUpdate(GlobalTable(d), id, size);
  }

  lemma ReserveAddsToOwner(d: Durable, id: BlobId, owner: Owner, size: nat, o: Owner)
    requires id !in d.rows
    ensures Sum(OwnerTable(SetRow(d, id, Row(owner, None, size, Reserved, None)), o))
         == Sum(OwnerTable(d, o)) + if o == owner then size else 0
  {
    var d' := SetRow(d, id, Row(owner, None, size, Reserved, None));
    if o == owner {
      assert OwnerTable(d', o) == OwnerTable(d, o)[id := size];
      SumUpdate(OwnerTable(d, o), id, size);
    } else {
      assert OwnerTable(d', o) == OwnerTable(d, o);
    }
  }

  // ---- apart from a reservation, no event makes any figure grow ----------------------------

  lemma ReceiveShrinks(h: Bytes -> Digest, p: Policy, s: Store, e: Event, id: BlobId)
    requires IsReceiveEvent(e) && MayAct(p, s, e) && !e.Reserve?
    ensures RowShrinks(s.durable, DoReceive(h, p, s, e).durable, id)
  {
    hide QuotaAdmits, Accepted;
  }

  /** A publish counts the received bytes, which never exceed the reservation. */
  lemma PublishShrinks(h: Bytes -> Digest, p: Policy, s: Store, e: Event, id: BlobId)
    requires IsPublishEvent(e) && MayAct(p, s, e) && (id in s.uploads ==> UploadBounded(s, id))
    ensures RowShrinks(s.durable, DoPublish(h, p, s, e).durable, id)
  {
    hide QuotaAdmits;
  }

  lemma CleanShrinks(s: Store, x: BlobId, id: BlobId)
    requires x in s.uploads
    ensures RowShrinks(s.durable, Cleaned(s, x).durable, id)
  {
  }

  lemma AbandonShrinks(s: Store, e: Event, id: BlobId)
    requires IsAbandonEvent(e)
    ensures RowShrinks(s.durable, DoAbandon(s, e).durable, id)
  {
  }

  lemma OtherShrinks(p: Policy, s: Store, e: Event, id: BlobId)
    requires !IsUploadEvent(e) && !IsAbandonEvent(e) && !e.Recovery?
    ensures RowShrinks(s.durable, DoOther(p, s, e).durable, id)
  {
    hide IsLeased;
  }

  /** Recovery counts the journalled bytes, which never exceed the reservation either. */
  lemma RecoveryShrinks(h: Bytes -> Digest, d: Durable, mv: RecoveryMove, id: BlobId)
    requires MayMove(h, d, mv) && JournalBounded(d, id)
    ensures RowShrinks(d, Move(h, d, mv), id)
  {
  }

  lemma EventShrinks(h: Bytes -> Digest, p: Policy, s: Store, e: Event, id: BlobId)
    requires Bounded(s) && Enabled(h, p, s, e) && !e.Reserve?
    ensures RowShrinks(s.durable, Do(h, p, s, e).durable, id)
  {
    assert JournalBounded(s.durable, id) && (id in s.uploads ==> UploadBounded(s, id));
    hide Bounded, JournalBounded, UploadBounded, RowShrinks, MayAct, MayMove, Move, DoReceive, DoPublish, Cleaned,
         DoAbandon, DoOther;
    if IsReceiveEvent(e) {
      ReceiveShrinks(h, p, s, e, id);
    } else if IsPublishEvent(e) {
      PublishShrinks(h, p, s, e, id);
    } else if e.CleanUp? {
      IsCleaning(p, s, e);
      CleanShrinks(s, e.id, id);
    } else if IsAbandonEvent(e) {
      AbandonShrinks(s, e, id);
    } else if e.Recovery? {
      RecoveryShrinks(h, s.durable, e.mv, id);
    } else {
      OtherShrinks(p, s, e, id);
    }
  }

  // ---- every event keeps the bounds ---------------------------------------------------------

  predicate BoundedAt(s: Store, id: BlobId) {
    JournalBounded(s.durable, id) && (id in s.uploads ==> UploadBounded(s, id))
  }

  lemma ReceiveKeepsBounds(h: Bytes -> Digest, p: Policy, s: Store, e: Event, id: BlobId)
    requires IsReceiveEvent(e) && MayAct(p, s, e) && BoundedAt(s, id) && KnownAt(s, id)
    ensures BoundedAt(DoReceive(h, p, s, e), id)
  {
    hide QuotaAdmits, Accepted;
  }

  lemma PublishKeepsBounds(h: Bytes -> Digest, p: Policy, s: Store, e: Event, id: BlobId)
    requires IsPublishEvent(e) && MayAct(p, s, e) && BoundedAt(s, id)
    ensures BoundedAt(DoPublish(h, p, s, e), id)
  {
    hide QuotaAdmits;
  }

  lemma CleanKeepsBounds(s: Store, x: BlobId, id: BlobId)
    requires x in s.uploads && BoundedAt(s, id)
    ensures BoundedAt(Cleaned(s, x), id)
  {
  }

  lemma AbandonKeepsBounds(s: Store, e: Event, id: BlobId)
    requires IsAbandonEvent(e) && BoundedAt(s, id)
    ensures BoundedAt(DoAbandon(s, e), id)
  {
  }

  lemma OtherKeepsBounds(p: Policy, s: Store, e: Event, id: BlobId)
    requires !IsUploadEvent(e) && !IsAbandonEvent(e) && !e.Recovery? && BoundedAt(s, id)
    ensures BoundedAt(DoOther(p, s, e), id)
  {
    hide IsLeased;
  }

  lemma RecoveryKeepsBounds(h: Bytes -> Digest, s: Store, mv: RecoveryMove, id: BlobId)
    requires MayMove(h, s.durable, mv) && BoundedAt(s, id)
    ensures BoundedAt(s.(durable := Move(h, s.durable, mv)), id)
  {
  }

  lemma EventKeepsBoundsAt(h: Bytes -> Digest, p: Policy, s: Store, e: Event, id: BlobId)
    requires Enabled(h, p, s, e) && BoundedAt(s, id) && KnownAt(s, id)
    ensures BoundedAt(Do(h, p, s, e), id)
  {
    hide BoundedAt, KnownAt, MayAct, MayMove, Move, DoReceive, DoPublish, Cleaned, DoAbandon, DoOther;
    if IsReceiveEvent(e) {
      ReceiveKeepsBounds(h, p, s, e, id);
    } else if IsPublishEvent(e) {
      PublishKeepsBounds(h, p, s, e, id);
    } else if e.CleanUp? {
      IsCleaning(p, s, e);
      CleanKeepsBounds(s, e.id, id);
    } else if IsAbandonEvent(e) {
      AbandonKeepsBounds(s, e, id);
    } else if e.Recovery? {
      RecoveryKeepsBounds(h, s, e.mv, id);
    } else {
      OtherKeepsBounds(p, s, e, id);
    }
  }

  lemma ReceiveKeepsKnown(h: Bytes -> Digest, p: Policy, s: Store, e: Event, id: BlobId, key: FileKey)
    requires IsReceiveEvent(e) && MayAct(p, s, e) && KnownAt(s, id) && KnownFile(s, key)
    ensures KnownAt(DoReceive(h, p, s, e), id) && KnownFile(DoReceive(h, p, s, e), key)
  {
    hide QuotaAdmits, Accepted;
  }

  lemma PublishKeepsKnown(h: Bytes -> Digest, p: Policy, s: Store, e: Event, id: BlobId, key: FileKey)
    requires IsPublishEvent(e) && MayAct(p, s, e) && KnownAt(s, id) && KnownFile(s, key) && KnownAt(s, e.id)
    ensures KnownAt(DoPublish(h, p, s, e), id) && KnownFile(DoPublish(h, p, s, e), key)
  {
    if e.Rename? || e.FailRename? {
      hide DoPublish, MayAct, KnownAt, KnownFile;
      RenameKeepsKnown(h, p, s, e, id, key);
    } else {
      hide QuotaAdmits, MovePart;
    }
  }

  lemma RenameKeepsKnown(h: Bytes -> Digest, p: Policy, s: Store, e: Event, id: BlobId, key: FileKey)
    requires (e.Rename? || e.FailRename?) && MayAct(p, s, e) && KnownAt(s, id) && KnownFile(s, key) && KnownAt(s, e.id)
    ensures KnownAt(DoPublish(h, p, s, e), id) && KnownFile(DoPublish(h, p, s, e), key)
  {
    hide QuotaAdmits, Publishes, FailsToPublish, Finished;
  }

  lemma CleanKeepsKnown(s: Store, x: BlobId, id: BlobId, key: FileKey)
    requires x in s.uploads && KnownAt(s, id) && KnownFile(s, key)
    ensures KnownAt(Cleaned(s, x), id) && KnownFile(Cleaned(s, x), key)
  {
    var d, u := s.durable, s.uploads[x];
    CleaningOnlyRemoves(d, x, u.owner);
    hide Within, KnownAt, KnownFile, At, Gone, RemovePart, RemoveFile, AbortRow;
    match u.stage
    case ReceiveFailed => HandlerKeepsKnown(s, x, RemovePart(d, x), ReceiveCleaned, id, key);
    case ReceiveCleaned => HandlerKeepsKnown(s, x, AbortRow(d, x), Aborted, id, key);
    case RenameFailed => HandlerKeepsKnown(s, x, RemovePart(d, x), RenameCleaned, id, key);
    case RenameCleaned => HandlerKeepsKnown(s, x, AbortRow(d, x), Aborted, id, key);
    case PublishFailed => HandlerKeepsKnown(s, x, RemoveFile(d, FileKey(u.owner, x)), PublishCleaned, id, key);
    case PublishCleaned => HandlerKeepsKnown(s, x, AbortRow(d, x), Aborted, id, key);
    case _ =>
  }

  lemma HandlerKeepsKnown(s: Store, x: BlobId, d: Durable, stage: Progress, id: BlobId, key: FileKey)
    requires x in s.uploads && Within(s.durable, d) && KnownAt(s, id) && KnownFile(s, key)
    ensures KnownAt(At(s, x, d, stage), id) && KnownFile(At(s, x, d, stage), key)
    ensures KnownAt(Gone(s, x, d), id) && KnownFile(Gone(s, x, d), key)
  {
    assert id in d.rows.Keys ==> id in s.durable.rows.Keys;
    assert id in d.journal.Keys ==> id in s.durable.journal.Keys;
    assert id in d.parts.Keys ==> id in s.durable.parts.Keys;
    assert key in d.files.Keys ==> key in s.durable.files.Keys;
  }

  ghost predicate Within(d: Durable, d': Durable) {
    d'.rows.Keys <= d.rows.Keys && d'.journal.Keys <= d.journal.Keys && d'.parts.Keys <= d.parts.Keys
        && d'.files.Keys <= d.files.Keys
  }

  lemma CleaningOnlyRemoves(d: Durable, x: BlobId, owner: Owner)
    ensures Within(d, RemovePart(d, x)) && Within(d, AbortRow(d, x)) && Within(d, RemoveFile(d, FileKey(owner, x)))
  {
  }

  lemma AbandonKeepsKnown(s: Store, e: Event, id: BlobId, key: FileKey)
    requires IsAbandonEvent(e) && KnownAt(s, id) && KnownFile(s, key)
    ensures KnownAt(DoAbandon(s, e), id) && KnownFile(DoAbandon(s, e), key)
  {
  }

  lemma OtherKeepsKnown(p: Policy, s: Store, e: Event, id: BlobId, key: FileKey)
    requires !IsUploadEvent(e) && !IsAbandonEvent(e) && !e.Recovery? && KnownAt(s, id) && KnownFile(s, key)
    ensures KnownAt(DoOther(p, s, e), id) && KnownFile(DoOther(p, s, e), key)
  {
    hide IsLeased;
  }

  lemma RecoveryKeepsKnown(h: Bytes -> Digest, s: Store, mv: RecoveryMove, id: BlobId, key: FileKey)
    requires MayMove(h, s.durable, mv) && KnownAt(s, id) && KnownFile(s, key)
    ensures KnownAt(s.(durable := Move(h, s.durable, mv)), id) && KnownFile(s.(durable := Move(h, s.durable, mv)), key)
  {
  }

  lemma EventKeepsKnown(h: Bytes -> Digest, p: Policy, s: Store, e: Event, id: BlobId, key: FileKey)
    requires Known(s) && Enabled(h, p, s, e)
    ensures KnownAt(Do(h, p, s, e), id) && KnownFile(Do(h, p, s, e), key)
  {
    hide KnownAt, KnownFile, MayAct, MayMove, Move, DoReceive, DoPublish, Cleaned, DoAbandon, DoOther;
    assert KnownAt(s, id) && KnownFile(s, key);
    if IsReceiveEvent(e) {
      ReceiveKeepsKnown(h, p, s, e, id, key);
    } else if IsPublishEvent(e) {
      assert KnownAt(s, e.id);
      PublishKeepsKnown(h, p, s, e, id, key);
    } else if e.CleanUp? {
      IsCleaning(p, s, e);
      CleanKeepsKnown(s, e.id, id, key);
    } else if IsAbandonEvent(e) {
      AbandonKeepsKnown(s, e, id, key);
    } else if e.Recovery? {
      RecoveryKeepsKnown(h, s, e.mv, id, key);
    } else {
      OtherKeepsKnown(p, s, e, id, key);
    }
  }

  lemma EventKeepsBounds(h: Bytes -> Digest, p: Policy, s: Store, e: Event)
    requires Bounded(s) && Enabled(h, p, s, e)
    ensures Bounded(Do(h, p, s, e))
  {
    hide Do, Enabled, KnownAt, KnownFile, JournalBounded, UploadBounded;
    var s' := Do(h, p, s, e);
    forall id ensures KnownAt(s', id) && BoundedAt(s', id) {
      assert KnownAt(s, id) && BoundedAt(s, id);
      EventKeepsKnown(h, p, s, e, id, FileKey(Owner(0), id));
      EventKeepsBoundsAt(h, p, s, e, id);
    }
    forall key ensures KnownFile(s', key) { EventKeepsKnown(h, p, s, e, key.id, key); }
    forall id ensures JournalBounded(s'.durable, id) && (id in s'.uploads ==> UploadBounded(s', id)) {
      assert KnownAt(s', id) && BoundedAt(s', id);
    }
  }

  lemma EventKeepsQuota(h: Bytes -> Digest, p: Policy, s: Store, e: Event)
    requires Bounded(s) && Enabled(h, p, s, e) && WithinQuota(p, s.durable)
    ensures WithinQuota(p, Do(h, p, s, e).durable)
  {
    if e.Reserve? {
      assert KnownAt(s, e.id);
      hide WithinQuota, Bounded, QuotaAdmits;
      ReserveKeepsQuota(p, s.durable, e.id, e.owner, e.limit, e.free);
    } else {
      hide Do, Enabled, WithinQuota, Bounded, RowShrinks;
      forall id ensures RowShrinks(s.durable, Do(h, p, s, e).durable, id) { EventShrinks(h, p, s, e, id); }
      ShrinkingKeepsQuota(p, s.durable, Do(h, p, s, e).durable);
    }
  }

  /** Quota is never oversold: in every run, at every moment, what each owner and all owners
      together have published, staged and reserved is within the quotas. */
  lemma {:induction false} QuotaNeverOversold(h: Bytes -> Digest, p: Policy, ss: seq<Store>, es: seq<Event>, i: nat)
    requires IsHistory(h, p, ss, es) && Empty(ss[0]) && i < |ss|
    ensures Bounded(ss[i]) && WithinQuota(p, ss[i].durable)
  {
    if i == 0 {
      EmptyIsSafe(p, ss[0]);
    } else {
      hide Do, Enabled, WithinQuota, Bounded, Empty;
      QuotaNeverOversold(h, p, ss, es, i - 1);
      assert Steps(h, p, ss[i - 1], es[i - 1], ss[i]);
      EventKeepsBounds(h, p, ss[i - 1], es[i - 1]);
      EventKeepsQuota(h, p, ss[i - 1], es[i - 1]);
    }
  }

  lemma EmptyIsSafe(p: Policy, s: Store)
    requires Empty(s)
    ensures Bounded(s) && WithinQuota(p, s.durable)
  {
    assert forall owner :: OwnerTable(s.durable, owner) == map[];
    assert GlobalTable(s.durable) == map[];
  }

  // ---- what one transaction does to the accounts --------------------------------------------

  /** What this row counts for against this owner. */
  function Charge(d: Durable, id: BlobId, owner: Owner): (bytes: nat) {
    if id in d.rows && Counted(d.rows[id]) && d.rows[id].owner == owner then d.rows[id].size else 0
  }

  ghost predicate SameElsewhere(d: Durable, d': Durable, id: BlobId) {
    d'.rows - {id} == d.rows - {id}
  }

  lemma OneRowAccounts(d: Durable, d': Durable, id: BlobId, owner: Owner)
    requires SameElsewhere(d, d', id)
    ensures Sum(OwnerTable(d', owner)) == Sum(OwnerTable(d, owner)) - Charge(d, id, owner) + Charge(d', id, owner)
  {
    var w, w' := OwnerTable(d, owner), OwnerTable(d', owner);
    forall x | x != id ensures (x in w' <==> x in w) && (x in w ==> w'[x] == w[x]) {
      assert x in d'.rows - {id} <==> x in d.rows - {id};
      assert x in d.rows - {id} ==> (d'.rows - {id})[x] == (d.rows - {id})[x];
    }
    assert w' - {id} == w - {id};
    if id in w { SumSplit(w, id); } else { assert w - {id} == w; }
    if id in w' { SumSplit(w', id); } else { assert w' - {id} == w'; }
  }

  /** A publish trades the reservation of its own row, if it still has one, for the published size,
      and changes nobody else's account. */
  lemma PublishAccounts(d: Durable, id: BlobId, sha: Digest, size: nat, expiresAt: Time, owner: Owner)
    ensures var d' := PublishRow(d, id, sha, size, expiresAt);
            && SameElsewhere(d, d', id)
            && (IsPublished(d', id) <==> IsOpen(d, id) || IsPublished(d, id))
            && Sum(OwnerTable(d', owner)) == Sum(OwnerTable(d, owner))
                 + (if IsOpen(d, id) && d.rows[id].owner == owner then size - d.rows[id].size else 0)
  {
    OneRowAccounts(d, PublishRow(d, id, sha, size, expiresAt), id, owner);
  }

  /** An abort gives the owner back exactly the reservation, undoes exactly the reservation, and
      leaves published rows and tombstones alone. */
  lemma AbortAccounts(d: Durable, id: BlobId, owner: Owner, size: nat)
    ensures SameElsewhere(d, AbortRow(d, id), id) && (id in AbortRow(d, id).rows <==> id in d.rows && !IsOpen(d, id))
    ensures Sum(OwnerTable(AbortRow(d, id), owner))
         == Sum(OwnerTable(d, owner)) - (if IsOpen(d, id) then Charge(d, id, owner) else 0)
    ensures id !in d.rows ==> AbortRow(SetRow(d, id, Row(owner, None, size, Reserved, None)), id) == d
  {
    OneRowAccounts(d, AbortRow(d, id), id, owner);
  }

  /** A missing file stops counting at once, whatever state its row was in, and no reader can open
      the blob again. */
  lemma ReleaseMissingAccounts(d: Durable, id: BlobId, keep: bool, expiresAt: Time, owner: Owner)
    ensures var d' := ReleaseMissing(d, id, keep, expiresAt);
            && SameElsewhere(d, d', id) && !IsPublished(d', id) && !IsOpen(d', id)
            && Sum(OwnerTable(d', owner)) == Sum(OwnerTable(d, owner)) - Charge(d, id, owner)
  {
    OneRowAccounts(d, ReleaseMissing(d, id, keep, expiresAt), id, owner);
  }
}
