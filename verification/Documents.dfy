/**
 * Driver documents: one current row per application and document type, its
 * file in a store that knows only keys. An upload saves the new file under a
 * fresh key, upserts the row, then deletes the file it replaced.
 */
module Documents {
  import opened Common

  type AppId = nat
  type Uuid = nat
  type Bytes = seq<int>

  datatype DocType = DriversLicense | VehicleRegistration | VehiclePhoto | ProofOfInsurance | ProfilePhoto

  /** A row's unique pair. */
  datatype Slot = Slot(app: AppId, kind: DocType)

  /** driver-documents/<app>/<type>-<uuid> */
  datatype Key = Key(slot: Slot, uuid: Uuid)

  datatype File = File(buffer: Bytes, mimetype: string, originalname: string, size: nat)
  datatype Row = Row(storageKey: Key, originalFilename: string, mimeType: string, sizeBytes: nat)

  /** What an upload does next. */
  datatype Cont =
    | Save(slot: Slot, file: File, existing: Option<Key>, key: Key)
    | Upsert(slot: Slot, file: File, existing: Option<Key>, key: Key)
    | Delete(target: Key)

  /** History: whether a key's upload has yet to upsert it. */
  datatype Use = InFlight(id: nat) | Spent

  datatype Store = Store(
    rows: map<Slot, Row>,
    files: map<Key, Bytes>,
    issued: map<Key, File>)  // history: every key drawn, with the file it was drawn for

  const ALLOWED_MIME_TYPES: set<string> := {"image/jpeg", "image/png", "application/pdf"}

  function RowFor(key: Key, file: File): Row {
    Row(key, file.originalname, file.mimetype, file.size)
  }

  function Existing(st: Store, slot: Slot): Option<Key> {
    if slot in st.rows then Some(st.rows[slot].storageKey) else None
  }

  function SaveFile(st: Store, key: Key, bytes: Bytes): Store {
    st.(files := st.files[key := bytes])
  }

  function UpsertRow(st: Store, slot: Slot, key: Key, file: File): Store {
    st.(rows := st.rows[slot := RowFor(key, file)])
  }

  function DeleteFile(st: Store, key: Key): Store {
    st.(files := st.files - {key})
  }

  datatype UploadOutcome = UploadOutcome(st: Store, reply: Reply)

  /** Level A: the upload as one step, under a fresh key. The final delete may fail silently. */
  function Upload(st: Store, slot: Slot, file: File, uuid: Uuid, deleteWorks: bool): UploadOutcome {
    if file.mimetype !in ALLOWED_MIME_TYPES then UploadOutcome(st, BadRequest) else
    var existing := Existing(st, slot);
    var key := Key(slot, uuid);
    var saved := SaveFile(st.(issued := st.issued[key := file]), key, file.buffer);
    var upserted := UpsertRow(saved, slot, key, file);
    if existing.Some? && existing.value != key && deleteWorks
    then UploadOutcome(DeleteFile(upserted, existing.value), Ok)
    else UploadOutcome(upserted, Ok)
  }

  /** getFileBuffer: the file, or no row, or a row whose file the storage cannot read. */
  datatype Reading = Found(file: File) | NoRow | NoFile

  function GetFile(st: Store, slot: Slot): Reading {
    if slot !in st.rows then NoRow
    else
      var row := st.rows[slot];
      if row.storageKey !in st.files then NoFile
      else Found(File(st.files[row.storageKey], row.mimeType, row.originalFilename, row.sizeBytes))
  }

  function UploadedTypes(st: Store, app: AppId): set<DocType> {
    set slot | slot in st.rows && slot.app == app :: slot.kind
  }

  /** A row's key finds the bytes, name and type of one and the same upload. */
  predicate Resolves(st: Store, slot: Slot)
    requires slot in st.rows
  {
    var key := st.rows[slot].storageKey;
    && key.slot == slot && key in st.issued && key in st.files
    && st.files[key] == st.issued[key].buffer
    && st.rows[slot] == RowFor(key, st.issued[key])
  }

  ghost predicate AllResolve(st: Store) {
    forall slot :: slot in st.rows ==> Resolves(st, slot)
  }

  // ---------------------------------------------------------------- Level A

  /** The store holds the files of the rows and nothing else. */
  ghost predicate Exact(st: Store) {
    && AllResolve(st)
    && forall key :: key in st.files ==> key.slot in st.rows && st.rows[key.slot].storageKey == key
  }

  /** Level A. While deletes succeed, no file is ever missing and none is left over. */
  lemma UploadKeepsExact(st: Store, slot: Slot, file: File, uuid: Uuid)
    requires Exact(st) && Key(slot, uuid) !in st.issued
    ensures Exact(Upload(st, slot, file, uuid, true).st)
  {
    UploadKeepsResolved(st, slot, file, uuid, true);
    if slot in st.rows { assert Resolves(st, slot); }
  }

  lemma UploadKeepsResolved(st: Store, slot: Slot, file: File, uuid: Uuid, deleteWorks: bool)
    requires AllResolve(st) && Key(slot, uuid) !in st.issued
    ensures AllResolve(Upload(st, slot, file, uuid, deleteWorks).st)
  {
    var st' := Upload(st, slot, file, uuid, deleteWorks).st;
    forall other | other in st'.rows ensures Resolves(st', other) {
      assert other in st.rows ==> Resolves(st, other);
      assert slot in st.rows ==> Resolves(st, slot);
    }
  }

  /** Level A. A file is left over exactly when an upload replaces one and the delete fails. */
  lemma LeftoverIffDeleteFailed(st: Store, slot: Slot, file: File, uuid: Uuid, deleteWorks: bool)
    requires Exact(st) && Key(slot, uuid) !in st.issued && file.mimetype in ALLOWED_MIME_TYPES
    ensures AllResolve(Upload(st, slot, file, uuid, deleteWorks).st)
    ensures Exact(Upload(st, slot, file, uuid, deleteWorks).st) <==> deleteWorks || slot !in st.rows
  {
    UploadKeepsResolved(st, slot, file, uuid, deleteWorks);
    if slot in st.rows && !deleteWorks {
      assert Resolves(st, slot);
      assert st.rows[slot].storageKey in Upload(st, slot, file, uuid, deleteWorks).st.files;
    }
  }

  predicate IsSupported(mimetype: string) {
    mimetype == "image/jpeg" || mimetype == "image/png" || mimetype == "application/pdf"
  }

  /** Only JPEG, PNG and PDF files are taken; any other is refused without effect. */
  lemma UploadSucceedsIff(st: Store, slot: Slot, file: File, uuid: Uuid, deleteWorks: bool)
    ensures var r := Upload(st, slot, file, uuid, deleteWorks);
      && (r.reply == Ok <==> IsSupported(file.mimetype))
      && (r.reply != Ok ==> r.reply == BadRequest && r.st == st)
  {
  }

  /** Reading tells a missing row from a missing file, and otherwise gives the row's bytes, type and name. */
  lemma GetRepliesIff(st: Store, slot: Slot)
    ensures GetFile(st, slot) == NoRow <==> slot !in st.rows
    ensures GetFile(st, slot) == NoFile <==> slot in st.rows && st.rows[slot].storageKey !in st.files
    ensures GetFile(st, slot).Found? ==>
      var row := st.rows[slot]; var file := GetFile(st, slot).file;
      && file.buffer == st.files[row.storageKey] && file.mimetype == row.mimeType
      && file.originalname == row.originalFilename
  {
  }

  datatype Request = Request(slot: Slot, file: File, uuid: Uuid, deleteWorks: bool)

  /** Uploads one after another. A drawn UUID does not repeat. */
  function Uploads(st: Store, requests: seq<Request>): Store
    decreases |requests|
  {
    if requests == [] then st else
    var r := requests[0];
    var next := if Key(r.slot, r.uuid) in st.issued then st else Upload(st, r.slot, r.file, r.uuid, r.deleteWorks).st;
    Uploads(next, requests[1..])
  }

  /** An upload that replaces a file and whose delete fails. */
  predicate LeavesOne(st: Store, r: Request) {
    Key(r.slot, r.uuid) !in st.issued && r.file.mimetype in ALLOWED_MIME_TYPES && r.slot in st.rows && !r.deleteWorks
  }

  predicate NoneLeft(st: Store, requests: seq<Request>)
    decreases |requests|
  {
    if requests == [] then true else
    var r := requests[0];
    && !LeavesOne(st, r)
    && NoneLeft(if Key(r.slot, r.uuid) in st.issued then st else Upload(st, r.slot, r.file, r.uuid, r.deleteWorks).st,
                requests[1..])
  }

  /** A file of a key that was drawn and that no row has. */
  predicate HasLeftover(st: Store, key: Key) {
    key in st.issued && key in st.files && (key.slot in st.rows ==> st.rows[key.slot].storageKey != key)
  }

  /** Nothing deletes it any more. */
  lemma {:induction false} LeftoverStays(st: Store, requests: seq<Request>, key: Key)
    requires AllResolve(st) && HasLeftover(st, key)
    ensures HasLeftover(Uploads(st, requests), key)
    decreases |requests|
  {
    if requests != [] {
      var r := requests[0];
      if Key(r.slot, r.uuid) in st.issued {
        LeftoverStays(st, requests[1..], key);
      } else {
        UploadKeepsResolved(st, r.slot, r.file, r.uuid, r.deleteWorks);
        assert r.slot in st.rows ==> Resolves(st, r.slot);
        LeftoverStays(Upload(st, r.slot, r.file, r.uuid, r.deleteWorks).st, requests[1..], key);
      }
    }
  }

  /** Level A, every run: stored keys equal row keys at its end exactly when no replacing upload failed to delete. */
  lemma {:induction false} UploadsAreExactIff(st: Store, requests: seq<Request>)
    requires Exact(st)
    ensures AllResolve(Uploads(st, requests))
    ensures Exact(Uploads(st, requests)) <==> NoneLeft(st, requests)
    decreases |requests|
  {
    if requests != [] {
      var r := requests[0];
      if Key(r.slot, r.uuid) in st.issued {
        UploadsAreExactIff(st, requests[1..]);
      } else {
        var next := Upload(st, r.slot, r.file, r.uuid, r.deleteWorks).st;
        UploadKeepsResolved(st, r.slot, r.file, r.uuid, r.deleteWorks);
        UploadsResolve(next, requests[1..]);
        if r.file.mimetype !in ALLOWED_MIME_TYPES {
          UploadsAreExactIff(st, requests[1..]);
        } else {
          LeftoverIffDeleteFailed(st, r.slot, r.file, r.uuid, r.deleteWorks);
          if LeavesOne(st, r) {
            var key := st.rows[r.slot].storageKey;
            assert Resolves(st, r.slot);
            LeftoverStays(next, requests[1..], key);
          } else {
            UploadsAreExactIff(next, requests[1..]);
          }
        }
      }
    }
  }

  lemma {:induction false} UploadsResolve(st: Store, requests: seq<Request>)
    requires AllResolve(st)
    ensures AllResolve(Uploads(st, requests))
    decreases |requests|
  {
    if requests != [] {
      var r := requests[0];
      if Key(r.slot, r.uuid) in st.issued {
        UploadsResolve(st, requests[1..]);
      } else {
        UploadKeepsResolved(st, r.slot, r.file, r.uuid, r.deleteWorks);
        UploadsResolve(Upload(st, r.slot, r.file, r.uuid, r.deleteWorks).st, requests[1..]);
      }
    }
  }

  /** Level A. What was uploaded is what is read back; other documents are as before. */
  lemma UploadThenGet(st: Store, slot: Slot, file: File, uuid: Uuid, deleteWorks: bool, other: Slot)
    requires AllResolve(st) && Key(slot, uuid) !in st.issued && file.mimetype in ALLOWED_MIME_TYPES
    ensures var st' := Upload(st, slot, file, uuid, deleteWorks).st;
      && GetFile(st', slot) == Found(file)
      && (other != slot ==> GetFile(st', other) == GetFile(st, other))
      && UploadedTypes(st', slot.app) == UploadedTypes(st, slot.app) + {slot.kind}
  {
    var st' := Upload(st, slot, file, uuid, deleteWorks).st;
    if other in st.rows { assert Resolves(st, other); }
    if slot in st.rows { assert Resolves(st, slot); }
    forall k | k in UploadedTypes(st, slot.app) + {slot.kind} ensures k in UploadedTypes(st', slot.app) {
      assert Slot(slot.app, k) in st'.rows;
    }
  }

  // ---------------------------------------------------------------- Level B

  /** Uploads in flight, with the use of every key. */
  datatype Sys = Sys(st: Store, calls: map<nat, Cont>, use: map<Key, Use>)

  datatype Event =
    | Begin(id: nat, slot: Slot, file: File, uuid: Uuid)  // reads the row and draws a fresh key
    | Resume(id: nat)
    | TornSave(id: nat, left: Bytes)  // the process dies part way through writing the file
    | FailedDelete(id: nat)
    | Crash(id: nat)

  function Happen(y: Sys, e: Event): Sys {
    match e
    case Begin(id, slot, file, uuid) =>
      var key := Key(slot, uuid);
      if id in y.calls || file.mimetype !in ALLOWED_MIME_TYPES || key in y.st.issued then y
      else Sys(y.st.(issued := y.st.issued[key := file]),
               y.calls[id := Save(slot, file, Existing(y.st, slot), key)],
               y.use[key := InFlight(id)])
    case Resume(id) =>
      if id !in y.calls then y else
      (match y.calls[id]
       case Save(slot, file, existing, key) =>
         Sys(SaveFile(y.st, key, file.buffer), y.calls[id := Upsert(slot, file, existing, key)], y.use)
       case Upsert(slot, file, existing, key) =>
         Sys(UpsertRow(y.st, slot, key, file),
             if existing.Some? && existing.value != key then y.calls[id := Delete(existing.value)] else y.calls - {id},
             y.use[key := Spent])
       case Delete(target) => Sys(DeleteFile(y.st, target), y.calls - {id}, y.use))
    case TornSave(id, left) =>
      if id in y.calls && y.calls[id].Save?
      then Sys(SaveFile(y.st, y.calls[id].key, left), y.calls - {id}, y.use) else y
    case FailedDelete(id) =>
      if id in y.calls && y.calls[id].Delete? then y.(calls := y.calls - {id}) else y
    case Crash(id) => y.(calls := y.calls - {id})
  }

  predicate IsSpent(y: Sys, key: Key) {
    key in y.use && y.use[key] == Spent
  }

  /** No row has the key, and none will: it is spent and replaced. */
  predicate Replaced(y: Sys, key: Key) {
    IsSpent(y, key) && (key.slot in y.st.rows ==> y.st.rows[key.slot].storageKey != key)
  }

  predicate Fits(y: Sys, id: nat, k: Cont) {
    match k
    case Save(slot, file, existing, key) => Draws(y, id, slot, file, existing, key)
    case Upsert(slot, file, existing, key) =>
      Draws(y, id, slot, file, existing, key) && key in y.st.files && y.st.files[key] == file.buffer
    case Delete(target) => Replaced(y, target)
  }

  /** The call alone holds its key; what it read to replace is a spent key of its own slot. */
  predicate Draws(y: Sys, id: nat, slot: Slot, file: File, existing: Option<Key>, key: Key) {
    && key.slot == slot && key in y.st.issued && y.st.issued[key] == file
    && key in y.use && y.use[key] == InFlight(id)
    && (existing.Some? ==> existing.value.slot == slot && IsSpent(y, existing.value))
  }

  ghost predicate Valid(y: Sys) {
    && AllResolve(y.st)
    && (forall slot :: slot in y.st.rows ==> IsSpent(y, y.st.rows[slot].storageKey))
    && (forall key :: key in y.use ==> key in y.st.issued)
    && (forall id :: id in y.calls ==> Fits(y, id, y.calls[id]))
  }

  lemma ResumeKeepsCalls(y: Sys, id: nat)
    requires Valid(y)
    ensures var y' := Happen(y, Resume(id)); forall i :: i in y'.calls ==> Fits(y', i, y'.calls[i])
  {
    if id in y.calls {
      var y' := Happen(y, Resume(id));
      assert Fits(y, id, y.calls[id]);
      forall i | i in y'.calls ensures Fits(y', i, y'.calls[i]) {
        assert Fits(y, i, y.calls[i]);
      }
    }
  }

  lemma HappenKeepsCalls(y: Sys, e: Event)
    requires Valid(y)
    ensures var y' := Happen(y, e); forall i :: i in y'.calls ==> Fits(y', i, y'.calls[i])
  {
    if e.Resume? {
      ResumeKeepsCalls(y, e.id);
    } else {
      var y' := Happen(y, e);
      forall i | i in y'.calls ensures Fits(y', i, y'.calls[i]) {
        assert i in y.calls ==> Fits(y, i, y.calls[i]);
        assert e.id in y.calls ==> Fits(y, e.id, y.calls[e.id]);
      }
    }
  }

  lemma HappenKeepsRows(y: Sys, e: Event)
    requires Valid(y)
    ensures var y' := Happen(y, e);
      forall slot :: slot in y'.st.rows ==> Resolves(y'.st, slot) && IsSpent(y', y'.st.rows[slot].storageKey)
  {
    var y' := Happen(y, e);
    forall slot | slot in y'.st.rows ensures Resolves(y'.st, slot) && IsSpent(y', y'.st.rows[slot].storageKey) {
      assert slot in y.st.rows ==> Resolves(y.st, slot);
      assert e.id in y.calls ==> Fits(y, e.id, y.calls[e.id]);
    }
  }

  lemma HappenKeepsValid(y: Sys, e: Event)
    requires Valid(y)
    ensures Valid(Happen(y, e))
  {
    HappenKeepsCalls(y, e);
    HappenKeepsRows(y, e);
    assert e.id in y.calls ==> Fits(y, e.id, y.calls[e.id]);
  }

  ghost function RunAll(y: Sys, events: seq<Event>): (r: Sys)
    requires Valid(y)
    ensures Valid(r)
    decreases |events|
  {
    if events == [] then y else
    HappenKeepsValid(y, events[0]);
    RunAll(Happen(y, events[0]), events[1..])
  }

  const EMPTY := Sys(Store(map[], map[], map[]), map[], map[])

  /**
   * Level B. However uploads interleave, die or tear a file, every document row
   * can be read, and reads as one file that was uploaded for it, whole.
   */
  lemma {:induction false} RowsAlwaysResolve(events: seq<Event>, slot: Slot)
    requires slot in RunAll(EMPTY, events).st.rows
    ensures var st := RunAll(EMPTY, events).st;
      exists key :: key in st.issued && key.slot == slot && GetFile(st, slot) == Found(st.issued[key])
  {
    var st := RunAll(EMPTY, events).st;
    assert Resolves(st, slot);
    assert st.rows[slot].storageKey in st.issued;
  }

  /** Level B. Rows are only ever added or replaced. */
  lemma RowsStay(y: Sys, e: Event)
    ensures y.st.rows.Keys <= Happen(y, e).st.rows.Keys
  {
  }

  /** Level B. A delete never targets a key that a row has, or that one could still get. */
  lemma {:induction false} DeletesTargetReplacedKeys(events: seq<Event>, id: nat)
    requires id in RunAll(EMPTY, events).calls && RunAll(EMPTY, events).calls[id].Delete?
    ensures var y := RunAll(EMPTY, events);
      && (forall slot :: slot in y.st.rows ==> y.st.rows[slot].storageKey != y.calls[id].target)
      && (forall i :: i in y.calls && !y.calls[i].Delete? ==> y.calls[i].key != y.calls[id].target)
  {
    var y := RunAll(EMPTY, events);
    assert Fits(y, id, y.calls[id]);
    forall i | i in y.calls && !y.calls[i].Delete? ensures y.calls[i].key != y.calls[id].target {
      assert Fits(y, i, y.calls[i]);
    }
    forall slot | slot in y.st.rows ensures y.st.rows[slot].storageKey != y.calls[id].target {
      assert Resolves(y.st, slot);
    }
  }

  /** Level B refines to Level A: an upload nothing interferes with is its single step. */
  lemma AloneIsAtOnce(y: Sys, id: nat, slot: Slot, file: File, uuid: Uuid)
    requires id !in y.calls && file.mimetype in ALLOWED_MIME_TYPES && Key(slot, uuid) !in y.st.issued
    ensures var z := Happen(Happen(Happen(y, Begin(id, slot, file, uuid)), Resume(id)), Resume(id));
      (if id in z.calls then Happen(z, Resume(id)) else z).st == Upload(y.st, slot, file, uuid, true).st
  {
    var y1 := Happen(y, Begin(id, slot, file, uuid));
    assert y1.calls[id] == Save(slot, file, Existing(y.st, slot), Key(slot, uuid));
    var y2 := Happen(y1, Resume(id));
    assert y2.calls[id] == Upsert(slot, file, Existing(y.st, slot), Key(slot, uuid));
  }
}

/** The upload as it runs, against the store and the document table. */
module DocumentService {
  import opened Common
  import opened Documents

  /** The store of files behind the service. */
  class Storage {
    var files: map<Key, Bytes>

    method Save(key: Key, buffer: Bytes)
      modifies this
      ensures files == old(files)[key := buffer]
    {
      files := files[key := buffer];
    }

    /** Best effort: it may leave the file where it is. */
    method Delete(key: Key, works: bool)
      modifies this
      ensures files == if works then old(files) - {key} else old(files)
    {
      if works {
        files := files - {key};
      }
    }
  }

  class DriverDocumentsService {
    var rows: map<Slot, Row>
    ghost var issued: map<Key, File>
    const storage: Storage

    constructor (storage: Storage)
      ensures this.storage == storage && rows == map[] && issued == map[]
    {
      this.storage := storage;
      rows, issued := map[], map[];
    }

    ghost function View(): Store
      reads this, storage
    {
      Store(rows, storage.files, issued)
    }

    method Upload(slot: Slot, file: File, uuid: Uuid, deleteWorks: bool) returns (reply: Reply)
      modifies this, storage
      ensures UploadOutcome(View(), reply) == Documents.Upload(old(View()), slot, file, uuid, deleteWorks)
    {
      if file.mimetype !in ALLOWED_MIME_TYPES {
        return BadRequest;
      }
      var existing := if slot in rows then Some(rows[slot].storageKey) else None;
      var storageKey := Key(slot, uuid);
      issued := issued[storageKey := file];
      storage.Save(storageKey, file.buffer);
      rows := rows[slot := Row(storageKey, file.originalname, file.mimetype, file.size)];
      if existing.Some? && existing.value != storageKey {
        storage.Delete(existing.value, deleteWorks);
      }
      return Ok;
    }

    method GetFileBuffer(slot: Slot) returns (r: Reading)
      ensures r == GetFile(View(), slot)
    {
      if slot !in rows {
        return NoRow;
      }
      var row := rows[slot];
      if row.storageKey !in storage.files {
        return NoFile;
      }
      return Found(File(storage.files[row.storageKey], row.mimeType, row.originalFilename, row.sizeBytes));
    }
  }
}
