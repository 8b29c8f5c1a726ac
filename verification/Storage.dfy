/** A disk with volatile and durable state. A file keeps a prefix that is certain to survive
    a crash; names made by link and rename are durable when the call returns; a newly
    created name is durable once its file has been synced. */
module Storage {
  import opened Wire
  import opened Journals
  import R = ReceiverModel

  /** `safe` bytes survive a crash unchanged. A `clean` file survives exactly as it is, and
      the name of an `anchored` file survives with it. */
  datatype File = File(data: seq<byte>, safe: nat, anchored: bool, clean: bool)

  type Id = seq<byte>

  /** The path of a partial: one per transfer and manifest index. */
  datatype Key = Key(id: Id, f: nat)

  /** A journal file: complete, renamed into place before its data was durable, or torn. */
  datatype Slot = Whole(j: Journal) | Unsynced(j: Journal) | Torn

  datatype Temp = Temp(j: Journal, synced: bool)

  datatype Disk = Disk(
    files: map<nat, File>,
    parts: map<Key, nat>,
    finals: map<seq<byte>, nat>,
    journals: map<Id, Slot>,
    temp: Option<Temp>,
    next: nat)

  predicate FileOk(f: File) { f.safe <= |f.data| && (f.clean ==> f.safe == |f.data| && f.anchored) }

  const EmptyFile: File := File([], 0, false, false)

  function Min(a: int, b: int): int { if a < b then a else b }

  function WriteAt(f: File, off: nat, bytes: seq<byte>): (g: File)
    requires FileOk(f)
    ensures FileOk(g) && g.safe == Min(f.safe, off) && g.data[..g.safe] == f.data[..g.safe] && g.anchored == f.anchored
  {
    File(R.WriteAt(f.data, off, bytes), Min(f.safe, off), f.anchored, false)
  }

  function Truncate(f: File, n: nat): (g: File)
    requires FileOk(f) && n <= |f.data|
    ensures FileOk(g) && g.data == f.data[..n] && g.safe == Min(f.safe, n) && g.anchored == f.anchored
  {
    if n == |f.data| then f else File(f.data[..n], Min(f.safe, n), f.anchored, false)
  }

  function Sync(f: File): (g: File)
    ensures FileOk(g) && g.clean && g.data == f.data
  {
    File(f.data, |f.data|, true, true)
  }

  // ---------------------------------------------------------------- crashes

  predicate FileSurvives(f: File, g: File) {
    && FileOk(g) && g.clean
    && f.safe <= |g.data| && f.safe <= |f.data| && g.data[..f.safe] == f.data[..f.safe]
    && (f.clean ==> g.data == f.data)
  }

  predicate SlotSurvives(s: Slot, t: Slot) {
    if s.Unsynced? then t == Torn || t == Whole(s.j) else t == s
  }

  /** What may be found after a crash. */
  predicate Survives(d: Disk, e: Disk) {
    && e.files.Keys == d.files.Keys
    && (forall i :: i in d.files ==> FileSurvives(d.files[i], e.files[i]))
    && (forall k :: k in e.parts ==> k in d.parts && e.parts[k] == d.parts[k])
    && (forall k :: k in d.parts && d.parts[k] in d.files && d.files[d.parts[k]].anchored ==> k in e.parts)
    && e.finals == d.finals && e.next == d.next && e.temp == None
    && e.journals.Keys == d.journals.Keys
    && (forall id :: id in d.journals ==> SlotSurvives(d.journals[id], e.journals[id]))
  }

  // ---------------------------------------------------------------- calls as traces

  /** A call to the storage layer: the disks it passes through, the disk it leaves, and
      whether it succeeded. A crash may fall on any of them. */
  datatype Call = Call(trace: seq<Disk>, disk: Disk, ok: bool)

  function Nothing(d: Disk): Call { Call([], d, true) }

  function Refuse(d: Disk): Call { Call([], d, false) }

  /** Passes through the disk a call left before going on. */
  function Then(a: Call, b: Call): Call { Call(a.trace + [a.disk] + b.trace, b.disk, b.ok) }

  /** Every disk a crash could find during or right after a call. */
  function Seen(c: Call): seq<Disk> { c.trace + [c.disk] }

  function SetFile(d: Disk, i: nat, f: File): Disk { d.(files := d.files[i := f]) }

  datatype JournalFault = NoFault | TempWrite | TempSync | Rename

  /** Atomic replacement: a temporary file is written, synced and renamed into place. The
      temporary is removed on failure. */
  function SaveJournal(d: Disk, j: Journal, fault: JournalFault): Call {
    if !Valid(j) then Refuse(d)
    else
      var written := d.(temp := Some(Temp(j, false)));
      var synced := d.(temp := Some(Temp(j, true)));
      match fault
      case TempWrite => Call([written], d.(temp := None), false)
      case TempSync => Call([written], d.(temp := None), false)
      case Rename => Call([written, synced], d.(temp := None), false)
      case NoFault =>
        Call([written, synced],
             d.(journals := d.journals[j.transferId := RenamedSlot(synced.temp.value)], temp := None), true)
  }

  function RenamedSlot(t: Temp): Slot { if t.synced then Whole(t.j) else Unsynced(t.j) }

  /** Reading a journal: absent, unusable, or a valid one. */
  datatype Loaded = Missing | Unusable | Found(j: Journal)

  function LoadJournal(d: Disk, id: Id): Loaded {
    if id !in d.journals then Missing
    else if d.journals[id] == Torn || !Valid(d.journals[id].j) then Unusable
    else Found(d.journals[id].j)
  }
}
