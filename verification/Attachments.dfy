/** Storing a message's attachments: the search for a free name, and the loop that writes the files. */
module Attachments {
  import opened Wrappers
  import ArchiveNames

  type Bytes = seq<bv8>

  datatype Item = Dir | Data(bytes: Bytes)

  /** What is below attachments/, by name. */
  type Disk = map<string, Item>

  datatype Attachment = Attachment(kind: string, mime: string, data: string, filename: string)

  /** How one write ends; a failed one may leave part of the file behind. */
  datatype Save = Saved | NoDirectory | WriteFailed(partial: Option<Bytes>)

  datatype Result = Link(url: string) | BadData | SaveError | Stored(size: nat)

  datatype Record = Record(id: string, filename: string, result: Result)

  /** The two decoders: UTF-8 encoding, and strict base64. */
  datatype Codec = Codec(utf8: string -> Bytes, base64: string -> Option<Bytes>)

  // ---------- names ----------

  function Digit(d: nat): char
    requires d < 10
  {
    "0123456789"[d]
  }

  function Decimal(n: nat): string {
    if n < 10 then [Digit(n)] else Decimal(n / 10) + [Digit(n % 10)]
  }

  lemma DigitInjective(m: nat, n: nat)
    requires m < 10 && n < 10 && Digit(m) == Digit(n)
    ensures m == n
  {
  }

  lemma {:induction false} DecimalInjective(m: nat, n: nat)
    requires Decimal(m) == Decimal(n)
    ensures m == n
  {
    var a, b := Decimal(m), Decimal(n);
    if m < 10 && n < 10 {
      assert a[0] == Digit(m) && b[0] == Digit(n);
    } else if m >= 10 && n >= 10 {
      assert a[..|a| - 1] == Decimal(m / 10) && b[..|b| - 1] == Decimal(n / 10);
      DecimalInjective(m / 10, n / 10);
      DigitInjective(m % 10, n % 10);
    } else {
      DecimalNonEmpty(if m < 10 then n / 10 else m / 10);
    }
  }

  lemma {:induction false} DecimalNonEmpty(n: nat)
    ensures |Decimal(n)| > 0
  {
  }

  /** Position of the last dot, or -1. */
  function LastDot(s: string): (i: int)
    ensures -1 <= i < |s| && (i >= 0 ==> s[i] == '.')
  {
    if s == "" then -1
    else if s[|s| - 1] == '.' then |s| - 1
    else LastDot(s[..|s| - 1])
  }

  /** Where pathlib splits a name into stem and suffix. */
  function Cut(name: string): (i: nat)
    ensures i <= |name|
  {
    if 0 < LastDot(name) < |name| - 1 then LastDot(name) else |name|
  }

  function Candidate(base: string, n: nat): string {
    if n == 0 then base else base[..Cut(base)] + " (" + Decimal(n) + ")" + base[Cut(base)..]
  }

  function AttachmentId(index: nat): string {
    "attachment_" + Decimal(index)
  }

  function BaseName(filename: string, index: nat): string {
    var parts := ArchiveNames.Parts(filename);
    if parts == [] then AttachmentId(index) else parts[|parts| - 1]
  }

  /** Different numbers give different names. */
  lemma CandidateInjective(base: string, m: nat, n: nat)
    requires Candidate(base, m) == Candidate(base, n)
    ensures m == n
  {
    var k := Cut(base);
    var a, b := Candidate(base, m), Candidate(base, n);
    DecimalNonEmpty(m);
    DecimalNonEmpty(n);
    if m > 0 && n > 0 {
      assert a[k + 2..|a| - (|base| - k) - 1] == Decimal(m);
      assert b[k + 2..|b| - (|base| - k) - 1] == Decimal(n);
      DecimalInjective(m, n);
    }
  }

  /** The first n candidates. */
  ghost function FirstNames(base: string, n: nat): set<string> {
    set i: nat | i < n :: Candidate(base, i)
  }

  lemma {:induction false} FirstNamesDiffer(base: string, n: nat)
    ensures |FirstNames(base, n)| == n
  {
    if n > 0 {
      FirstNamesDiffer(base, n - 1);
      NewName(base, n - 1);
      assert FirstNames(base, n) == FirstNames(base, n - 1) + {Candidate(base, n - 1)};
    }
  }

  lemma NewName(base: string, n: nat)
    ensures Candidate(base, n) !in FirstNames(base, n)
  {
    if i: nat :| i < n && Candidate(base, i) == Candidate(base, n) {
      CandidateInjective(base, i, n);
    }
  }

  ghost predicate IsFirstFree(disk: Disk, base: string, n: nat) {
    Candidate(base, n) !in disk && forall m: nat :: m < n ==> Candidate(base, m) in disk
  }

  /** The search has no bound of its own, yet it ends within one more probe than there are names. */
  method DedupeTarget(disk: Disk, filename: string, index: nat) returns (name: string, n: nat)
    ensures IsFirstFree(disk, BaseName(filename, index), n) && name == Candidate(BaseName(filename, index), n)
    ensures n <= |disk|
  {
    var base := BaseName(filename, index);
    var k := 0;
    while Candidate(base, k) in disk
      invariant forall m: nat :: m < k ==> Candidate(base, m) in disk
      invariant k <= |disk|
      decreases |disk| - k
    {
      k := k + 1;
      FirstNamesDiffer(base, k);
      SubsetSize(FirstNames(base, k), disk.Keys);
    }
    name, n := Candidate(base, k), k;
  }

  lemma {:induction false} DecimalHasNoSlash(n: nat)
    ensures '/' !in Decimal(n)
  {
    if n >= 10 {
      DecimalHasNoSlash(n / 10);
    }
  }

  lemma BaseIsOneName(filename: string, index: nat)
    ensures BaseName(filename, index) != "" && '/' !in BaseName(filename, index)
  {
    DecimalHasNoSlash(index);
    ArchiveNames.PartsArePath(filename);
  }

  lemma CandidateHasNoSlash(base: string, n: nat)
    requires base != "" && '/' !in base
    ensures Candidate(base, n) != "" && '/' !in Candidate(base, n)
  {
    DecimalHasNoSlash(n);
    DecimalNonEmpty(n);
  }

  lemma SuffixedIsNotParent(base: string, n: nat)
    requires n > 0
    ensures Candidate(base, n) != ".."
  {
    DecimalNonEmpty(n);
  }

  /** Whatever an uploaded file is called, its target is a single name; it lies directly below attachments/ unless
      the file is called ".." and that name is free, in which case nothing can be written there. */
  lemma TargetIsOneName(filename: string, index: nat, n: nat)
    ensures var name := Candidate(BaseName(filename, index), n);
            name != "" && '/' !in name && (name == ".." <==> n == 0 && BaseName(filename, index) == "..")
  {
    BaseIsOneName(filename, index);
    CandidateHasNoSlash(BaseName(filename, index), n);
    if n > 0 { SuffixedIsNotParent(BaseName(filename, index), n); }
  }

  // ---------- what one attachment comes to ----------

  predicate IsLink(a: Attachment) {
    a.kind == "url" || a.kind == "image_url"
  }

  predicate IsText(a: Attachment) {
    a.kind == "file" && ("text/" <= a.mime || a.mime == "application/json")
  }

  function Contents(codec: Codec, a: Attachment): Option<Bytes> {
    if IsText(a) then Some(codec.utf8(a.data)) else codec.base64(a.data)
  }

  /** The directory itself answers to ".." and cannot be written to. */
  function Actual(name: string, save: Save): Save {
    if name == ".." && !save.NoDirectory? then WriteFailed(None) else save
  }

  function AfterSave(disk: Disk, name: string, bytes: Bytes, save: Save): Disk {
    match Actual(name, save)
    case NoDirectory => disk
    case Saved => disk[".." := Dir][name := Data(bytes)]
    case WriteFailed(None) => disk[".." := Dir]
    case WriteFailed(Some(part)) => disk[".." := Dir][name := Data(part)]
  }

  function Shown(a: Attachment, index: nat): string {
    if a.filename == "" then AttachmentId(index) else a.filename
  }

  /** The attachment's bytes went to the first free name, if the write succeeded. */
  ghost predicate Keeps(bytes: Bytes, a: Attachment, index: nat, save: Save, disk: Disk, disk': Disk, r: Record,
                        n: nat) {
    var base := BaseName(a.filename, index);
    && IsFirstFree(disk, base, n)
    && disk' == AfterSave(disk, Candidate(base, n), bytes, save)
    && (if Actual(Candidate(base, n), save).Saved? then r.filename == Candidate(base, n) && r.result == Stored(|bytes|)
        else r.filename == Shown(a, index) && r.result == SaveError)
  }

  /** The record of one attachment, and the disk before and after it. */
  ghost predicate Handles(codec: Codec, a: Attachment, index: nat, save: Save, disk: Disk, disk': Disk, r: Record) {
    && r.id == AttachmentId(index)
    && if IsLink(a) then disk' == disk && r.filename == Shown(a, index) && r.result == Link(a.data)
       else match Contents(codec, a)
         case None => disk' == disk && r.filename == Shown(a, index) && r.result == BadData
         case Some(bytes) => exists n: nat :: Keeps(bytes, a, index, save, disk, disk', r, n)
  }

  /** The whole loop: disks[i] is the disk before attachment i. */
  ghost predicate HandlesAll(codec: Codec, attachments: seq<Attachment>, saves: seq<Save>, disks: seq<Disk>,
                             records: seq<Record>)
    requires |attachments| == |saves|
  {
    && |records| <= |attachments| && |disks| == |records| + 1
    && forall i: nat :: i < |records| ==>
         Handles(codec, attachments[i], i + 1, saves[i], disks[i], disks[i + 1], records[i])
  }

  lemma Extend(codec: Codec, attachments: seq<Attachment>, saves: seq<Save>, disks: seq<Disk>, records: seq<Record>,
               disk: Disk, record: Record)
    requires |attachments| == |saves| && HandlesAll(codec, attachments, saves, disks, records) &&
             |records| < |attachments|
    requires var i := |records|; Handles(codec, attachments[i], i + 1, saves[i], disks[i], disk, record)
    ensures HandlesAll(codec, attachments, saves, disks + [disk], records + [record])
  {
    var all, done := disks + [disk], records + [record];
    forall i: nat | i < |done| ensures Handles(codec, attachments[i], i + 1, saves[i], all[i], all[i + 1], done[i]) {
      if i < |records| {
        assert Handles(codec, attachments[i], i + 1, saves[i], disks[i], disks[i + 1], records[i]);
      }
    }
  }

  class Workspace {
    var disk: Disk

    constructor (disk: Disk)
      ensures this.disk == disk
    {
      this.disk := disk;
    }

    method Save(name: string, bytes: Bytes, save: Save) returns (ok: bool)
      modifies this
      ensures disk == AfterSave(old(disk), name, bytes, save) && ok == Actual(name, save).Saved?
    {
      if save == NoDirectory {
        return false;
      }
      disk := disk[".." := Dir];
      if name == ".." || save == WriteFailed(None) {
        return false;
      }
      disk := disk[name := Data(if save.Saved? then bytes else save.partial.value)];
      return save.Saved?;
    }

    method HandleOne(codec: Codec, a: Attachment, index: nat, save: Save) returns (record: Record)
      modifies this
      ensures Handles(codec, a, index, save, old(disk), disk, record)
    {
      var id := AttachmentId(index);
      if IsLink(a) {
        return Record(id, Shown(a, index), Link(a.data));
      }
      var name, n := DedupeTarget(disk, a.filename, index);
      var raw := Contents(codec, a);
      if raw == None {
        return Record(id, Shown(a, index), BadData);
      }
      var ok := Save(name, raw.value, save);
      record := if ok then Record(id, name, Stored(|raw.value|)) else Record(id, Shown(a, index), SaveError);
      assert Keeps(raw.value, a, index, save, old(disk), disk, record, n);
    }

    /** saves[i] is how the write of attachment i ends, if there is one. */
    method Prepare(codec: Codec, attachments: seq<Attachment>, saves: seq<Save>)
      returns (records: seq<Record>, ghost disks: seq<Disk>)
      requires |attachments| == |saves|
      modifies this
      ensures |records| == |attachments| && HandlesAll(codec, attachments, saves, disks, records)
      ensures disks[0] == old(disk) && disks[|records|] == disk
    {
      records, disks := [], [disk];
      for i := 0 to |attachments|
        invariant |records| == i && HandlesAll(codec, attachments, saves, disks, records)
        invariant disks[0] == old(disk) && disks[i] == disk
      {
        var record := HandleOne(codec, attachments[i], i + 1, saves[i]);
        Extend(codec, attachments, saves, disks, records, disk, record);
        records, disks := records + [record], disks + [disk];
      }
    }
  }

  // ---------- what the loop guarantees ----------

  predicate Within(a: Disk, b: Disk) {
    forall name :: name in a ==> name in b && b[name] == a[name]
  }

  /** ".." is the directory wherever it exists. */
  predicate IsTree(disk: Disk) {
    ".." in disk ==> disk[".."] == Dir
  }

  lemma OneKeeps(codec: Codec, a: Attachment, index: nat, save: Save, disk: Disk, disk': Disk, r: Record)
    requires Handles(codec, a, index, save, disk, disk', r) && IsTree(disk)
    ensures Within(disk, disk') && IsTree(disk')
    ensures r.result.Stored? ==> !IsLink(a) && Contents(codec, a).Some? && r.filename !in disk
    ensures r.result.Stored? ==> r.filename in disk' && disk'[r.filename] == Data(Contents(codec, a).value)
  {
  }

  lemma {:induction false} Grows(codec: Codec, attachments: seq<Attachment>, saves: seq<Save>, disks: seq<Disk>,
                                 records: seq<Record>, i: nat, j: nat)
    requires |attachments| == |saves| && HandlesAll(codec, attachments, saves, disks, records)
    requires i <= j <= |records| && IsTree(disks[0])
    ensures Within(disks[i], disks[j]) && IsTree(disks[j])
    decreases j
  {
    if i < j {
      Grows(codec, attachments, saves, disks, records, i, j - 1);
      OneKeeps(codec, attachments[j - 1], j, saves[j - 1], disks[j - 1], disks[j], records[j - 1]);
    } else if 0 < j {
      Grows(codec, attachments, saves, disks, records, 0, j - 1);
      OneKeeps(codec, attachments[j - 1], j, saves[j - 1], disks[j - 1], disks[j], records[j - 1]);
    }
  }

  /** However the writes end: every file that was there keeps its contents, every stored attachment is on
      disk under its own name with its own bytes, and no two of them share a name. */
  lemma NothingIsOverwritten(codec: Codec, attachments: seq<Attachment>, saves: seq<Save>, disks: seq<Disk>,
                             records: seq<Record>, i: nat, j: nat)
    requires |attachments| == |saves| && HandlesAll(codec, attachments, saves, disks, records) && IsTree(disks[0])
    requires i < |records| && j < |records|
    ensures Within(disks[0], disks[|records|])
    ensures records[i].result.Stored? ==>
              && !IsLink(attachments[i]) && Contents(codec, attachments[i]).Some? && records[i].filename !in disks[0]
              && records[i].filename in disks[|records|]
              && disks[|records|][records[i].filename] == Data(Contents(codec, attachments[i]).value)
    ensures records[i].result.Stored? && records[j].result.Stored? && i != j ==>
            records[i].filename != records[j].filename
  {
    Grows(codec, attachments, saves, disks, records, 0, |records|);
    if records[i].result.Stored? {
      Lands(codec, attachments, saves, disks, records, i);
    }
    if records[i].result.Stored? && records[j].result.Stored? {
      Lands(codec, attachments, saves, disks, records, j);
      if i < j {
        Grows(codec, attachments, saves, disks, records, i + 1, j);
      } else if j < i {
        Grows(codec, attachments, saves, disks, records, j + 1, i);
      }
    }
  }

  lemma Lands(codec: Codec, attachments: seq<Attachment>, saves: seq<Save>, disks: seq<Disk>, records: seq<Record>,
              i: nat)
    requires |attachments| == |saves| && HandlesAll(codec, attachments, saves, disks, records) && IsTree(disks[0])
    requires i < |records| && records[i].result.Stored?
    ensures !IsLink(attachments[i]) && Contents(codec, attachments[i]).Some?
    ensures records[i].filename !in disks[i] && records[i].filename !in disks[0]
    ensures records[i].filename in disks[i + 1] && records[i].filename in disks[|records|]
    ensures disks[|records|][records[i].filename] == Data(Contents(codec, attachments[i]).value)
  {
    Grows(codec, attachments, saves, disks, records, 0, i);
    Grows(codec, attachments, saves, disks, records, i + 1, |records|);
    OneKeeps(codec, attachments[i], i + 1, saves[i], disks[i], disks[i + 1], records[i]);
  }

  /** A name that appeared is the directory or the target of an attachment whose write began. */
  lemma {:induction false} NothingElseAppears(codec: Codec, attachments: seq<Attachment>, saves: seq<Save>,
                                              disks: seq<Disk>,
                                              records: seq<Record>, name: string, k: nat)
    requires |attachments| == |saves| && HandlesAll(codec, attachments, saves, disks, records) && k <= |records|
    requires name in disks[k] && name !in disks[0] && name != ".."
    ensures exists i: nat ::
              i < k && !IsLink(attachments[i]) && !saves[i].NoDirectory? && name !in disks[i] && name in disks[i + 1]
    decreases k
  {
    if name in disks[k - 1] {
      NothingElseAppears(codec, attachments, saves, disks, records, name, k - 1);
    } else {
      assert Handles(codec, attachments[k - 1], k, saves[k - 1], disks[k - 1], disks[k], records[k - 1]);
      assert !IsLink(attachments[k - 1]) && !saves[k - 1].NoDirectory?;
    }
  }
}
