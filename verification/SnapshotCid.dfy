/** Snapshot CIDs: printed by `SnapshotDisk`, parsed by `DeleteSnapshot`. */
module SnapshotCid {
  import opened Names

  const SNAPSHOT_PREFIX := "snap-"

  /** `strings.Split` for a one-character separator. */
  function Split(s: string, sep: char): seq<string> {
    if s == "" then [""]
    else
      var parts := Split(s[1..], sep);
      if s[0] == sep then [""] + parts else [[s[0]] + parts[0]] + parts[1..]
  }

  function Join(parts: seq<string>, sep: char): string
    requires parts != []
  {
    if |parts| == 1 then parts[0] else parts[0] + [sep] + Join(parts[1..], sep)
  }

  predicate Free(s: string, sep: char) { sep !in s }

  /** Splitting yields separator-free parts that join to the original. */
  lemma {:induction false} SplitSound(s: string, sep: char)
    ensures Split(s, sep) != [] && Join(Split(s, sep), sep) == s
    ensures forall i :: 0 <= i < |Split(s, sep)| ==> Free(Split(s, sep)[i], sep)
  {
    if s != "" {
      SplitSound(s[1..], sep);
      var parts := Split(s[1..], sep);
      assert s == [s[0]] + s[1..];
      if s[0] != sep {
        var first := [s[0]] + parts[0];
        assert ([first] + parts[1..])[1..] == parts[1..];
        assert |parts| > 1 ==> first + [sep] + Join(parts[1..], sep) == [s[0]] + (parts[0] + [sep] + Join(parts[1..], sep));
      } else {
        assert ([""] + parts)[1..] == parts;
      }
    }
  }

  /** Separator-free text is one part. */
  lemma {:induction false} SplitFree(s: string, sep: char)
    requires Free(s, sep)
    ensures Split(s, sep) == [s]
  {
    if s != "" {
      SplitFree(s[1..], sep);
      assert [s[0]] + s[1..] == s;
    }
  }

  lemma {:induction false} SplitPair(a: string, b: string, sep: char)
    requires Free(a, sep) && Free(b, sep)
    ensures Split(a + [sep] + b, sep) == [a, b]
  {
    var s := a + [sep] + b;
    if a == "" {
      assert s[1..] == b;
      SplitFree(b, sep);
    } else {
      assert s[1..] == a[1..] + [sep] + b;
      SplitPair(a[1..], b, sep);
      assert [a[0]] + a[1..] == a;
    }
  }

  /** The CID of a snapshot: it has to carry the volume as well as the snapshot name. */
  function Print(disk: string, uuid: string): string {
    disk + "_" + (SNAPSHOT_PREFIX + uuid)
  }

  /** The volume and snapshot a CID names; none is the error of `DeleteSnapshot`. */
  function Parse(cid: string): Option<(string, string)> {
    var parts := Split(cid, '_');
    if |parts| != 2 then None
    else if parts[0] == "" || parts[1] == "" then None
    else Some((parts[0], parts[1]))
  }

  /** Every accepted CID is the join of its two non-empty parts, and of no others. */
  lemma AcceptedExactly(cid: string, volume: string, snapshot: string)
    ensures Parse(cid) == Some((volume, snapshot)) <==>
      cid == volume + "_" + snapshot && volume != "" && snapshot != "" && Free(volume, '_') && Free(snapshot, '_')
  {
    SplitSound(cid, '_');
    var parts := Split(cid, '_');
    if |parts| == 2 {
      assert Join(parts, '_') == parts[0] + ['_'] + Join(parts[1..], '_');
      assert parts[1..] == [parts[1]];
    }
    if Free(volume, '_') && Free(snapshot, '_') {
      SplitPair(volume, snapshot, '_');
    }
  }

  /** A printed CID is parsed back to its parts exactly when the disk CID is not empty and neither
      it nor the UUID contains the separator; otherwise it is refused. */
  lemma RoundTripExactly(disk: string, uuid: string)
    ensures Parse(Print(disk, uuid)) == (
      if disk != "" && Free(disk, '_') && Free(uuid, '_') then Some((disk, SNAPSHOT_PREFIX + uuid)) else None)
  {
    var cid := Print(disk, uuid);
    assert Free(SNAPSHOT_PREFIX + uuid, '_') <==> Free(uuid, '_') by {
      assert forall c :: c in SNAPSHOT_PREFIX + uuid <==> c in SNAPSHOT_PREFIX || c in uuid;
      assert '_' !in SNAPSHOT_PREFIX;
    }
    AcceptedExactly(cid, disk, SNAPSHOT_PREFIX + uuid);
    if Parse(cid).Some? {
      var (volume, snapshot) := Parse(cid).value;
      AcceptedExactly(cid, volume, snapshot);
      if !(disk != "" && Free(disk, '_') && Free(uuid, '_')) {
        OneSeparator(disk, SNAPSHOT_PREFIX + uuid, volume, snapshot);
      }
    }
  }

  /** Two ways to write a text around one separator: if the parts of one are free of it, so are
      those of the other, and they are the same. */
  lemma OneSeparator(a: string, b: string, volume: string, snapshot: string)
    requires a + "_" + b == volume + "_" + snapshot && Free(volume, '_') && Free(snapshot, '_')
    ensures a == volume && b == snapshot
  {
    var s := a + "_" + b;
    assert s[|a|] == '_' && s[|volume|] == '_';
    assert |a| == |volume|;
    assert a == s[..|a|] && volume == s[..|a|];
    assert b == s[|a| + 1..] && snapshot == s[|a| + 1..];
  }

  /** Different snapshots never get the same CID, as long as their CIDs can be parsed at all. */
  lemma PrintInjective(disk1: string, uuid1: string, disk2: string, uuid2: string)
    requires Print(disk1, uuid1) == Print(disk2, uuid2) && Parse(Print(disk1, uuid1)).Some?
    ensures disk1 == disk2 && uuid1 == uuid2
  {
    RoundTripExactly(disk1, uuid1);
    RoundTripExactly(disk2, uuid2);
    assert (SNAPSHOT_PREFIX + uuid1)[5..] == uuid1 && (SNAPSHOT_PREFIX + uuid2)[5..] == uuid2;
  }
}
