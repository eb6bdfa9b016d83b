/** One create-only record file after another: short writes, writes cut at any
    byte, and a reader that never takes a torn record for a value
    (layout-migration-exact-local-journal.py). */
module LocalJournal {
  import opened Common

  const NEWLINE: Byte := 10
  const LIMIT := 2 * 1024 * 1024

  /** The canonical JSON printer and the JSON parser. */
  datatype Codec<!R> = Codec(print_: R -> Bytes, parse: Bytes -> Option<R>)

  /** All that is assumed of them: printed text has no newline, and the parser reads
      printed text back, with or without the newline behind it. */
  ghost predicate Faithful<R(!new)>(c: Codec<R>) {
    forall r: R :: NEWLINE !in c.print_(r) && c.parse(c.print_(r) + [NEWLINE]) == Some(r)
  }

  function Line<R>(c: Codec<R>, r: R): Bytes {
    c.print_(r) + [NEWLINE]
  }

  /** decode: parse, then insist that printing gives the very same bytes. */
  function Decode<R>(c: Codec<R>, raw: Bytes): Option<R> {
    match c.parse(raw)
    case None => None
    case Some(r) => if Line(c, r) == raw then Some(r) else None
  }

  lemma {:induction false} LineDecodes<R(!new)>(c: Codec<R>, r: R)
    requires Faithful(c)
    ensures Decode(c, Line(c, r)) == Some(r)
  {}

  /** No strict prefix of a line decodes, to anything at all. */
  lemma {:induction false} TornNeverDecodes<R(!new)>(c: Codec<R>, r: R, k: nat)
    requires Faithful(c) && k < |Line(c, r)|
    ensures Decode(c, Line(c, r)[..k]) == None
  {
    var torn := Line(c, r)[..k];
    assert NEWLINE !in torn by {
      assert torn == c.print_(r)[..k];
    }
    forall other: R ensures Line(c, other) != torn {
      assert Line(c, other)[|c.print_(other)|] == NEWLINE;
    }
  }

  /** A stored record carries what it is a record of. */
  datatype Record<V> = Record(tx: string, plan: string, key: string, value: V)

  datatype ReadResult<+V> = Absent | Unreadable | Found(value: V)

  /** What a file shows a reader who knows the key. */
  function ReadFile<V(==)>(c: Codec<Record<V>>, tx: string, plan: string, files: map<string, Bytes>, key: string): ReadResult<V> {
    if key !in files then Absent
    else if files[key] == [] || |files[key]| > LIMIT then Unreadable
    else
      match Decode(c, files[key])
      case None => Unreadable
      case Some(r) => if r.tx == tx && r.plan == plan && r.key == key then Found(r.value) else Unreadable
  }

  lemma {:induction false} WholeFileReads<V(!new)>(c: Codec<Record<V>>, tx: string, plan: string, files: map<string, Bytes>, key: string, value: V)
    requires Faithful(c) && key in files && files[key] == Line(c, Record(tx, plan, key, value)) && |files[key]| <= LIMIT
    ensures ReadFile(c, tx, plan, files, key) == Found(value)
  {
    LineDecodes(c, Record(tx, plan, key, value));
  }

  /** A value is found exactly where the file is the whole canonical line of a record
      of that transaction, plan and key, of two mebibytes at most; a record moved from
      anywhere else is refused like any other bytes. */
  lemma {:induction false} FoundIsTheWholeLine<V(!new)>(
      c: Codec<Record<V>>, tx: string, plan: string, files: map<string, Bytes>, key: string, value: V)
    requires Faithful(c)
    ensures ReadFile(c, tx, plan, files, key) == Found(value)
            <==> key in files && files[key] == c.print_(Record(tx, plan, key, value)) + [10] && |files[key]| <= 2097152
    ensures ReadFile(c, tx, plan, files, key) == Absent <==> key !in files
  {
    if key in files {
      var raw := files[key];
      if raw == Line(c, Record(tx, plan, key, value)) { LineDecodes(c, Record(tx, plan, key, value)); }
    }
  }

  class Journal<V(==,!new)> {
    const codec: Codec<Record<V>>
    const tx: string
    const plan: string
    var files: map<string, Bytes>
    var poisoned: bool
    ghost var created: map<string, V>  // the value each key was created for

    constructor (codec: Codec<Record<V>>, tx: string, plan: string)
      requires Faithful(codec)
      ensures Valid() && files == map[] && !poisoned
      ensures this.codec == codec && this.tx == tx && this.plan == plan
    {
      this.codec, this.tx, this.plan := codec, tx, plan;
      files, poisoned, created := map[], false, map[];
    }

    function RecordOf(key: string, value: V): Record<V> {
      Record(tx, plan, key, value)
    }

    /** Every file holds a prefix of the line it was created for. */
    ghost predicate Valid()
      reads this
    {
      && Faithful(codec) && files.Keys == created.Keys
      && forall key | key in files :: files[key] <= Line(codec, RecordOf(key, created[key]))
    }

    /** The short-write loop: the system takes any positive number of bytes at a time;
        the process may die once a given number is on disk. */
    method WriteAll(key: string, raw: Bytes, takes: seq<nat>, cut: Option<nat>) returns (done: bool)
      requires key in files && files[key] == []
      modifies `files
      ensures files.Keys == old(files).Keys && forall k | k in old(files) && k != key :: files[k] == old(files)[k]
      ensures files[key] <= raw
      ensures done <==> files[key] == raw
      ensures cut == None || cut.value >= |raw| ==> done
    {
      var offset, i := 0, 0;
      while offset < |raw|
        invariant 0 <= offset <= |raw| && files.Keys == old(files).Keys && files[key] == raw[..offset]
        invariant forall k | k in old(files) && k != key :: files[k] == old(files)[k]
        invariant cut.Some? ==> offset <= cut.value || offset == 0
        decreases |raw| - offset
      {
        var count := if i < |takes| && 0 < takes[i] <= |raw| - offset then takes[i] else |raw| - offset;
        if cut.Some? && cut.value < offset + count {
          files := files[key := raw[..if cut.value < offset then offset else cut.value]];
          return false;
        }
        files := files[key := files[key] + raw[offset..offset + count]];
        assert raw[..offset] + raw[offset..offset + count] == raw[..offset + count];
        offset, i := offset + count, i + 1;
      }
      return true;
    }

    /** create_once.  A refusal or a cut leaves the instance poisoned. */
    method CreateOnce(key: string, value: V, takes: seq<nat>, cut: Option<nat>) returns (acked: bool)
      requires Valid()
      modifies this
      ensures Valid()
      ensures acked ==> old(key !in files) && !old(poisoned)
      ensures acked <==> ReadFile(codec, tx, plan, files, key) == Found(value) && !poisoned && old(key !in files)
      ensures forall k | k in old(files) :: k in files && files[k] == old(files)[k] && created[k] == old(created)[k]
      ensures forall k | k in files && k !in old(files) :: k == key && created[k] == value
      ensures poisoned ==> !acked
      ensures !old(poisoned) && old(key !in files) && cut == None && 0 < |Line(codec, RecordOf(key, value))| <= LIMIT ==> acked
    {
      hide ReadFile, Decode, Line;
      if poisoned { return false; }
      poisoned := true;
      var raw := Line(codec, RecordOf(key, value));
      if !(0 < |raw| <= LIMIT) || key in files { return false; }
      files, created := files[key := []], created[key := value];
      var done := WriteAll(key, raw, takes, cut);
      if !done { return false; }
      WholeFileReads(codec, tx, plan, files, key, value);
      if ReadFile(codec, tx, plan, files, key) != Found(value) { return false; }
      poisoned := false;
      return true;
    }

    /** read: absence, refusal, or exactly the value the key was created for. */
    method Read(key: string) returns (r: ReadResult<V>)
      requires Valid()
      ensures r == Absent <==> key !in files
      ensures r.Found? ==> key in created && r.value == created[key]
      ensures key in files && files[key] == Line(codec, RecordOf(key, created[key])) && |files[key]| <= LIMIT
              ==> r == Found(created[key])
    {
      r := ReadFile(codec, tx, plan, files, key);
      if key in files {
        var line := Line(codec, RecordOf(key, created[key]));
        LineDecodes(codec, RecordOf(key, created[key]));
        if |files[key]| < |line| {
          TornNeverDecodes(codec, RecordOf(key, created[key]), |files[key]|);
          assert files[key] == line[..|files[key]|];
        } else {
          assert files[key] == line;
        }
      }
    }
  }
}
