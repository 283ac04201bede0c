/** Execution ids: protocol name, party count and timestamp laid out as bytes, and what they identify. */
module ExecutionIds {
  import opened Basics
  import opened Orchestration
  import opened OrchestrationProof

  // ---------------------------------------------------------------------------
  // Big-endian numbers
  // ---------------------------------------------------------------------------

  function Power256(k: nat): (r: nat)
    ensures r >= 1
  {
    if k == 0 then 1 else 0x100 * Power256(k - 1)
  }

  /** `to_be_bytes` of a number that fits `k` bytes. */
  function BigEndian(n: nat, k: nat): (r: Bytes)
    ensures |r| == k
  {
    if k == 0 then [] else BigEndian(n / 0x100, k - 1) + [n % 0x100]
  }

  function Value(b: Bytes): nat {
    if b == [] then 0 else 0x100 * Value(b[..|b| - 1]) + b[|b| - 1]
  }

  lemma {:induction false} ValueOfBigEndian(n: nat, k: nat)
    requires n < Power256(k)
    ensures Value(BigEndian(n, k)) == n
  {
    if k > 0 {
      ValueOfBigEndian(n / 0x100, k - 1);
      assert BigEndian(n, k)[..k - 1] == BigEndian(n / 0x100, k - 1);
    }
  }

  lemma {:induction false} BigEndianOfValue(b: Bytes)
    ensures Value(b) < Power256(|b|) && BigEndian(Value(b), |b|) == b
  {
    if b != [] {
      var front := b[..|b| - 1];
      BigEndianOfValue(front);
      assert Value(b) / 0x100 == Value(front) && Value(b) % 0x100 == b[|b| - 1];
      assert b == front + [b[|b| - 1]];
    }
  }

  lemma Widths()
    ensures Power256(2) == 0x1_0000 && Power256(8) == 0x1_0000_0000_0000_0000
  {
    assert Power256(4) == 0x1_0000_0000;
    assert Power256(6) == 0x1_0000_0000_0000;
  }

  // ---------------------------------------------------------------------------
  // Layout
  // ---------------------------------------------------------------------------

  /** What an execution id is made of. */
  datatype Fields = Fields(protocol: Bytes, n: u16, timestamp: u64)

  function Encode(f: Fields): Bytes {
    f.protocol + BigEndian(f.n, 2) + BigEndian(f.timestamp, 8)
  }

  /** Read from the end: the protocol name has no terminator. */
  function Decode(id: Bytes): Option<Fields> {
    if |id| < 10 then None
    else
      var k := |id| - 10;
      Widths();
      BigEndianOfValue(id[k..k + 2]);
      BigEndianOfValue(id[k + 2..]);
      Some(Fields(id[..k], Value(id[k..k + 2]), Value(id[k + 2..])))
  }

  /** Every id decodes to the fields it was made from. */
  lemma DecodeOfEncode(f: Fields)
    ensures Decode(Encode(f)) == Some(f)
  {
    Widths();
    ValueOfBigEndian(f.n, 2);
    ValueOfBigEndian(f.timestamp, 8);
    var id := Encode(f);
    var k := |f.protocol|;
    assert id[..k] == f.protocol && id[k..k + 2] == BigEndian(f.n, 2) && id[k + 2..] == BigEndian(f.timestamp, 8);
  }

  /** Every byte string of at least ten bytes, and no other, is the id of what it decodes to. */
  lemma EncodeOfDecode(id: Bytes)
    ensures Decode(id).Some? <==> |id| >= 10
    ensures Decode(id).Some? ==> Encode(Decode(id).value) == id
  {
    if |id| >= 10 {
      var k := |id| - 10;
      BigEndianOfValue(id[k..k + 2]);
      BigEndianOfValue(id[k + 2..]);
      assert id == id[..k] + id[k..k + 2] + id[k + 2..];
    }
  }

  lemma EncodeInjective(f: Fields, g: Fields)
    ensures Encode(f) == Encode(g) <==> f == g
  {
    DecodeOfEncode(f);
    DecodeOfEncode(g);
  }

  /** `create_shared_execution_id`: the buffer grows field by field. */
  method CreateSharedExecutionId(protocol: Bytes, n: u16, timestamp: u64) returns (id: Bytes)
    ensures Decode(id) == Some(Fields(protocol, n, timestamp)) && id == Encode(Fields(protocol, n, timestamp))
  {
    id := [];
    id := id + protocol;
    id := id + [n / 0x100, n % 0x100];
    var seconds := ToBeBytes(timestamp);
    id := id + seconds;
    TwoBytes(n);
    assert [] + protocol == protocol;
    DecodeOfEncode(Fields(protocol, n, timestamp));
  }

  method ToBeBytes(timestamp: u64) returns (bytes: Bytes)
    ensures bytes == BigEndian(timestamp, 8)
  {
    bytes := [];
    var rest: nat := timestamp;
    for k := 0 to 8
      invariant BigEndian(timestamp, 8) == BigEndian(rest, 8 - k) + bytes
    {
      bytes := [rest % 0x100] + bytes;
      rest := rest / 0x100;
    }
  }

  // ---------------------------------------------------------------------------
  // The ids of aux generation, key generation and signing
  // ---------------------------------------------------------------------------

  /** The bytes of an ASCII text. */
  function Ascii(text: string): (r: Bytes)
    requires forall i :: 0 <= i < |text| ==> text[i] < 128 as char
    ensures |r| == |text|
  {
    if text == "" then [] else [text[0] as int] + Ascii(text[1..])
  }

  const AUX_GEN := "aux_gen"
  const KEYGEN := "keygen"
  const SIGNING := "signing"

  function NameOf(p: Phase): Bytes {
    match p case AuxPhase => Ascii(AUX_GEN) case KeygenPhase => Ascii(KEYGEN) case SigningPhase => Ascii(SIGNING)
  }

  lemma NamesDiffer(p: Phase, q: Phase)
    ensures NameOf(p) == NameOf(q) <==> p == q
  {
    assert Ascii(AUX_GEN)[0] == 'a' as int && Ascii(SIGNING)[0] == 's' as int;
  }

  /** The party count a task puts into its id: for signing, the number of signers cast to 16 bits. */
  function CountOf(job: Job): u16 {
    match job case AuxJob(_, total, _) => total case KeygenJob(_, total, _, _, _) => total
    case SigningJob(_, signers, _, _, _, _) => Cast(|signers|)
  }

  function FieldsOf(job: Job): Fields {
    Fields(NameOf(job.ThePhase()), CountOf(job), job.timestamp)
  }

  /** The id under which a task runs the cryptographic protocol. */
  function EidOf(job: Job): Bytes {
    Encode(FieldsOf(job))
  }

  /** Two tasks, of whatever nodes, share an id exactly if they run the same protocol with the same party count
      and the same timestamp in seconds. */
  lemma SharedExactly(a: Job, b: Job)
    ensures EidOf(a) == EidOf(b) <==>
              a.ThePhase() == b.ThePhase() && CountOf(a) == CountOf(b) && a.timestamp == b.timestamp
  {
    EncodeInjective(FieldsOf(a), FieldsOf(b));
    NamesDiffer(a.ThePhase(), b.ThePhase());
  }

  /** No orchestrator ever runs two tasks under one id. */
  lemma OwnTasksNeverShare(s: Orch, i: nat, j: nat)
    requires Reachable(s) && i < j < |s.tasks|
    ensures EidOf(s.tasks[i].job) != EidOf(s.tasks[j].job)
  {
    ReachableInv(s);
    SharedExactly(s.tasks[i].job, s.tasks[j].job);
  }

  // ---------------------------------------------------------------------------
  // The bytes
  // ---------------------------------------------------------------------------

  /** The number that eight bytes stand for, the first one weighing most. */
  function OfEight(b: Bytes): nat
    requires |b| == 8
  {
    var high: nat := ((b[0] as int * 0x100 + b[1]) * 0x100 + b[2]) * 0x100 + b[3];
    (((high * 0x100 + b[4]) * 0x100 + b[5]) * 0x100 + b[6]) * 0x100 + b[7]
  }

  lemma EightBytes(b: Bytes)
    requires |b| == 8
    ensures Value(b) == OfEight(b)
  {
    var b7, b6, b5, b4 := b[..7], b[..6], b[..5], b[..4];
    assert b7[..6] == b6 && b6[..5] == b5 && b5[..4] == b4;
    FourBytes(b4);
    assert Value(b5) == 0x100 * Value(b4) + b[4];
    assert Value(b6) == 0x100 * Value(b5) + b[5];
    assert Value(b7) == 0x100 * Value(b6) + b[6];
  }

  lemma FourBytes(b: Bytes)
    requires |b| == 4
    ensures Value(b) == ((b[0] as int * 0x100 + b[1]) * 0x100 + b[2]) * 0x100 + b[3]
  {
    var b3, b2, b1 := b[..3], b[..2], b[..1];
    assert b3[..2] == b2 && b2[..1] == b1 && b1[..0] == [];
    assert Value(b1) == b[0];
    assert Value(b2) == 0x100 * Value(b1) + b[1];
    assert Value(b3) == 0x100 * Value(b2) + b[2];
  }

  lemma TwoBytes(n: u16)
    ensures BigEndian(n, 2) == [n / 0x100, n % 0x100]
  {
    assert BigEndian(n / 0x100, 1) == BigEndian(n / 0x100 / 0x100, 0) + [n / 0x100 % 0x100];
    assert n / 0x100 % 0x100 == n / 0x100;
  }

  /** The name, two bytes of the count and eight of the time, in this order, the heavy bytes first. */
  predicate Spells(id: Bytes, name: Bytes, n: u16, timestamp: u64) {
    && |id| == |name| + 10 && id[..|name|] == name
    && id[|name|] as int * 0x100 + id[|name| + 1] == n && OfEight(id[|name| + 2..]) == timestamp
  }

  lemma IdSpells(name: Bytes, n: u16, timestamp: u64)
    ensures Spells(Encode(Fields(name, n, timestamp)), name, n, timestamp)
  {
    Widths();
    TwoBytes(n);
    ValueOfBigEndian(timestamp, 8);
    EightBytes(BigEndian(timestamp, 8));
    var id := Encode(Fields(name, n, timestamp));
    assert id[|name| + 2..] == BigEndian(timestamp, 8);
  }

  /** The ids byte by byte: "aux_gen", "keygen" or "signing", then count and time; a signing id counts the signers,
      cast to 16 bits. */
  lemma IdBytes(job: Job)
    ensures job.AuxJob? ==> Spells(EidOf(job), [97, 117, 120, 95, 103, 101, 110], job.total, job.timestamp)
    ensures job.KeygenJob? ==> Spells(EidOf(job), [107, 101, 121, 103, 101, 110], job.total, job.timestamp)
    ensures job.SigningJob? ==>
              Spells(EidOf(job), [115, 105, 103, 110, 105, 110, 103], |job.signers| % 0x1_0000, job.timestamp)
  {
    IdSpells(NameOf(job.ThePhase()), CountOf(job), job.timestamp);
    NameBytes();
  }

  lemma NameBytes()
    ensures Ascii("aux_gen") == [97, 117, 120, 95, 103, 101, 110]
    ensures Ascii("keygen") == [107, 101, 121, 103, 101, 110]
    ensures Ascii("signing") == [115, 105, 103, 110, 105, 110, 103]
  {
    AsciiAt("aux_gen");
    AsciiAt("keygen");
    AsciiAt("signing");
  }

  lemma {:induction false} AsciiAt(text: string)
    requires forall i :: 0 <= i < |text| ==> text[i] < 128 as char
    ensures forall i :: 0 <= i < |text| ==> Ascii(text)[i] == text[i] as int
  {
    if text != "" {
      AsciiAt(text[1..]);
      assert forall i :: 0 < i < |text| ==> text[i] == text[1..][i - 1];
    }
  }
}
