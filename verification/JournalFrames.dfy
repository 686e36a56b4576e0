/**
 The journal file: every record is a 4-byte little-endian length and a payload. Reading stops at the
 first frame that is not whole, so a torn tail costs the torn record and nothing before it.
 */
module JournalFrames {
  import opened Seqs

  type Byte = x: int | 0 <= x < 256

  const LENGTH_LIMIT := 0x1_0000_0000

  /** The serialisation of records, and its inverse where there is one. */
  datatype Codec<!R> = Codec(enc: R -> seq<Byte>, dec: seq<Byte> -> Option<R>)

  /** The record has a frame, its length fitting into four bytes, and is decoded from it again. */
  ghost predicate Writable<R>(c: Codec<R>, r: R) {
    0 < |c.enc(r)| < LENGTH_LIMIT && c.dec(c.enc(r)) == Some(r)
  }

  /** What holds of the records written: struct.pack raises for a length that does not fit. */
  ghost predicate Lawful<R>(c: Codec<R>, rs: seq<R>) {
    forall r :: r in rs ==> Writable(c, r)
  }

  /** struct.pack("<I", n). */
  function Header(n: nat): (h: seq<Byte>)
    requires n < LENGTH_LIMIT
    ensures |h| == 4
  {
    [n % 256, n / 256 % 256, n / 256 / 256 % 256, n / 256 / 256 / 256]
  }

  /** struct.unpack("<I", h). */
  function Length(h: seq<Byte>): nat
    requires |h| == 4
  {
    (h[0] as int) + 256 * (h[1] as int) + 65536 * (h[2] as int) + 16777216 * (h[3] as int)
  }

  lemma HeaderLength(n: nat)
    requires n < LENGTH_LIMIT
    ensures Length(Header(n)) == n
  {
    var a := n / 256;
    var b := a / 256;
    assert n == 256 * a + n % 256 && a == 256 * b + a % 256 && b == 256 * (b / 256) + b % 256;
  }

  function Find<R(==)>(rs: seq<R>, r: R): (i: nat)
    ensures r in rs <==> i < |rs|
    ensures r in rs ==> rs[i] == r
  {
    if rs == [] then 0 else if rs[0] == r then 0 else Find(rs[1..], r) + 1
  }

  /** A payload for each of the given records: its place among them. */
  function PlaceCodec<R(==)>(rs: seq<R>): Codec<R> {
    Codec((r: R) => if Find(rs, r) < |rs| && Find(rs, r) < LENGTH_LIMIT then Header(Find(rs, r)) else [],
          (p: seq<Byte>) => if |p| == 4 && Length(p) < |rs| then Some(rs[Length(p)]) else None)
  }

  /** Up to 2^32 records of whatever type, journal records among them, have a lawful serialisation. */
  lemma LawfulCodec<R>(rs: seq<R>)
    requires |rs| <= LENGTH_LIMIT
    ensures Lawful(PlaceCodec(rs), rs)
  {
    forall r | r in rs
      ensures Writable(PlaceCodec(rs), r)
    {
      HeaderLength(Find(rs, r));
    }
  }

  function Frame<R>(c: Codec<R>, r: R): seq<Byte>
    requires Writable(c, r)
  {
    Header(|c.enc(r)|) + c.enc(r)
  }

  /** What _write_record leaves in the file, record after record. */
  function Encode<R>(c: Codec<R>, rs: seq<R>): seq<Byte>
    requires Lawful(c, rs)
  {
    if rs == [] then [] else Frame(c, rs[0]) + Encode(c, rs[1..])
  }

  /** The records read from a file: a short or zero length, a short payload or an undecodable one ends it. */
  function Read<R>(c: Codec<R>, file: seq<Byte>): seq<R>
    decreases |file|
  {
    if |file| < 4 then []
    else
      var n := Length(file[..4]);
      if n == 0 || |file| < 4 + n then []
      else match c.dec(file[4..4 + n])
           case None => []
           case Some(r) => [r] + Read(c, file[4 + n..])
  }

  lemma SliceOfRest(file: seq<Byte>, at: nat, i: nat, j: nat)
    requires i <= j && at + j <= |file|
    ensures file[at..][i..j] == file[at + i..at + j] && file[at..][j..] == file[at + j..]
  {
  }

  lemma ReadAt<R>(c: Codec<R>, file: seq<Byte>, at: nat)
    requires at <= |file|
    ensures |file| < at + 4 ==> Read(c, file[at..]) == []
    ensures at + 4 <= |file| ==>
              var n := Length(file[at..at + 4]);
              && (n == 0 || |file| < at + 4 + n ==> Read(c, file[at..]) == [])
              && (0 < n && at + 4 + n <= |file| ==>
                    match c.dec(file[at + 4..at + 4 + n])
                    case None => Read(c, file[at..]) == []
                    case Some(r) => Read(c, file[at..]) == [r] + Read(c, file[at + 4 + n..]))
  {
    var rest := file[at..];
    if |rest| >= 4 {
      SliceOfRest(file, at, 0, 4);
      var n := Length(rest[..4]);
      if 4 + n <= |rest| {
        SliceOfRest(file, at, 4, 4 + n);
      }
    }
  }

  /** One turn of iter_records: a whole, decodable frame and where it ends, or nothing. */
  method NextRecord<R>(c: Codec<R>, file: seq<Byte>, at: nat) returns (r: Option<R>, next: nat)
    requires at <= |file|
    ensures r.None? ==> Read(c, file[at..]) == []
    ensures r.Some? ==> at < next <= |file| && Read(c, file[at..]) == [r.value] + Read(c, file[next..])
  {
    ReadAt(c, file, at);
    r, next := None, at;
    if |file| < at + 4 {
      return;
    }
    var size := Length(file[at..at + 4]);
    if size <= 0 || |file| < at + 4 + size {
      return;
    }
    next := at + 4 + size;
    r := c.dec(file[at + 4..next]);
  }

  /** iter_records, with the file position as a loop variable. */
  method IterRecords<R>(c: Codec<R>, file: seq<Byte>) returns (rs: seq<R>)
    ensures rs == Read(c, file)
  {
    rs := [];
    var at := 0;
    assert file[0..] == file;
    while true
      invariant 0 <= at <= |file|
      invariant rs + Read(c, file[at..]) == Read(c, file)
      decreases |file| - at
    {
      var r, next := NextRecord(c, file, at);
      if r.None? {
        return;
      }
      Reassociate(rs, r.value, Read(c, file[next..]));
      rs := rs + [r.value];
      at := next;
    }
  }

  lemma Reassociate<R>(a: seq<R>, r: R, b: seq<R>)
    ensures a + ([r] + b) == (a + [r]) + b
  {
  }

  lemma ReadFrame<R>(c: Codec<R>, r: R, rest: seq<Byte>)
    requires Writable(c, r)
    ensures Read(c, Frame(c, r) + rest) == [r] + Read(c, rest)
  {
    var file, n := Frame(c, r) + rest, |c.enc(r)|;
    HeaderLength(n);
    assert file[..4] == Header(n);
    assert file[4..4 + n] == c.enc(r);
    assert file[4 + n..] == rest;
  }

  lemma ReadTornFrame<R>(c: Codec<R>, r: R, cut: nat)
    requires Writable(c, r) && cut < |Frame(c, r)|
    ensures Read(c, Frame(c, r)[..cut]) == []
  {
    var n := |c.enc(r)|;
    if cut >= 4 {
      HeaderLength(n);
      assert Frame(c, r)[..cut][..4] == Header(n);
    }
  }

  /** The cut falls into the first frame. */
  lemma TornFirst<R>(c: Codec<R>, rs: seq<R>, cut: nat)
    requires Lawful(c, rs) && rs != [] && cut < |Frame(c, rs[0])|
    ensures cut <= |Encode(c, rs)| && Read(c, Encode(c, rs)[..cut]) == []
    ensures |Encode(c, rs[..0])| <= cut < |Encode(c, rs[..1])|
  {
    assert Encode(c, rs)[..cut] == Frame(c, rs[0])[..cut];
    ReadTornFrame(c, rs[0], cut);
    assert rs[..1][1..] == [];
  }

  lemma EncodeTail<R>(c: Codec<R>, rs: seq<R>, k: nat)
    requires Lawful(c, rs) && rs != [] && k < |rs|
    ensures |Encode(c, rs[..k + 1])| == |Frame(c, rs[0])| + |Encode(c, rs[1..][..k])|
  {
    assert rs[..k + 1][1..] == rs[1..][..k];
  }

  lemma CutLater<R>(c: Codec<R>, rs: seq<R>, cut: nat)
    requires Lawful(c, rs) && rs != [] && |Frame(c, rs[0])| <= cut <= |Encode(c, rs)|
    ensures cut - |Frame(c, rs[0])| <= |Encode(c, rs[1..])|
    ensures Read(c, Encode(c, rs)[..cut]) == [rs[0]] + Read(c, Encode(c, rs[1..])[..cut - |Frame(c, rs[0])|])
  {
    var f := Frame(c, rs[0]);
    assert Encode(c, rs)[..cut] == f + Encode(c, rs[1..])[..cut - |f|];
    ReadFrame(c, rs[0], Encode(c, rs[1..])[..cut - |f|]);
  }

  /**
   Torn tails: after a cut at any byte exactly the records whose frames lie wholly before it come back;
   k is how many that are.
   */
  lemma {:induction false} TornTail<R>(c: Codec<R>, rs: seq<R>, cut: nat) returns (k: nat)
    requires Lawful(c, rs) && cut <= |Encode(c, rs)|
    ensures k <= |rs| && Read(c, Encode(c, rs)[..cut]) == rs[..k]
    ensures |Encode(c, rs[..k])| <= cut
    ensures k < |rs| ==> cut < |Encode(c, rs[..k + 1])|
  {
    if rs == [] {
      k := 0;
    } else if cut < |Frame(c, rs[0])| {
      k := 0;
      TornFirst(c, rs, cut);
    } else {
      var j := TornTail(c, rs[1..], cut - |Frame(c, rs[0])|);
      k := j + 1;
      CutLater(c, rs, cut);
      EncodeTail(c, rs, j);
      if k < |rs| {
        EncodeTail(c, rs, j + 1);
      }
    }
  }

  lemma {:induction false} EncodePrefix<R>(c: Codec<R>, rs: seq<R>, k: nat)
    requires Lawful(c, rs) && k <= |rs|
    ensures |Encode(c, rs[..k])| <= |Encode(c, rs)|
  {
    if k > 0 {
      EncodeTail(c, rs, k - 1);
      EncodePrefix(c, rs[1..], k - 1);
    }
  }

  /** The whole file round-trips. */
  lemma {:induction false} FullRoundTrip<R>(c: Codec<R>, rs: seq<R>)
    requires Lawful(c, rs)
    ensures Read(c, Encode(c, rs)) == rs
  {
    var all := |Encode(c, rs)|;
    var k := TornTail(c, rs, all);
    assert Encode(c, rs)[..all] == Encode(c, rs);
    if k < |rs| {
      EncodePrefix(c, rs, k + 1);
      assert false;
    }
  }

  // ---- appending to a journal that is there already ----

  lemma {:induction false} EncodeAppend<R>(c: Codec<R>, a: seq<R>, b: seq<R>)
    requires Lawful(c, a + b)
    ensures Encode(c, a + b) == Encode(c, a) + Encode(c, b)
  {
    if a == [] {
      assert a + b == b;
    } else {
      assert (a + b)[1..] == a[1..] + b;
      EncodeAppend(c, a[1..], b);
      JoinBytes(Frame(c, a[0]), Encode(c, a[1..]), Encode(c, b));
    }
  }

  lemma JoinBytes(a: seq<Byte>, b: seq<Byte>, d: seq<Byte>)
    ensures a + (b + d) == (a + b) + d
  {
  }

  lemma ReadFirst<R>(c: Codec<R>, rs: seq<R>, rest: seq<Byte>)
    requires Lawful(c, rs) && rs != []
    ensures Read(c, Encode(c, rs) + rest) == [rs[0]] + Read(c, Encode(c, rs[1..]) + rest)
  {
    var later := Encode(c, rs[1..]);
    JoinBytes(Frame(c, rs[0]), later, rest);
    ReadFrame(c, rs[0], later + rest);
  }

  /** Whole frames are read whatever bytes follow them. */
  lemma {:induction false} ReadThrough<R>(c: Codec<R>, rs: seq<R>, rest: seq<Byte>)
    requires Lawful(c, rs)
    ensures Read(c, Encode(c, rs) + rest) == rs + Read(c, rest)
  {
    if rs == [] {
      assert Encode(c, rs) + rest == rest;
    } else {
      ReadFirst(c, rs, rest);
      ReadThrough(c, rs[1..], rest);
      JoinRecords(rs, Read(c, rest));
    }
  }

  lemma JoinRecords<R>(rs: seq<R>, b: seq<R>)
    requires rs != []
    ensures [rs[0]] + (rs[1..] + b) == rs + b
  {
  }

  /** Reopened behind whole frames, the journal holds the earlier records and the new ones. */
  lemma CleanAppend<R>(c: Codec<R>, earlier: seq<R>, more: seq<R>)
    requires Lawful(c, earlier + more)
    ensures Read(c, Encode(c, earlier) + Encode(c, more)) == earlier + more
  {
    ReadThrough(c, earlier, Encode(c, more));
    FullRoundTrip(c, more);
  }

  /** These bytes begin with a whole frame that can be decoded. */
  predicate Readable<R>(c: Codec<R>, file: seq<Byte>) {
    |file| >= 4 &&
    var n := Length(file[..4]);
    0 < n && 4 + n <= |file| && c.dec(file[4..4 + n]).Some?
  }

  lemma CutSplits<R>(c: Codec<R>, rs: seq<R>, cut: nat, k: nat)
    requires Lawful(c, rs) && k <= |rs| && |Encode(c, rs[..k])| <= cut <= |Encode(c, rs)|
    ensures Encode(c, rs)[..cut] == Encode(c, rs[..k]) + Encode(c, rs)[|Encode(c, rs[..k])|..cut]
  {
    assert rs == rs[..k] + rs[k..];
    EncodeAppend(c, rs[..k], rs[k..]);
  }

  /** A torn header announces the torn record, and the bytes behind are taken for the rest of it. */
  lemma TornSwallows<R>(c: Codec<R>, r: R, cut: nat, behind: seq<Byte>)
    requires Writable(c, r) && 4 <= cut < |Frame(c, r)|
    ensures var n := |c.enc(r)|;
            Readable(c, Frame(c, r)[..cut] + behind) <==>
            cut + |behind| >= 4 + n && c.dec((c.enc(r)[..cut - 4] + behind)[..n]).Some?
  {
    var file, n, body := Frame(c, r)[..cut] + behind, |c.enc(r)|, c.enc(r)[..cut - 4] + behind;
    HeaderLength(n);
    assert Frame(c, r)[..cut] == Header(n) + c.enc(r)[..cut - 4];
    assert file == Header(n) + body;
    assert file[..4] == Header(n) && file[4..] == body;
    if 4 + n <= |file| {
      assert file[4..4 + n] == file[4..][..n];
    }
  }

  lemma OneMoreFrame<R>(c: Codec<R>, rs: seq<R>, k: nat)
    requires Lawful(c, rs) && k < |rs|
    ensures Encode(c, rs[..k + 1]) == Encode(c, rs[..k]) + Frame(c, rs[k])
  {
    var last := [rs[k]];
    assert rs[..k + 1] == rs[..k] + last && last[1..] == [];
    EncodeAppend(c, rs[..k], last);
  }

  lemma FrameBefore<R>(c: Codec<R>, rs: seq<R>, k: nat)
    requires Lawful(c, rs) && k < |rs|
    ensures Encode(c, rs) == Encode(c, rs[..k + 1]) + Encode(c, rs[k + 1..])
  {
    assert rs == rs[..k + 1] + rs[k + 1..];
    EncodeAppend(c, rs[..k + 1], rs[k + 1..]);
  }

  lemma MiddlePart(a: seq<Byte>, f: seq<Byte>, b: seq<Byte>, cut: nat)
    requires |a| <= cut <= |a| + |f|
    ensures (a + f + b)[|a|..cut] == f[..cut - |a|]
  {
  }

  lemma TornPart<R>(c: Codec<R>, rs: seq<R>, cut: nat, k: nat)
    requires Lawful(c, rs) && k < |rs| && |Encode(c, rs[..k])| <= cut < |Encode(c, rs[..k + 1])|
    ensures |Encode(c, rs[..k + 1])| == |Encode(c, rs[..k])| + |Frame(c, rs[k])| <= |Encode(c, rs)|
    ensures var at := |Encode(c, rs[..k])|; Encode(c, rs)[at..cut] == Frame(c, rs[k])[..cut - at]
  {
    OneMoreFrame(c, rs, k);
    FrameBefore(c, rs, k);
    MiddlePart(Encode(c, rs[..k]), Frame(c, rs[k]), Encode(c, rs[k + 1..]), cut);
  }

  /**
   Whatever bytes follow the cut: the records wholly before it come first, and then what the torn bytes
   and those behind them read as, which is nothing if and only if they do not complete a readable frame.
   */
  lemma ReadBehindCut<R>(c: Codec<R>, rs: seq<R>, cut: nat, behind: seq<Byte>) returns (k: nat)
    requires Lawful(c, rs) && cut <= |Encode(c, rs)|
    ensures k <= |rs| && |Encode(c, rs[..k])| <= cut && (k < |rs| ==> cut < |Encode(c, rs[..k + 1])|)
    ensures Read(c, Encode(c, rs)[..cut] + behind)
            == rs[..k] + Read(c, Encode(c, rs)[|Encode(c, rs[..k])|..cut] + behind)
    ensures Read(c, Encode(c, rs)[..cut]) == rs[..k]
    ensures Read(c, Encode(c, rs)[..cut] + behind) == Read(c, Encode(c, rs)[..cut])
            <==> !Readable(c, Encode(c, rs)[|Encode(c, rs[..k])|..cut] + behind)
  {
    k := TornTail(c, rs, cut);
    var torn := Encode(c, rs)[|Encode(c, rs[..k])|..cut];
    CutSplits(c, rs, cut, k);
    JoinBytes(Encode(c, rs[..k]), torn, behind);
    ReadThrough(c, rs[..k], torn + behind);
    LongerOrNot(rs[..k], Read(c, torn + behind));
    NothingRead(c, torn + behind);
  }

  lemma ReadStopsAtTear<R>(c: Codec<R>, rs: seq<R>, cut: nat, k: nat, behind: seq<Byte>)
    requires Lawful(c, rs) && k <= |rs| && |Encode(c, rs[..k])| <= cut <= |Encode(c, rs)|
    requires !Readable(c, Encode(c, rs)[|Encode(c, rs[..k])|..cut] + behind)
    ensures Read(c, Encode(c, rs)[..cut] + behind) == rs[..k]
  {
    var torn := Encode(c, rs)[|Encode(c, rs[..k])|..cut];
    CutSplits(c, rs, cut, k);
    JoinBytes(Encode(c, rs[..k]), torn, behind);
    ReadThrough(c, rs[..k], torn + behind);
    NothingRead(c, torn + behind);
  }

  /** The cut is on the boundary behind record k. */
  lemma AppendOnBoundary<R>(c: Codec<R>, rs: seq<R>, cut: nat, k: nat, more: seq<R>)
    requires Lawful(c, rs + more) && k <= |rs| && cut == |Encode(c, rs[..k])| <= |Encode(c, rs)|
    ensures Read(c, Encode(c, rs)[..cut] + Encode(c, more)) == rs[..k] + more
  {
    CutSplits(c, rs, cut, k);
    assert Encode(c, rs[..k]) + Encode(c, rs)[cut..cut] == Encode(c, rs[..k]);
    CleanAppend(c, rs[..k], more);
  }

  /** The cut is inside record k, behind its header, and less is appended than was torn off. */
  lemma AppendedTooLittle<R>(c: Codec<R>, rs: seq<R>, cut: nat, k: nat, behind: seq<Byte>)
    requires Lawful(c, rs) && k < |rs| && |Encode(c, rs[..k])| + 4 <= cut
    requires cut + |behind| < |Encode(c, rs[..k + 1])|
    ensures cut <= |Encode(c, rs)| && !Readable(c, Encode(c, rs)[|Encode(c, rs[..k])|..cut] + behind)
  {
    TornPart(c, rs, cut, k);
    TornSwallows(c, rs[k], cut - |Encode(c, rs[..k])|, behind);
  }

  /**
   The journal is reopened for appending behind whatever a crash left, k being the records wholly before
   the cut. On a frame boundary everything is read. Inside a frame nothing behind the cut counts if and
   only if the torn bytes and the appended ones do not happen to form a readable frame; behind a whole
   header that is so, in particular, until as many bytes as were torn off have been appended.
   */
  lemma AppendAfterCut<R>(c: Codec<R>, rs: seq<R>, cut: nat, more: seq<R>) returns (k: nat)
    requires Lawful(c, rs + more) && cut <= |Encode(c, rs)|
    ensures k <= |rs| && |Encode(c, rs[..k])| <= cut && (k < |rs| ==> cut < |Encode(c, rs[..k + 1])|)
    ensures var at, file := |Encode(c, rs[..k])|, Encode(c, rs)[..cut] + Encode(c, more);
            && (cut == at ==> Read(c, file) == rs[..k] + more)
            && (Read(c, file) == rs[..k] <==> !Readable(c, Encode(c, rs)[at..cut] + Encode(c, more)))
            && (k < |rs| && at + 4 <= cut && cut + |Encode(c, more)| < |Encode(c, rs[..k + 1])| ==>
                  Read(c, file) == rs[..k])
  {
    k := ReadBehindCut(c, rs, cut, Encode(c, more));
    var at := |Encode(c, rs[..k])|;
    if cut == at {
      AppendOnBoundary(c, rs, cut, k, more);
    }
    if k < |rs| && at + 4 <= cut && cut + |Encode(c, more)| < |Encode(c, rs[..k + 1])| {
      AppendedTooLittle(c, rs, cut, k, Encode(c, more));
    }
  }

  lemma NothingRead<R>(c: Codec<R>, file: seq<Byte>)
    ensures Read(c, file) == [] <==> !Readable(c, file)
  {
  }

  lemma LongerOrNot<R>(a: seq<R>, b: seq<R>)
    ensures a + b == a <==> b == []
  {
    assert |a + b| == |a| + |b|;
  }

  const ByteCodec: Codec<Byte> :=
    Codec((b: Byte) => [b], (p: seq<Byte>) => if |p| == 1 then Some(p[0]) else None)

  lemma ByteCodecLawful(bs: seq<Byte>)
    ensures Lawful(ByteCodec, bs)
  {
  }

  /**
   The journal is reopened for appending. Behind a torn frame new records are lost and garbage can come
   back: here 7 was torn after its header, 9 was appended whole, and the reader returns 1.
   */
  lemma AppendAfterTornFrame()
    ensures Lawful(ByteCodec, [7, 9])
    ensures Read(ByteCodec, Encode(ByteCodec, [7])[..4] + Encode(ByteCodec, [9])) == [1]
  {
    var c := ByteCodec;
    ByteCodecLawful([7, 9]);
    assert [7][1..] == [] && [9][1..] == [];
    assert Frame(c, 7) == [1, 0, 0, 0, 7] && Frame(c, 9) == [1, 0, 0, 0, 9];
    TornThenWhole();
  }

  lemma TornThenWhole()
    ensures Read(ByteCodec, [1, 0, 0, 0] + [1, 0, 0, 0, 9]) == [1]
  {
    var file: seq<Byte> := [1, 0, 0, 0] + [1, 0, 0, 0, 9];
    var rest: seq<Byte> := [0, 0, 0, 9];
    assert file[..4] == [1, 0, 0, 0] && Length(file[..4]) == 1;
    assert file[4..5] == [file[4]] && file[5..] == rest;
    assert rest[..4] == rest && Read(ByteCodec, rest) == [];
  }
}
