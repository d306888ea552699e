/** The messages of a connection, and the packages that a reader of fixed-size packages sees in
    them. */
module Messages {
  import opened CanFrames
  import opened Packages

  // What one message of the socket carries. Boundaries between messages are kept, and what a
  // read leaves of a message is discarded.
  type Message = seq<uint8>

  datatype Intake = Intake(bytes: seq<uint8>, rest: seq<Message>, failed: bool)

  /** What a reader of n bytes gets: an empty message is taken as the end, and so is a connection
      that is closed. */
  function Gather(ms: seq<Message>, n: nat, broken: bool): (g: Intake)
    ensures |g.bytes| <= n
    ensures |g.rest| <= |ms| && (g.bytes != [] ==> |g.rest| < |ms|)
    decreases |ms|
  {
    if n == 0 then Intake([], ms, false)
    else if ms == [] then Intake([], [], broken)
    else if ms[0] == [] then Intake([], ms[1..], false)
    else if |ms[0]| >= n then Intake(ms[0][..n], ms[1..], false)
    else
      var g := Gather(ms[1..], n - |ms[0]|, broken);
      Intake(ms[0] + g.bytes, g.rest, g.failed)
  }

  function FirstOf(bytes: seq<uint8>, n: nat): seq<uint8> { if |bytes| <= n then bytes else bytes[..n] }

  // One read of the loop that collects n bytes.
  lemma FirstPiece(ms: seq<Message>, n: nat, broken: bool)
    requires n > 0 && ms != [] && ms[0] != []
    ensures var piece := FirstOf(ms[0], n);
            var g := Gather(ms[1..], n - |piece|, broken);
            Gather(ms, n, broken) == Intake(piece + g.bytes, g.rest, g.failed)
  {
  }

  function Joined(ms: seq<Message>): seq<uint8> {
    if ms == [] then [] else ms[0] + Joined(ms[1..])
  }

  lemma JoinedCons(m: Message, ms: seq<Message>)
    ensures Joined([m] + ms) == m + Joined(ms)
  {
    assert ([m] + ms)[1..] == ms;
  }

  predicate NoneEmpty(ms: seq<Message>) { forall i :: 0 <= i < |ms| ==> ms[i] != [] }

  function BeforeEmpty(ms: seq<Message>): seq<Message> {
    if ms == [] || ms[0] == [] then [] else [ms[0]] + BeforeEmpty(ms[1..])
  }

  /** The reader gets the first n bytes that come before an empty message. */
  lemma {:induction false} GatherTakesFirst(ms: seq<Message>, n: nat, broken: bool)
    ensures Gather(ms, n, broken).bytes == FirstOf(Joined(BeforeEmpty(ms)), n)
  {
    if n == 0 || ms == [] || ms[0] == [] {
    } else {
      JoinedCons(ms[0], BeforeEmpty(ms[1..]));
      if |ms[0]| < n {
        GatherTakesFirst(ms[1..], n - |ms[0]|, broken);
      }
    }
  }

  /** It uses up no message that it does not need; so only the last can lose bytes. */
  lemma {:induction false} GatherUsesFew(ms: seq<Message>, n: nat, broken: bool) returns (used: seq<Message>)
    ensures ms == used + Gather(ms, n, broken).rest
    ensures used != [] ==> |Joined(used[..|used| - 1])| < n
  {
    if n == 0 || ms == [] {
      used := [];
    } else if ms[0] == [] || |ms[0]| >= n {
      used := [ms[0]];
      assert used[..0] == [];
    } else {
      var used' := GatherUsesFew(ms[1..], n - |ms[0]|, broken);
      used := [ms[0]] + used';
      if used' == [] {
        assert used[..0] == [];
      } else {
        assert used[..|used'|] == [ms[0]] + used'[..|used'| - 1];
        JoinedCons(ms[0], used'[..|used'| - 1]);
      }
    }
  }

  /** Reading fails exactly if the connection breaks before n bytes and no message is empty. */
  lemma {:induction false} GatherFails(ms: seq<Message>, n: nat, broken: bool)
    ensures Gather(ms, n, broken).failed <==> broken && |Joined(ms)| < n && NoneEmpty(ms)
  {
    if n == 0 || ms == [] {
    } else if ms[0] == [] || |ms[0]| >= n {
    } else {
      GatherFails(ms[1..], n - |ms[0]|, broken);
      assert NoneEmpty(ms) <==> NoneEmpty(ms[1..]) by {
        assert forall i :: 0 < i < |ms| ==> ms[i] == ms[1..][i - 1];
      }
    }
  }

  function Padded(b: seq<uint8>): Image
    requires |b| <= PACKAGE_SIZE
  {
    b + seq(PACKAGE_SIZE - |b|, _ => 0)
  }

  /** A connection that ends (rather than breaks) inside a package yields that package with the
      missing bytes zero: the reader treats a short read as a whole one. */
  function PackagesOf(ms: seq<Message>, broken: bool): seq<Package>
    decreases |ms|
  {
    var g := Gather(ms, PACKAGE_SIZE, broken);
    if g.failed || g.bytes == [] then [] else [Parse(Padded(g.bytes))] + PackagesOf(g.rest, broken)
  }

  lemma {:induction false} GatherPieces(ms: seq<Message>, rest: seq<Message>, broken: bool)
    requires NoneEmpty(ms)
    ensures Gather(ms + rest, |Joined(ms)|, broken) == Intake(Joined(ms), rest, false)
  {
    if ms == [] {
      assert ms + rest == rest;
    } else {
      assert (ms + rest)[1..] == ms[1..] + rest;
      GatherPieces(ms[1..], rest, broken);
      if |ms| == 1 {
        assert ms[1..] == [] && ms[0][..|Joined(ms)|] == ms[0];
      } else {
        assert Joined(ms[1..]) == ms[1] + Joined(ms[1..][1..]);
      }
    }
  }

  // ---------- what is written and what is read ----------

  function Bytes(ps: seq<Package>): seq<uint8> {
    if ps == [] then [] else Serialize(ps[0]) + Bytes(ps[1..])
  }

  // Every package begins and ends where a message does.
  ghost predicate Aligned(ms: seq<Message>, ps: seq<Package>)
    decreases |ps|
  {
    if ps == [] then ms == []
    else exists k :: 0 <= k <= |ms| && Joined(ms[..k]) == Serialize(ps[0]) && Aligned(ms[k..], ps[1..])
  }

  lemma Halves(a: seq<Message>, b: seq<Message>)
    requires NoneEmpty(a + b)
    ensures NoneEmpty(a) && NoneEmpty(b)
  {
    assert forall i :: 0 <= i < |a| ==> a[i] == (a + b)[i];
    assert forall i :: 0 <= i < |b| ==> b[i] == (a + b)[|a| + i];
  }

  // The reader uses up used for one package, the first bytes of which it gets; it loses lost.
  lemma {:induction false} ReadSplits(ms: seq<Message>, n: nat, broken: bool)
      returns (used: seq<Message>, lost: seq<uint8>)
    requires NoneEmpty(ms)
    ensures var g := Gather(ms, n, broken);
            ms == used + g.rest && Joined(used) == g.bytes + lost
  {
    if n == 0 || ms == [] {
      used, lost := [], [];
    } else if |ms[0]| >= n {
      used, lost := [ms[0]], ms[0][n..];
      JoinedCons(ms[0], []);
    } else {
      Halves([ms[0]], ms[1..]);
      used, lost := ReadSplits(ms[1..], n - |ms[0]|, broken);
      JoinedCons(ms[0], used);
      used := [ms[0]] + used;
    }
  }

  lemma {:induction false} ShortRead(ms: seq<Message>, n: nat, broken: bool)
    requires NoneEmpty(ms)
    ensures var g := Gather(ms, n, broken);
            && (|g.bytes| < n ==> g.bytes == Joined(ms) && g.rest == [])
            && (g.failed <==> broken && |g.bytes| < n)
  {
    if n == 0 || ms == [] || |ms[0]| >= n {
    } else {
      Halves([ms[0]], ms[1..]);
      ShortRead(ms[1..], n - |ms[0]|, broken);
    }
  }

  // What one read does to the packages that are seen.
  lemma PackagesAfterRead(ms: seq<Message>, broken: bool)
    requires NoneEmpty(ms)
    ensures var g := Gather(ms, PACKAGE_SIZE, broken);
            NoneEmpty(g.rest) && PackagesOf(ms, broken) ==
              if |g.bytes| == PACKAGE_SIZE then [Parse(Padded(g.bytes))] + PackagesOf(g.rest, broken)
              else if broken || g.bytes == [] then []
              else [Parse(Padded(g.bytes))]
  {
    hide Parse;
    var used, lost := ReadSplits(ms, PACKAGE_SIZE, broken);
    Halves(used, Gather(ms, PACKAGE_SIZE, broken).rest);
    ShortRead(ms, PACKAGE_SIZE, broken);
    assert PackagesOf([], broken) == [];
  }

  lemma {:induction false} JoinedConcat(a: seq<Message>, b: seq<Message>)
    ensures Joined(a + b) == Joined(a) + Joined(b)
  {
    if a == [] {
      assert a + b == b;
    } else {
      assert (a + b)[1..] == a[1..] + b;
      JoinedConcat(a[1..], b);
    }
  }

  lemma WholePackage(p: Package)
    ensures Parse(Padded(Serialize(p))) == p
  {
    assert Padded(Serialize(p)) == Serialize(p);
    ParseSerialize(p);
  }

  lemma FirstPackage(head: seq<Message>, p: Package, rest: seq<Message>, broken: bool)
    requires NoneEmpty(head) && Joined(head) == Serialize(p)
    ensures PackagesOf(head + rest, broken) == [p] + PackagesOf(rest, broken)
  {
    hide Parse, Padded, Serialize;
    GatherPieces(head, rest, broken);
    WholePackage(p);
  }

  /** Packages are read as they were written, however each is split into messages. */
  lemma {:induction false} StreamRoundTrip(ms: seq<Message>, ps: seq<Package>, broken: bool)
    requires NoneEmpty(ms) && Aligned(ms, ps)
    ensures PackagesOf(ms, broken) == ps
    decreases |ps|
  {
    if ps == [] {
    } else {
      hide PackagesOf, NoneEmpty, Joined, Serialize, Aligned;
      var head, rest := SplitAligned(ms, ps);
      Halves(head, rest);
      FirstPackage(head, ps[0], rest, broken);
      StreamRoundTrip(rest, ps[1..], broken);
    }
  }

  lemma SplitAligned(ms: seq<Message>, ps: seq<Package>) returns (head: seq<Message>, rest: seq<Message>)
    requires ps != [] && Aligned(ms, ps)
    ensures ms == head + rest && Joined(head) == Serialize(ps[0]) && Aligned(rest, ps[1..])
  {
    var k :| 0 <= k <= |ms| && Joined(ms[..k]) == Serialize(ps[0]) && Aligned(ms[k..], ps[1..]);
    head, rest := ms[..k], ms[k..];
  }

  lemma NothingWritten(ms: seq<Message>)
    requires NoneEmpty(ms)
    ensures Joined(ms) == [] <==> ms == []
  {
  }

  /** A package whose first d bytes are missing is not made up for by the zeros after a short
      read: the first byte of its magic code would have to appear every d bytes. */
  lemma PaddingNeverRepairs(p: Package, d: nat)
    requires 1 <= d < PACKAGE_SIZE && p.magic == SOCKET_MAGIC_CODE
    ensures Parse(Padded(Serialize(p)[d..])) != p
  {
    var b, short := Serialize(p), Padded(Serialize(p)[d..]);
    if Parse(short) == p {
      var i := 0;
      assert b[0] == ImageByte(p, 0) == 0xDE;
      while i + d < PACKAGE_SIZE
        invariant i < PACKAGE_SIZE && b[i] == 0xDE
      {
        assert !IsFiller(i);
        SerializeParse(short, i);
        i := i + d;
      }
      assert !IsFiller(i);
      SerializeParse(short, i);
      assert false;
    }
  }

  /** Once d bytes are lost no later read makes up for them. */
  lemma {:induction false} LossIsFinal(ms: seq<Message>, ps: seq<Package>, d: nat, broken: bool)
    requires NoneEmpty(ms) && 1 <= d <= |Bytes(ps)| && Joined(ms) == Bytes(ps)[d..]
    requires ps != [] ==> ps[|ps| - 1].magic == SOCKET_MAGIC_CODE
    ensures PackagesOf(ms, broken) != ps
    decreases |ps|
  {
    hide Gather, PackagesOf, NoneEmpty, Parse;
    var used, lost := ReadSplits(ms, PACKAGE_SIZE, broken);
    var g := Gather(ms, PACKAGE_SIZE, broken);
    JoinedConcat(used, g.rest);
    PackagesAfterRead(ms, broken);
    if |g.bytes| < PACKAGE_SIZE {
      ShortRead(ms, PACKAGE_SIZE, broken);
      if |ps| == 1 && g.bytes != [] {
        assert Bytes(ps) == Serialize(ps[0]);
        assert g.bytes == Serialize(ps[0])[d..];
        PaddingNeverRepairs(ps[0], d);
      }
    } else {
      LostMore(ms, ps, d, g.bytes, lost, g.rest);
      LossIsFinal(g.rest, ps[1..], d + |lost|, broken);
    }
  }

  lemma LostMore(ms: seq<Message>, ps: seq<Package>, d: nat, bytes: seq<uint8>, lost: seq<uint8>, rest: seq<Message>)
    requires 1 <= d <= |Bytes(ps)| && Joined(ms) == Bytes(ps)[d..]
    requires Joined(ms) == bytes + lost + Joined(rest) && |bytes| == PACKAGE_SIZE
    ensures |ps| > 1 && d + |lost| <= |Bytes(ps[1..])| && Joined(rest) == Bytes(ps[1..])[d + |lost|..]
  {
    assert Joined(rest) == Joined(ms)[PACKAGE_SIZE + |lost|..];
    assert Bytes(ps)[d..][PACKAGE_SIZE + |lost|..] == Bytes(ps)[PACKAGE_SIZE..][d + |lost|..];
    assert Bytes(ps)[PACKAGE_SIZE..] == Bytes(ps[1..]);
  }

  /** The packages that are read are those that were written if and only if every package begins
      and ends where a message does. */
  lemma {:induction false} ReadAsWritten(ms: seq<Message>, ps: seq<Package>, broken: bool)
    requires NoneEmpty(ms) && Joined(ms) == Bytes(ps)
    requires ps != [] ==> ps[|ps| - 1].magic == SOCKET_MAGIC_CODE
    ensures PackagesOf(ms, broken) == ps <==> Aligned(ms, ps)
    decreases |ps|
  {
    hide Gather, PackagesOf, Parse;
    if ps == [] {
      NothingWritten(ms);
      StreamRoundTrip([], [], broken);
    } else if Aligned(ms, ps) {
      StreamRoundTrip(ms, ps, broken);
    } else {
      var used, lost := ReadSplits(ms, PACKAGE_SIZE, broken);
      var g := Gather(ms, PACKAGE_SIZE, broken);
      PackagesAfterRead(ms, broken);
      JoinedConcat(used, g.rest);
      ShortRead(ms, PACKAGE_SIZE, broken);
      assert g.bytes == Bytes(ps)[..PACKAGE_SIZE] == Serialize(ps[0]);
      assert Joined(g.rest) == Bytes(ps)[PACKAGE_SIZE + |lost|..] == Bytes(ps[1..])[|lost|..];
      if lost != [] {
        LossIsFinal(g.rest, ps[1..], |lost|, broken);
      } else {
        assert ms[..|used|] == used && ms[|used|..] == g.rest;
        ReadAsWritten(g.rest, ps[1..], broken);
      }
    }
  }

  /** What follows the end of a package in the same message is lost. */
  lemma SharedMessageLosesRest(head: seq<Message>, piece: seq<uint8>, more: seq<uint8>, rest: seq<Message>,
                             p: Package, broken: bool)
    requires NoneEmpty(head) && piece != [] && Joined(head) + piece == Serialize(p)
    ensures PackagesOf(head + [piece + more] + rest, broken) == [p] + PackagesOf(rest, broken)
  {
    GatherThrough(head, piece, more, rest, broken);
    WholePackage(p);
  }

  lemma {:induction false} GatherThrough(head: seq<Message>, piece: seq<uint8>, more: seq<uint8>,
                                            rest: seq<Message>, broken: bool)
    requires NoneEmpty(head) && piece != []
    ensures Gather(head + [piece + more] + rest, |Joined(head)| + |piece|, broken) ==
            Intake(Joined(head) + piece, rest, false)
  {
    var ms := head + [piece + more] + rest;
    if head == [] {
      assert ms[1..] == rest && (piece + more)[..|piece|] == piece;
    } else {
      assert ms[1..] == head[1..] + [piece + more] + rest;
      GatherThrough(head[1..], piece, more, rest, broken);
      assert Joined(head) + piece == head[0] + (Joined(head[1..]) + piece);
    }
  }

  /** A connection that ends inside a package yields one whose missing bytes are zero. */
  lemma ShortPackageIsZeroFilled(m: Message, j: nat)
    requires 0 < |m| < PACKAGE_SIZE && j < PACKAGE_SIZE && !IsFiller(j)
    ensures |PackagesOf([m], false)| == 1
    ensures Serialize(PackagesOf([m], false)[0])[j] == if j < |m| then m[j] else 0
  {
    assert Gather([m], PACKAGE_SIZE, false) == Intake(m, [], false);
    SerializeParse(Padded(m), j);
  }

  // ---------- empty messages ----------

  // The messages end inside a package, as their reader sees it.
  predicate EndsInside(ms: seq<Message>)
    decreases |ms|
  {
    var g := Gather(ms, PACKAGE_SIZE, false);
    g.bytes != [] && (|g.bytes| < PACKAGE_SIZE || EndsInside(g.rest))
  }

  lemma {:induction false} GatherToEmpty(ms: seq<Message>, rest: seq<Message>, n: nat, broken: bool)
    requires NoneEmpty(ms) && n > 0
    ensures var g := Gather(ms, n, false);
            Gather(ms + [[]] + rest, n, broken) ==
            if |g.bytes| < n then Intake(g.bytes, rest, false) else Intake(g.bytes, g.rest + [[]] + rest, false)
  {
    var all := ms + [[]] + rest;
    if ms == [] {
      assert all[0] == [] && all[1..] == rest;
    } else {
      assert all[0] == ms[0] && all[1..] == ms[1..] + [[]] + rest;
      if |ms[0]| < n {
        GatherToEmpty(ms[1..], rest, n - |ms[0]|, broken);
      }
    }
  }

  lemma ReadToEmpty(ms: seq<Message>, rest: seq<Message>, broken: bool)
    requires NoneEmpty(ms)
    ensures var g := Gather(ms, PACKAGE_SIZE, false);
            PackagesOf(ms + [[]] + rest, broken) ==
              if |g.bytes| == PACKAGE_SIZE then [Parse(Padded(g.bytes))] + PackagesOf(g.rest + [[]] + rest, broken)
              else if g.bytes == [] then []
              else [Parse(Padded(g.bytes))] + PackagesOf(rest, broken)
  {
    hide Gather, Parse, Padded, NoneEmpty;
    GatherToEmpty(ms, rest, PACKAGE_SIZE, broken);
  }

  /** An empty message is taken as the end of the connection. Between packages nothing after it is
      read; inside a package the missing bytes are taken as zero and reading goes on after it. */
  lemma {:induction false} EmptyMessageEnds(ms: seq<Message>, rest: seq<Message>, broken: bool)
    requires NoneEmpty(ms)
    ensures PackagesOf(ms + [[]] + rest, broken) ==
            PackagesOf(ms, false) + if EndsInside(ms) then PackagesOf(rest, broken) else []
    decreases |ms|
  {
    hide Gather, Parse, Padded, NoneEmpty, PackagesOf;
    var g := Gather(ms, PACKAGE_SIZE, false);
    ReadToEmpty(ms, rest, broken);
    PackagesAfterRead(ms, false);
    if |g.bytes| == PACKAGE_SIZE {
      EmptyMessageEnds(g.rest, rest, broken);
      var first, later := [Parse(Padded(g.bytes))], if EndsInside(ms) then PackagesOf(rest, broken) else [];
      assert first + (PackagesOf(g.rest, false) + later) == first + PackagesOf(g.rest, false) + later;
    }
  }
}
