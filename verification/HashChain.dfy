/**
 The append-only hash chain both audit logs use: each link commits to the canonical text of its
 entry and to the hash of the link before it. The digest is a parameter; what is assumed of it is
 said where it is assumed.
 */
module HashChain {
  import opened Text

  function Zeros(n: nat): (s: string)
    ensures |s| == n
  {
    if n == 0 then "" else Zeros(n - 1) + "0"
  }

  /** `'0'.repeat(64)`: what the first link chains from. */
  const GENESIS_HASH: string := Zeros(64)

  type Digest = string -> string

  datatype Link<T> = Link(index: int, entry: T, entryHash: string, prevHash: string, hash: string)

  /** `${index}|${prevHash}|${entryHash}`. */
  function LinkText(index: nat, prevHash: string, entryHash: string): string {
    Decimal(index) + "|" + prevHash + "|" + entryHash
  }

  function LinkHash(hash: Digest, index: nat, prevHash: string, entryHash: string): string {
    hash(LinkText(index, prevHash, entryHash))
  }

  function Head<T>(links: seq<Link<T>>): string {
    if links == [] then GENESIS_HASH else links[|links| - 1].hash
  }

  /** The link `append` makes for an entry on top of an existing chain. */
  function NextLink<T>(hash: Digest, canon: T -> string, links: seq<Link<T>>, entry: T): Link<T> {
    var entryHash := hash(canon(entry));
    Link(|links|, entry, entryHash, Head(links), LinkHash(hash, |links|, Head(links), entryHash))
  }

  /** The chain over a history: every entry sealed on top of those before it. */
  function Seal<T>(hash: Digest, canon: T -> string, entries: seq<T>): (links: seq<Link<T>>)
    ensures |links| == |entries|
  {
    if entries == [] then []
    else
      var before := Seal(hash, canon, entries[..|entries| - 1]);
      before + [NextLink(hash, canon, before, entries[|entries| - 1])]
  }

  lemma {:induction false} SealAppend<T>(hash: Digest, canon: T -> string, entries: seq<T>, entry: T)
    ensures Seal(hash, canon, entries + [entry])
         == Seal(hash, canon, entries) + [NextLink(hash, canon, Seal(hash, canon, entries), entry)]
  {
    assert (entries + [entry])[..|entries|] == entries;
  }

  function Entries<T>(links: seq<Link<T>>): (es: seq<T>)
    ensures |es| == |links|
    ensures forall i | 0 <= i < |links| :: es[i] == links[i].entry
  {
    if links == [] then [] else Entries(links[..|links| - 1]) + [links[|links| - 1].entry]
  }

  /** The four checks made at one position, in the order they are made. */
  predicate LinkHolds<T>(hash: Digest, canon: T -> string, links: seq<Link<T>>, i: nat)
    requires i < |links|
  {
    var l := links[i];
    && l.index == i
    && l.prevHash == (if i == 0 then GENESIS_HASH else links[i - 1].hash)
    && hash(canon(l.entry)) == l.entryHash
    && LinkHash(hash, i, l.prevHash, l.entryHash) == l.hash
  }

  ghost predicate Accepted<T>(hash: Digest, canon: T -> string, links: seq<Link<T>>) {
    forall i: nat | i < |links| :: LinkHolds(hash, canon, links, i)
  }

  datatype Verification = Verification(valid: bool, length: nat, brokenAt: int)

  /** Verify an arbitrary sequence of links, reporting the first that does not hold. */
  method VerifyLinks<T>(hash: Digest, canon: T -> string, links: seq<Link<T>>) returns (v: Verification)
    ensures v.length == |links|
    ensures v.valid <==> Accepted(hash, canon, links)
    ensures v.valid ==> v.brokenAt == -1
    ensures !v.valid ==> 0 <= v.brokenAt < |links| && !LinkHolds(hash, canon, links, v.brokenAt)
                         && forall i: nat | i < v.brokenAt :: LinkHolds(hash, canon, links, i)
  {
    var prevHash := GENESIS_HASH;
    var i := 0;
    while i < |links|
      invariant 0 <= i <= |links|
      invariant prevHash == if i == 0 then GENESIS_HASH else links[i - 1].hash
      invariant forall j: nat | j < i :: LinkHolds(hash, canon, links, j)
    {
      var link := links[i];
      ghost var holds := LinkHolds(hash, canon, links, i);
      if link.index != i {
        return Verification(false, |links|, i);
      }
      if link.prevHash != prevHash {
        return Verification(false, |links|, i);
      }
      if hash(canon(link.entry)) != link.entryHash {
        return Verification(false, |links|, i);
      }
      if LinkHash(hash, i, link.prevHash, link.entryHash) != link.hash {
        return Verification(false, |links|, i);
      }
      prevHash := link.hash;
      i := i + 1;
    }
    v := Verification(true, |links|, -1);
  }

  // ---------- what verification accepts ----------

  lemma {:induction false} SealPrefix<T>(hash: Digest, canon: T -> string, entries: seq<T>, n: nat)
    requires n <= |entries|
    ensures Seal(hash, canon, entries[..n]) == Seal(hash, canon, entries)[..n]
  {
    if n == |entries| {
      assert entries[..n] == entries;
    } else {
      var front := entries[..|entries| - 1];
      SealPrefix(hash, canon, front, n);
      assert front[..n] == entries[..n];
    }
  }

  lemma {:induction false} EarlierLinkHolds<T>(hash: Digest, canon: T -> string, links: seq<Link<T>>, next: Link<T>,
                                               i: nat)
    requires i < |links|
    ensures LinkHolds(hash, canon, links + [next], i) <==> LinkHolds(hash, canon, links, i)
  {
    assert (links + [next])[i] == links[i];
  }

  lemma {:induction false} NextLinkHolds<T>(hash: Digest, canon: T -> string, links: seq<Link<T>>, entry: T)
    ensures LinkHolds(hash, canon, links + [NextLink(hash, canon, links, entry)], |links|)
  {
  }

  lemma {:induction false} AcceptedAppend<T>(hash: Digest, canon: T -> string, links: seq<Link<T>>, entry: T)
    requires Accepted(hash, canon, links)
    ensures Accepted(hash, canon, links + [NextLink(hash, canon, links, entry)])
  {
    var next := NextLink(hash, canon, links, entry);
    forall i: nat | i < |links + [next]| ensures LinkHolds(hash, canon, links + [next], i) {
      if i < |links| {
        EarlierLinkHolds(hash, canon, links, next, i);
      } else {
        NextLinkHolds(hash, canon, links, entry);
      }
    }
  }

  lemma {:induction false} EntriesAppend<T>(links: seq<Link<T>>, next: Link<T>)
    ensures Entries(links + [next]) == Entries(links) + [next.entry]
  {
    assert (links + [next])[..|links|] == links;
  }

  lemma {:induction false} SealOneMore<T>(hash: Digest, canon: T -> string, links: seq<Link<T>>, entry: T,
                                          longer: seq<Link<T>>)
    requires Accepted(hash, canon, links) && longer == links + [NextLink(hash, canon, links, entry)]
    ensures Accepted(hash, canon, longer) && Entries(longer) == Entries(links) + [entry]
  {
    AcceptedAppend(hash, canon, links, entry);
    EntriesAppend(links, NextLink(hash, canon, links, entry));
  }

  lemma {:induction false} SealIsAccepted<T>(hash: Digest, canon: T -> string, entries: seq<T>)
    ensures Accepted(hash, canon, Seal(hash, canon, entries))
    ensures Entries(Seal(hash, canon, entries)) == entries
  {
    if entries != [] {
      SealIsAccepted(hash, canon, entries[..|entries| - 1]);
      LastEntrySealed(hash, canon, entries, Seal(hash, canon, entries[..|entries| - 1]));
    }
  }

  lemma {:induction false} LastEntrySealed<T>(hash: Digest, canon: T -> string, entries: seq<T>, before: seq<Link<T>>)
    requires entries != [] && before == Seal(hash, canon, entries[..|entries| - 1])
    requires Accepted(hash, canon, before) && Entries(before) == entries[..|entries| - 1]
    ensures Accepted(hash, canon, Seal(hash, canon, entries))
    ensures Entries(Seal(hash, canon, entries)) == entries
  {
    SealOneMore(hash, canon, before, entries[|entries| - 1], Seal(hash, canon, entries));
    assert entries == entries[..|entries| - 1] + [entries[|entries| - 1]];
  }

  /**
   Each link of a sealed history holds its position, its entry, the entry's hash, the hash of the link before it, 64
   zeros at the start, and the hash of these three, with bars between them.
   */
  lemma {:induction false} SealedLinkTells<T>(hash: Digest, canon: T -> string, entries: seq<T>, i: nat)
    requires i < |entries|
    ensures var links := Seal(hash, canon, entries); var l := links[i];
            && l.index == i && l.entry == entries[i] && l.entryHash == hash(canon(entries[i]))
            && (if i > 0 then l.prevHash == links[i - 1].hash
                else |l.prevHash| == 64 && forall k | 0 <= k < 64 :: l.prevHash[k] == '0')
            && l.hash == hash(Decimal(i) + "|" + l.prevHash + "|" + l.entryHash)
  {
    var links := Seal(hash, canon, entries);
    SealIsAccepted(hash, canon, entries);
    assert LinkHolds(hash, canon, links, i);
    assert Entries(links)[i] == links[i].entry;
    ZerosAre(64);
  }

  lemma {:induction false} ZerosAre(n: nat)
    ensures |Zeros(n)| == n && forall k | 0 <= k < n :: Zeros(n)[k] == '0'
  {
    if n > 0 {
      ZerosAre(n - 1);
    }
  }

  lemma {:induction false} AcceptedPrefix<T>(hash: Digest, canon: T -> string, links: seq<Link<T>>, n: nat)
    requires Accepted(hash, canon, links) && n <= |links|
    ensures Accepted(hash, canon, links[..n])
  {
    forall i: nat | i < n ensures LinkHolds(hash, canon, links[..n], i) {
      assert LinkHolds(hash, canon, links, i);
    }
  }

  lemma {:induction false} LastLinkSealed<T>(hash: Digest, canon: T -> string, links: seq<Link<T>>)
    requires links != [] && LinkHolds(hash, canon, links, |links| - 1)
    ensures var n := |links| - 1; links == links[..n] + [NextLink(hash, canon, links[..n], links[n].entry)]
  {
  }

  lemma {:induction false} AcceptedIsSealed<T>(hash: Digest, canon: T -> string, links: seq<Link<T>>)
    requires Accepted(hash, canon, links)
    ensures links == Seal(hash, canon, Entries(links))
  {
    if links != [] {
      var n := |links| - 1;
      AcceptedPrefix(hash, canon, links, n);
      AcceptedIsSealed(hash, canon, links[..n]);
      LastLinkSealed(hash, canon, links);
      SealAppend(hash, canon, Entries(links[..n]), links[n].entry);
    }
  }

  /** Verification accepts a sequence of links exactly when appending its entries would build it. */
  lemma {:induction false} AcceptedIffSealed<T>(hash: Digest, canon: T -> string, links: seq<Link<T>>)
    ensures Accepted(hash, canon, links) <==> links == Seal(hash, canon, Entries(links))
  {
    if Accepted(hash, canon, links) {
      AcceptedIsSealed(hash, canon, links);
    }
    SealIsAccepted(hash, canon, Entries(links));
  }

  // ---------- comparing a snapshot with sealed links ----------

  predicate SameHashAt<T>(a: seq<Link<T>>, b: seq<Link<T>>, i: nat)
    requires i < |a| && i < |b|
  {
    a[i].hash == b[i].hash
  }

  lemma {:induction false} SealedLink<T>(hash: Digest, canon: T -> string, entries: seq<T>, i: nat)
    requires i < |entries|
    ensures var s := Seal(hash, canon, entries);
            s[i].hash == LinkHash(hash, i, if i == 0 then GENESIS_HASH else s[i - 1].hash, hash(canon(entries[i])))
  {
    var s := Seal(hash, canon, entries);
    SealIsAccepted(hash, canon, entries);
    assert LinkHolds(hash, canon, s, i) && s[i].entry == Entries(s)[i];
  }

  /** Re-seal a snapshot link by link; the first position whose hash differs, or the length. */
  method FirstMismatch<T>(hash: Digest, canon: T -> string, links: seq<Link<T>>, current: seq<T>) returns (at: nat)
    requires |current| == |links|
    ensures at <= |links|
    ensures forall j: nat | j < at :: SameHashAt(Seal(hash, canon, current), links, j)
    ensures at < |links| ==> !SameHashAt(Seal(hash, canon, current), links, at)
  {
    ghost var resealed := Seal(hash, canon, current);
    var prevHash := GENESIS_HASH;
    at := 0;
    while at < |current|
      invariant 0 <= at <= |current|
      invariant prevHash == if at == 0 then GENESIS_HASH else resealed[at - 1].hash
      invariant forall j: nat | j < at :: SameHashAt(resealed, links, j)
    {
      var entryHash := hash(canon(current[at]));
      var h := LinkHash(hash, at, prevHash, entryHash);
      SealedLink(hash, canon, current, at);
      if h != links[at].hash {
        return;
      }
      prevHash := h;
      at := at + 1;
    }
  }

  // ---------- a head pins the history ----------

  /** Digests are 64 characters long, as SHA-256 in hexadecimal is. */
  ghost predicate FixedLength(hash: Digest) { forall x :: |hash(x)| == 64 }

  /** The texts a chain has put through the digest. */
  ghost function Preimages<T>(canon: T -> string, links: seq<Link<T>>): set<string> {
    if links == [] then {}
    else
      var l := links[|links| - 1];
      Preimages(canon, links[..|links| - 1]) +
      {canon(l.entry), LinkText(|links| - 1, l.prevHash, l.entryHash)}
  }

  /** Among the given texts no two have the same digest, and none digests to the genesis value. */
  ghost predicate CollisionFree(hash: Digest, texts: set<string>) {
    && (forall x, y | x in texts && y in texts && hash(x) == hash(y) :: x == y)
    && (forall x | x in texts :: hash(x) != GENESIS_HASH)
  }

  /** `index|prevHash|entryHash` reads back in one way only. */
  lemma {:induction false} LinkTextUnique(i: nat, p: string, e: string, j: nat, q: string, f: string)
    requires |p| == |q| && |e| == |f|
    requires LinkText(i, p, e) == LinkText(j, q, f)
    ensures i == j && p == q && e == f
  {
    Regroup4(Decimal(i), "|", p, "|" + e);
    Regroup4(Decimal(j), "|", q, "|" + f);
    assert Decimal(i) + "|" + p + "|" + e == Decimal(i) + "|" + p + ("|" + e);
    assert Decimal(j) + "|" + q + "|" + f == Decimal(j) + "|" + q + ("|" + f);
    SplitEqual(Decimal(i), "|" + (p + ("|" + e)), Decimal(j), "|" + (q + ("|" + f)));
    SplitEqual("|", p + ("|" + e), "|", q + ("|" + f));
    SplitEqual(p, "|" + e, q, "|" + f);
    SplitEqual("|", e, "|", f);
    DecimalInjective(i, j);
  }

  ghost predicate SameEntries<T>(canon: T -> string, a: seq<T>, b: seq<T>) {
    |a| == |b| && forall i | 0 <= i < |a| :: canon(a[i]) == canon(b[i])
  }

  lemma {:induction false} LinkInPreimages<T>(hash: Digest, canon: T -> string, links: seq<Link<T>>)
    requires Accepted(hash, canon, links) && links != []
    ensures var n := |links| - 1; var l := links[n];
            && hash(LinkText(n, l.prevHash, l.entryHash)) == Head(links) && hash(canon(l.entry)) == l.entryHash
            && LinkText(n, l.prevHash, l.entryHash) in Preimages(canon, links)
            && canon(l.entry) in Preimages(canon, links)
            && Head(links[..n]) == l.prevHash
  {
    assert LinkHolds(hash, canon, links, |links| - 1);
  }

  /** Equal heads of two non-empty chains come from equal last links. */
  lemma {:induction false} LastLinkPinned<T>(hash: Digest, canon: T -> string, a: seq<Link<T>>, b: seq<Link<T>>)
    requires FixedLength(hash)
    requires CollisionFree(hash, Preimages(canon, a) + Preimages(canon, b))
    requires Accepted(hash, canon, a) && Accepted(hash, canon, b)
    requires Head(a) == Head(b) && a != [] && b != []
    ensures |a| == |b| && Head(a[..|a| - 1]) == Head(b[..|b| - 1])
    ensures canon(a[|a| - 1].entry) == canon(b[|b| - 1].entry)
  {
    var l, k := a[|a| - 1], b[|b| - 1];
    LinkInPreimages(hash, canon, a);
    LinkInPreimages(hash, canon, b);
    PrevHashLength(hash, canon, a, |a| - 1);
    PrevHashLength(hash, canon, b, |b| - 1);
    LinkTextUnique(|a| - 1, l.prevHash, l.entryHash, |b| - 1, k.prevHash, k.entryHash);
  }

  /**
   Two accepted chains with the same head hold the same history: same length, and canonically equal
   entries at every position, provided the texts they hashed do not collide.
   */
  lemma {:induction false} HeadPinsHistory<T>(hash: Digest, canon: T -> string, a: seq<Link<T>>, b: seq<Link<T>>)
    requires FixedLength(hash)
    requires CollisionFree(hash, Preimages(canon, a) + Preimages(canon, b))
    requires Accepted(hash, canon, a) && Accepted(hash, canon, b)
    requires Head(a) == Head(b)
    ensures SameEntries(canon, Entries(a), Entries(b))
    decreases |a|
  {
    if a == [] && b == [] {
    } else if a == [] {
      LinkInPreimages(hash, canon, b);
      assert false;
    } else if b == [] {
      LinkInPreimages(hash, canon, a);
      assert false;
    } else {
      var n := |a| - 1;
      LastLinkPinned(hash, canon, a, b);
      AcceptedPrefix(hash, canon, a, n);
      AcceptedPrefix(hash, canon, b, n);
      HeadPinsHistory(hash, canon, a[..n], b[..n]);
      forall i | 0 <= i < |a| ensures canon(Entries(a)[i]) == canon(Entries(b)[i]) {
        if i < n {
          assert canon(Entries(a[..n])[i]) == canon(Entries(b[..n])[i]);
        }
      }
    }
  }

  lemma {:induction false} PrevHashLength<T>(hash: Digest, canon: T -> string, links: seq<Link<T>>, i: nat)
    requires FixedLength(hash) && Accepted(hash, canon, links) && i < |links|
    ensures |links[i].prevHash| == 64
  {
    assert LinkHolds(hash, canon, links, i);
    if i > 0 {
      assert LinkHolds(hash, canon, links, i - 1);
    }
  }

  lemma {:induction false} SameEntriesSameHead<T>(hash: Digest, canon: T -> string, a: seq<T>, b: seq<T>)
    requires SameEntries(canon, a, b)
    ensures Head(Seal(hash, canon, a)) == Head(Seal(hash, canon, b))
  {
    if a != [] {
      SameEntriesSameHead(hash, canon, a[..|a| - 1], b[..|b| - 1]);
    }
  }

  lemma {:induction false} PreimagesPrefix<T>(canon: T -> string, links: seq<Link<T>>, n: nat)
    requires n <= |links|
    ensures Preimages(canon, links[..n]) <= Preimages(canon, links)
  {
    if n < |links| {
      PreimagesPrefix(canon, links[..|links| - 1], n);
      assert links[..|links| - 1][..n] == links[..n];
    } else {
      assert links[..n] == links;
    }
  }

  lemma {:induction false} SealedHash<T>(hash: Digest, canon: T -> string, a: seq<T>, i: nat)
    requires i < |a|
    ensures var p := Seal(hash, canon, a[..i + 1]);
            && Head(p) == Seal(hash, canon, a)[i].hash && Accepted(hash, canon, p) && Entries(p) == a[..i + 1]
            && Preimages(canon, p) <= Preimages(canon, Seal(hash, canon, a))
  {
    SealPrefix(hash, canon, a, i + 1);
    PreimagesPrefix(canon, Seal(hash, canon, a), i + 1);
    SealIsAccepted(hash, canon, a[..i + 1]);
  }

  /**
   Re-sealing a snapshot agrees with a sealed chain at position `i` exactly when snapshot and
   history agree canonically at every position up to and including `i`.
   */
  lemma {:induction false} HashAgreesIffPrefixAgrees<T>(hash: Digest, canon: T -> string, a: seq<T>, b: seq<T>, i: nat)
    requires FixedLength(hash) && i < |a| && i < |b|
    requires CollisionFree(hash, Preimages(canon, Seal(hash, canon, a)) + Preimages(canon, Seal(hash, canon, b)))
    ensures Seal(hash, canon, a)[i].hash == Seal(hash, canon, b)[i].hash
            <==> SameEntries(canon, a[..i + 1], b[..i + 1])
  {
    var p, q := Seal(hash, canon, a[..i + 1]), Seal(hash, canon, b[..i + 1]);
    SealedHash(hash, canon, a, i);
    SealedHash(hash, canon, b, i);
    if Head(p) == Head(q) {
      HeadPinsHistory(hash, canon, p, q);
    }
    if SameEntries(canon, a[..i + 1], b[..i + 1]) {
      SameEntriesSameHead(hash, canon, a[..i + 1], b[..i + 1]);
    }
  }
}
