/** The activation records byte by byte, as they lie on disk. */
module RecordLayout {
  import opened Wrappers
  import opened RecordCodec

  /** Four bytes, the most significant first. */
  function Word4(b: Bytes): nat
    requires |b| == 4
  {
    b[0] as nat * 0x100_0000 + b[1] as nat * 0x1_0000 + b[2] as nat * 0x100 + b[3] as nat
  }

  function Word8(b: Bytes): nat
    requires |b| == 8
  {
    Word4(b[..4]) * 0x1_0000_0000 + Word4(b[4..])
  }

  /** Device, inode, incarnation and mount. */
  predicate IsIdentity(b: Bytes, id: Identity) {
    && |b| == 32
    && Word8(b[..8]) == id.device && Word8(b[8..16]) == id.inode
    && Word8(b[16..24]) == id.incarnation && Word8(b[24..]) == id.mountId
  }

  /** Length, locator, identity and backend. */
  predicate IsPlace(b: Bytes, p: Place) {
    var n := |p.locator|;
    && |b| == n + 37
    && Word4(b[..4]) == n
    && b[4..4 + n] == p.locator
    && IsIdentity(b[4 + n..36 + n], p.identity)
    && b[36 + n] == (match p.backend case Ext4 => 1 case Xfs => 2 case Apfs => 3)
  }

  predicate PlaceAt(b: Bytes, at: nat, p: Place) {
    at + |p.locator| + 37 <= |b| && IsPlace(b[at..at + |p.locator| + 37], p)
  }

  /** Eight letters, then the 32 bytes of the id. */
  predicate HeaderAt(b: Bytes, name: string, id: Bytes) {
    && |name| == 8 && |b| >= 40
    && (forall i :: 0 <= i < 8 ==> b[i] as int == name[i] as int)
    && b[8..40] == id
  }

  // ----- words -------------------------------------------------------------------------------

  lemma FromBe4(b: Bytes)
    requires |b| == 4
    ensures FromBe(b) == Word4(b)
  {
    assert FromBe(b[..1]) == b[0] as nat by { assert b[..1][..0] == []; }
    assert FromBe(b[..2]) == FromBe(b[..1]) * 0x100 + b[1] as nat by { assert b[..2][..1] == b[..1]; }
    assert FromBe(b[..3]) == FromBe(b[..2]) * 0x100 + b[2] as nat by { assert b[..3][..2] == b[..2]; }
    assert b[..4] == b;
  }

  lemma {:induction false} FromBeJoin(a: Bytes, b: Bytes)
    ensures FromBe(a + b) == FromBe(a) * Pow256(|b|) + FromBe(b)
  {
    if b == [] {
      assert a + b == a;
    } else {
      var init := b[..|b| - 1];
      FromBeJoin(a, init);
      assert (a + b)[..|a + b| - 1] == a + init;
    }
  }

  lemma FromBe8(b: Bytes)
    requires |b| == 8
    ensures FromBe(b) == Word8(b)
  {
    FromBeJoin(b[..4], b[4..]);
    assert b == b[..4] + b[4..];
    FromBe4(b[..4]);
    FromBe4(b[4..]);
    Widths();
  }

  lemma ToBe4(n: nat)
    requires n < 0x1_0000_0000
    ensures Word4(ToBe(n, 4)) == n
  {
    Widths();
    FromBeToBe(n, 4);
    FromBe4(ToBe(n, 4));
  }

  lemma ToBe8(n: nat)
    requires n < U64
    ensures Word8(ToBe(n, 8)) == n
  {
    Widths();
    FromBeToBe(n, 8);
    FromBe8(ToBe(n, 8));
  }

  // ----- places ------------------------------------------------------------------------------

  lemma FourSlices(a: Bytes, b: Bytes, c: Bytes, d: Bytes)
    ensures var s, i, j, k := a + b + c + d, |a|, |a| + |b|, |a| + |b| + |c|;
            s[..i] == a && s[i..j] == b && s[j..k] == c && s[k..] == d
  {
  }

  lemma IdentityLayout(id: Identity)
    requires id.Valid()
    ensures IsIdentity(PutIdentity(id), id)
  {
    FourSlices(ToBe(id.device, 8), ToBe(id.inode, 8), ToBe(id.incarnation, 8), ToBe(id.mountId, 8));
    ToBe8(id.device);
    ToBe8(id.inode);
    ToBe8(id.incarnation);
    ToBe8(id.mountId);
  }

  lemma PlaceParts(p: Place, length: Bytes, identity: Bytes, backend: byte)
    requires |length| == 4 && Word4(length) == |p.locator| && IsIdentity(identity, p.identity)
    requires backend == (match p.backend case Ext4 => 1 case Xfs => 2 case Apfs => 3)
    ensures IsPlace(length + p.locator + identity + [backend], p)
  {
    var b := length + p.locator + identity + [backend];
    FourSlices(length, p.locator, identity, [backend]);
    assert b[36 + |p.locator|] == b[36 + |p.locator|..][0];
  }

  lemma PlaceLayout(p: Place)
    requires PutPlace(p).Some? && p.identity.Valid()
    ensures IsPlace(PutPlace(p).value, p)
  {
    ToBe4(|p.locator|);
    IdentityLayout(p.identity);
    PlaceParts(p, ToBe(|p.locator|, 4), PutIdentity(p.identity), EncodeBackend(p.backend));
  }

  lemma PlaceInside(b: Bytes, at: nat, part: Bytes, p: Place)
    requires at + |part| <= |b| && b[at..at + |part|] == part && IsPlace(part, p)
    ensures PlaceAt(b, at, p)
  {
  }

  // ----- records -----------------------------------------------------------------------------

  lemma HeaderLayout(magic: Bytes, name: string, id: Bytes, body: Bytes)
    requires |magic| == 8 && |name| == 8 && |id| == ACTIVATION_ID_LEN
    requires forall i :: 0 <= i < 8 ==> magic[i] as int == name[i] as int
    ensures HeaderAt(magic + (id + body), name, id)
  {
    assert (magic + (id + body))[8..40] == id;
  }

  lemma RegroupedOne(magic: Bytes, id: Bytes, body: Bytes)
    ensures magic + (id + body) == (magic + id) + body + []
  {
  }

  lemma AuthorityLayout(r: AuthorityRecord)
    requires r.Valid() && EncodeAuthority(r).Some?
    ensures var b := EncodeAuthority(r).value;
            && |b| == 77 + |r.selectedLocator|
            && HeaderAt(b, "DGUAUTH1", r.selectionId)
            && PlaceAt(b, 40, r.Selected())
  {
    var selected := PutPlace(r.Selected()).value;
    HeaderLayout(MAGIC_AUTHORITY, "DGUAUTH1", r.selectionId, selected);
    PlaceLayout(r.Selected());
    RegroupedOne(MAGIC_AUTHORITY, r.selectionId, selected);
    PlaceBetween(EncodeAuthority(r).value, MAGIC_AUTHORITY + r.selectionId, selected, [], r.Selected());
  }

  lemma TwoLocatorsLayout(magic: Bytes, name: string, r: PrepareRecord)
    requires r.Valid() && EncodeTwoLocators(magic, r).Some?
    requires |magic| == 8 && |name| == 8 && forall i :: 0 <= i < 8 ==> magic[i] as int == name[i] as int
    ensures var b := EncodeTwoLocators(magic, r).value;
            && |b| == 114 + |r.authorityLocator| + |r.storeLocator|
            && HeaderAt(b, name, r.activationId)
            && PlaceAt(b, 40, r.Authority()) && PlaceAt(b, 77 + |r.authorityLocator|, r.Store())
  {
    var authority, store := PutPlace(r.Authority()).value, PutPlace(r.Store()).value;
    HeaderLayout(magic, name, r.activationId, authority + store);
    PlaceLayout(r.Authority());
    PlaceLayout(r.Store());
    Regrouped(magic, r.activationId, authority, store);
    var b := EncodeTwoLocators(magic, r).value;
    PlaceBetween(b, magic + r.activationId, authority, store, r.Authority());
    PlaceBetween(b, magic + r.activationId + authority, store, [], r.Store());
  }

  /** A part between a prefix and a suffix, cut from a longer concatenation. */
  lemma PlaceBetween(b: Bytes, pre: Bytes, part: Bytes, post: Bytes, p: Place)
    requires b == pre + part + post && IsPlace(part, p)
    ensures PlaceAt(b, |pre|, p)
  {
    Cut(b, pre, part, post);
    PlaceInside(b, |pre|, part, p);
  }

  lemma Cut(b: Bytes, pre: Bytes, part: Bytes, post: Bytes)
    requires b == pre + part + post
    ensures b[|pre|..|pre| + |part|] == part
  {
  }

  lemma Regrouped(magic: Bytes, id: Bytes, authority: Bytes, store: Bytes)
    ensures var b := magic + (id + (authority + store));
            b == (magic + id) + authority + store && b == (magic + id + authority) + store + []
  {
  }

  lemma PrepareLayout(r: PrepareRecord)
    requires r.Valid() && EncodePrepare(r).Some?
    ensures var b := EncodePrepare(r).value;
            && |b| == 114 + |r.authorityLocator| + |r.storeLocator|
            && HeaderAt(b, "DGUAPRP1", r.activationId)
            && PlaceAt(b, 40, r.Authority()) && PlaceAt(b, 77 + |r.authorityLocator|, r.Store())
  {
    TwoLocatorsLayout(MAGIC_PREPARE, "DGUAPRP1", r);
  }

  lemma ActiveLayout(r: ActiveRecord)
    requires r.prepare.Valid() && EncodeActive(r).Some?
    ensures var b, p := EncodeActive(r).value, r.prepare;
            && |b| == 114 + |p.authorityLocator| + |p.storeLocator|
            && HeaderAt(b, "DGUACTV1", p.activationId)
            && PlaceAt(b, 40, p.Authority()) && PlaceAt(b, 77 + |p.authorityLocator|, p.Store())
  {
    TwoLocatorsLayout(MAGIC_ACTIVE, "DGUACTV1", r.prepare);
  }
}
