/**
 The activation record codec.

 Three immutable record kinds live in an activation anchor: `authority`, `prepare`
 and `active`.  Each is an eight-byte magic followed by fixed-width fields and
 length-prefixed absolute locators.  Encoding validates locators; decoding is a
 chain of partial `take` operations on the remaining input that must end exactly
 at the end of the record.
 */
module RecordCodec {
  import opened Wrappers

  newtype byte = x: int | 0 <= x < 256

  type Bytes = seq<byte>

  const MAX_RECORD_BYTES := 128 * 1024
  const MAX_LOCATOR_BYTES := 64 * 1024
  const ACTIVATION_ID_LEN := 32
  /** A prepare or active record without its two locators. */
  const TWO_LOCATOR_OVERHEAD := 114
  /** An authority record without its locator. */
  const ONE_LOCATOR_OVERHEAD := 77

  const U64 := 0x1_0000_0000_0000_0000

  datatype Backend = Ext4 | Xfs | Apfs

  datatype Identity = Identity(device: nat, inode: nat, incarnation: nat, mountId: nat) {
    predicate Valid() {
      device < U64 && inode < U64 && incarnation < U64 && mountId < U64
    }
  }

  datatype AuthorityRecord = AuthorityRecord(
    selectionId: Bytes,
    selectedLocator: Bytes,
    selectedIdentity: Identity,
    selectedBackend: Backend)
  {
    predicate Valid() {
      |selectionId| == ACTIVATION_ID_LEN && selectedIdentity.Valid()
    }

    function Selected(): Place {
      Place(selectedLocator, selectedIdentity, selectedBackend)
    }
  }

  datatype PrepareRecord = PrepareRecord(
    activationId: Bytes,
    authorityLocator: Bytes,
    authorityIdentity: Identity,
    authorityBackend: Backend,
    storeLocator: Bytes,
    storeIdentity: Identity,
    storeBackend: Backend)
  {
    predicate Valid() {
      && |activationId| == ACTIVATION_ID_LEN
      && authorityIdentity.Valid()
      && storeIdentity.Valid()
    }

    function Authority(): Place {
      Place(authorityLocator, authorityIdentity, authorityBackend)
    }

    function Store(): Place {
      Place(storeLocator, storeIdentity, storeBackend)
    }
  }

  datatype ActiveRecord = ActiveRecord(prepare: PrepareRecord)

  // ----- locators --------------------------------------------------------------

  const SLASH: byte := 0x2F
  const DOT: byte := 0x2E

  /** Splits on `/`, keeping empty components; the way `Path::components` sees a path. */
  function Components(path: Bytes): (parts: seq<Bytes>)
    ensures |parts| >= 1
  {
    if path == [] then [[]]
    else
      var rest := Components(path[1..]);
      if path[0] == SLASH then [[]] + rest
      else [[path[0]] + rest[0]] + rest[1..]
  }

  predicate IsParent(part: Bytes) {
    part == [DOT, DOT]
  }

  /** Empty components and `.` name nothing; everything else but `..` is a normal name. */
  predicate IsNormal(part: Bytes) {
    part != [] && part != [DOT] && !IsParent(part)
  }

  predicate NoParent(parts: seq<Bytes>) {
    forall i :: 0 <= i < |parts| ==> !IsParent(parts[i])
  }

  predicate SomeNormal(parts: seq<Bytes>) {
    exists i :: 0 <= i < |parts| && IsNormal(parts[i])
  }

  /** Absolute, free of `..`, and naming at least one component. */
  predicate ValidLocator(path: Bytes) {
    && path != [] && path[0] == SLASH
    && NoParent(Components(path)) && SomeNormal(Components(path))
  }

  /** The component loop of `validate_absolute_locator`. */
  method ScanComponents(parts: seq<Bytes>) returns (ok: bool)
    ensures ok == (NoParent(parts) && SomeNormal(parts))
  {
    var sawNormal := false;
    for i := 0 to |parts|
      invariant forall j :: 0 <= j < i ==> !IsParent(parts[j])
      invariant sawNormal <==> exists j :: 0 <= j < i && IsNormal(parts[j])
    {
      if IsParent(parts[i]) {
        return false;
      }
      sawNormal := sawNormal || IsNormal(parts[i]);
    }
    return sawNormal;
  }

  method ValidateAbsoluteLocator(path: Bytes) returns (ok: bool)
    ensures ok == ValidLocator(path)
  {
    if path == [] || path[0] != SLASH {
      return false;
    }
    ok := ScanComponents(Components(path));
  }

  // ----- big-endian integers -----------------------------------------------------

  function Pow256(k: nat): (p: nat)
    ensures p > 0
  {
    if k == 0 then 1 else 256 * Pow256(k - 1)
  }

  function ToBe(n: nat, k: nat): (b: Bytes)
    ensures |b| == k
  {
    if k == 0 then [] else ToBe(n / 256, k - 1) + [(n % 256) as byte]
  }

  function FromBe(b: Bytes): nat {
    if b == [] then 0 else FromBe(b[..|b| - 1]) * 256 + b[|b| - 1] as nat
  }

  lemma {:induction false} FromBeToBe(n: nat, k: nat)
    requires n < Pow256(k)
    ensures FromBe(ToBe(n, k)) == n
  {
    if k != 0 {
      var b := ToBe(n, k);
      assert b[..|b| - 1] == ToBe(n / 256, k - 1);
      FromBeToBe(n / 256, k - 1);
    }
  }

  lemma {:induction false} ToBeFromBe(b: Bytes)
    ensures FromBe(b) < Pow256(|b|)
    ensures ToBe(FromBe(b), |b|) == b
  {
    if b != [] {
      var init := b[..|b| - 1];
      ToBeFromBe(init);
      assert FromBe(b) / 256 == FromBe(init);
      assert b == init + [b[|b| - 1]];
    }
  }

  lemma Widths()
    ensures Pow256(4) == 0x1_0000_0000
    ensures Pow256(8) == U64
  {
    assert Pow256(1) == 256;
    assert Pow256(2) == 256 * 256;
    assert Pow256(3) == 256 * 256 * 256;
    assert Pow256(5) == 256 * Pow256(4);
    assert Pow256(6) == 256 * Pow256(5);
    assert Pow256(7) == 256 * Pow256(6);
  }

  // ----- field encoders --------------------------------------------------------------

  function EncodeBackend(b: Backend): byte {
    match b case Ext4 => 1 case Xfs => 2 case Apfs => 3
  }

  function DecodeBackend(b: byte): Option<Backend> {
    if b == 1 then Some(Ext4) else if b == 2 then Some(Xfs) else if b == 3 then Some(Apfs) else None
  }

  function PutPath(path: Bytes): Option<Bytes> {
    if !ValidLocator(path) || |path| > MAX_LOCATOR_BYTES then None
    else Some(ToBe(|path|, 4) + path)
  }

  function PutIdentity(id: Identity): (b: Bytes)
    ensures |b| == 32
  {
    ToBe(id.device, 8) + ToBe(id.inode, 8) + ToBe(id.incarnation, 8) + ToBe(id.mountId, 8)
  }

  /** Locator, identity and backend of one object, in that order. */
  datatype Place = Place(locator: Bytes, identity: Identity, backend: Backend)

  function PutPlace(p: Place): Option<Bytes> {
    match PutPath(p.locator)
    case None => None
    case Some(path) => Some(path + PutIdentity(p.identity) + [EncodeBackend(p.backend)])
  }

  // "DGUAPRP1", "DGUACTV1", "DGUAUTH1"
  const MAGIC_PREPARE: Bytes := [0x44, 0x47, 0x55, 0x41, 0x50, 0x52, 0x50, 0x31]
  const MAGIC_ACTIVE: Bytes := [0x44, 0x47, 0x55, 0x41, 0x43, 0x54, 0x56, 0x31]
  const MAGIC_AUTHORITY: Bytes := [0x44, 0x47, 0x55, 0x41, 0x55, 0x54, 0x48, 0x31]

  function EncodeAuthority(r: AuthorityRecord): Option<Bytes> {
    match PutPlace(r.Selected())
    case None => None
    case Some(selected) => Some(MAGIC_AUTHORITY + (r.selectionId + selected))
  }

  /** Prepare and active share one layout behind different magics. */
  function EncodeTwoLocators(magic: Bytes, r: PrepareRecord): Option<Bytes> {
    match (PutPlace(r.Authority()), PutPlace(r.Store()))
    case (Some(authority), Some(store)) => Some(magic + (r.activationId + (authority + store)))
    case _ => None
  }

  function EncodePrepare(r: PrepareRecord): Option<Bytes> {
    EncodeTwoLocators(MAGIC_PREPARE, r)
  }

  function EncodeActive(r: ActiveRecord): Option<Bytes> {
    EncodeTwoLocators(MAGIC_ACTIVE, r.prepare)
  }

  // ----- field decoders: value and remaining input ------------------------------------

  function Take(input: Bytes, n: nat): Option<(Bytes, Bytes)> {
    if |input| < n then None else Some((input[..n], input[n..]))
  }

  function TakeMagic(input: Bytes, magic: Bytes): Option<Bytes> {
    match Take(input, |magic|)
    case None => None
    case Some((head, rest)) => if head == magic then Some(rest) else None
  }

  function TakePath(input: Bytes): Option<(Bytes, Bytes)> {
    match Take(input, 4)
    case None => None
    case Some((lengthBytes, rest)) =>
      var length := FromBe(lengthBytes);
      if length > MAX_LOCATOR_BYTES then None
      else
        match Take(rest, length)
        case None => None
        case Some((path, tail)) => if ValidLocator(path) then Some((path, tail)) else None
  }

  function TakeIdentity(input: Bytes): Option<(Identity, Bytes)> {
    match Take(input, 32)
    case None => None
    case Some((b, rest)) =>
      Some((Identity(FromBe(b[..8]), FromBe(b[8..16]), FromBe(b[16..24]), FromBe(b[24..])), rest))
  }

  function TakeBackend(input: Bytes): Option<(Backend, Bytes)> {
    match Take(input, 1)
    case None => None
    case Some((b, rest)) =>
      match DecodeBackend(b[0]) case None => None case Some(backend) => Some((backend, rest))
  }

  function TakePlace(input: Bytes): Option<(Place, Bytes)> {
    match TakePath(input)
    case None => None
    case Some((path, afterPath)) =>
      match TakeIdentity(afterPath)
      case None => None
      case Some((identity, afterIdentity)) =>
        match TakeBackend(afterIdentity)
        case None => None
        case Some((backend, rest)) => Some((Place(path, identity, backend), rest))
  }

  /** Magic, then the 32-byte id. */
  function TakeHeader(magic: Bytes, bytes: Bytes): Option<(Bytes, Bytes)> {
    match TakeMagic(bytes, magic)
    case None => None
    case Some(afterMagic) => Take(afterMagic, ACTIVATION_ID_LEN)
  }

  function DecodeAuthority(bytes: Bytes): Option<AuthorityRecord> {
    match TakeHeader(MAGIC_AUTHORITY, bytes)
    case None => None
    case Some((id, afterId)) =>
      match TakePlace(afterId)
      case None => None
      case Some((p, rest)) =>
        if rest == [] then Some(AuthorityRecord(id, p.locator, p.identity, p.backend)) else None
  }

  /** Two places and then the end of the record. */
  function TakeTwoPlaces(input: Bytes): Option<(Place, Place)> {
    match TakePlace(input)
    case None => None
    case Some((a, afterAuthority)) =>
      match TakePlace(afterAuthority)
      case None => None
      case Some((s, rest)) => if rest == [] then Some((a, s)) else None
  }

  function DecodeTwoLocators(magic: Bytes, bytes: Bytes): Option<PrepareRecord> {
    match TakeHeader(magic, bytes)
    case None => None
    case Some((id, afterId)) =>
      match TakeTwoPlaces(afterId)
      case None => None
      case Some((a, s)) =>
        Some(PrepareRecord(id, a.locator, a.identity, a.backend, s.locator, s.identity, s.backend))
  }

  function DecodePrepare(bytes: Bytes): Option<PrepareRecord> {
    DecodeTwoLocators(MAGIC_PREPARE, bytes)
  }

  function DecodeActive(bytes: Bytes): Option<ActiveRecord> {
    match DecodeTwoLocators(MAGIC_ACTIVE, bytes)
    case None => None
    case Some(prepare) => Some(ActiveRecord(prepare))
  }

  // ----- one place round trip ------------------------------------------------------------

  lemma TakeAppended(head: Bytes, tail: Bytes)
    ensures Take(head + tail, |head|) == Some((head, tail))
  {
    assert (head + tail)[..|head|] == head;
    assert (head + tail)[|head|..] == tail;
  }

  lemma TakePutPath(path: Bytes, tail: Bytes)
    requires PutPath(path).Some?
    ensures TakePath(PutPath(path).value + tail) == Some((path, tail))
  {
    Widths();
    FromBeToBe(|path|, 4);
    Prefixed(ToBe(|path|, 4), path, tail);
    TakeAppended(ToBe(|path|, 4), path + tail);
    TakeAppended(path, tail);
  }

  lemma Prefixed(width: Bytes, path: Bytes, tail: Bytes)
    ensures width + path + tail == width + (path + tail)
  {
  }

  lemma TakePutIdentity(id: Identity, tail: Bytes)
    requires id.Valid()
    ensures TakeIdentity(PutIdentity(id) + tail) == Some((id, tail))
  {
    Widths();
    FromBeToBe(id.device, 8);
    FromBeToBe(id.inode, 8);
    FromBeToBe(id.incarnation, 8);
    FromBeToBe(id.mountId, 8);
    var b := PutIdentity(id);
    TakeAppended(b, tail);
    assert b[..8] == ToBe(id.device, 8);
    assert b[8..16] == ToBe(id.inode, 8);
    assert b[16..24] == ToBe(id.incarnation, 8);
    assert b[24..] == ToBe(id.mountId, 8);
  }

  lemma TakePutBackend(backend: Backend, tail: Bytes)
    ensures TakeBackend([EncodeBackend(backend)] + tail) == Some((backend, tail))
  {
    TakeAppended([EncodeBackend(backend)], tail);
  }

  /** A place is its three fields, taken one after the other. */
  lemma TakePlaceFields(input: Bytes, afterPath: Bytes, afterIdentity: Bytes, p: Place, rest: Bytes)
    requires TakePath(input) == Some((p.locator, afterPath))
    requires TakeIdentity(afterPath) == Some((p.identity, afterIdentity))
    requires TakeBackend(afterIdentity) == Some((p.backend, rest))
    ensures TakePlace(input) == Some((p, rest))
  {
  }

  lemma TakePutPlace(p: Place, tail: Bytes)
    requires PutPlace(p).Some? && p.identity.Valid()
    ensures TakePlace(PutPlace(p).value + tail) == Some((p, tail))
  {
    var path, identity, backend := PutPath(p.locator).value, PutIdentity(p.identity), [EncodeBackend(p.backend)];
    TakePutPath(p.locator, identity + (backend + tail));
    TakePutIdentity(p.identity, backend + tail);
    TakePutBackend(p.backend, tail);
    TakePlaceFields(path + (identity + (backend + tail)), identity + (backend + tail), backend + tail, p, tail);
    Regroup(path, identity, backend, tail);
  }

  lemma PutTakePath(input: Bytes)
    requires TakePath(input).Some?
    ensures var (path, rest) := TakePath(input).value;
            PutPath(path).Some? && PutPath(path).value + rest == input
  {
    var (path, rest) := TakePath(input).value;
    ToBeFromBe(input[..4]);
    assert input == input[..4] + (path + rest);
  }

  lemma PutTakeIdentity(input: Bytes)
    requires TakeIdentity(input).Some?
    ensures var (id, rest) := TakeIdentity(input).value;
            id.Valid() && PutIdentity(id) + rest == input
  {
    var b := input[..32];
    FourWords(b);
    Widths();
    ToBeFromBe(b[..8]);
    ToBeFromBe(b[8..16]);
    ToBeFromBe(b[16..24]);
    ToBeFromBe(b[24..]);
    SplitAt(input, 32);
  }

  lemma FourWords(b: Bytes)
    requires |b| == 32
    ensures b == b[..8] + b[8..16] + b[16..24] + b[24..]
    ensures |b[..8]| == |b[8..16]| == |b[16..24]| == |b[24..]| == 8
  {
  }

  lemma SplitAt(b: Bytes, n: nat)
    requires n <= |b|
    ensures b == b[..n] + b[n..]
  {
  }

  lemma PutTakePlace(input: Bytes)
    requires TakePlace(input).Some?
    ensures var (p, rest) := TakePlace(input).value;
            p.identity.Valid() && PutPlace(p).Some? && PutPlace(p).value + rest == input
  {
    var (path, afterPath) := TakePath(input).value;
    PutTakePath(input);
    var (id, afterIdentity) := TakeIdentity(afterPath).value;
    PutTakeIdentity(afterPath);
    var (backend, rest) := TakeBackend(afterIdentity).value;
    assert afterIdentity == [EncodeBackend(backend)] + rest;
    Regroup(PutPath(path).value, PutIdentity(id), [EncodeBackend(backend)], rest);
  }

  lemma Regroup(a: Bytes, b: Bytes, c: Bytes, rest: Bytes)
    ensures a + b + c + rest == a + (b + (c + rest))
  {
  }

  // ----- whole records -----------------------------------------------------------------------

  lemma HeaderRoundTrip(magic: Bytes, id: Bytes, body: Bytes)
    requires |id| == ACTIVATION_ID_LEN
    ensures TakeHeader(magic, magic + (id + body)) == Some((id, body))
  {
    TakeAppended(magic, id + body);
    TakeAppended(id, body);
  }

  lemma HeaderReencode(magic: Bytes, bytes: Bytes)
    requires TakeHeader(magic, bytes).Some?
    ensures var (id, body) := TakeHeader(magic, bytes).value;
            |id| == ACTIVATION_ID_LEN && magic + (id + body) == bytes
  {
    var (id, body) := TakeHeader(magic, bytes).value;
    assert bytes[|magic|..] == id + body;
  }

  lemma TwoPlacesRoundTrip(a: Place, s: Place)
    requires PutPlace(a).Some? && PutPlace(s).Some? && a.identity.Valid() && s.identity.Valid()
    ensures TakeTwoPlaces(PutPlace(a).value + PutPlace(s).value) == Some((a, s))
  {
    var tail := PutPlace(s).value;
    TakePutPlace(a, tail);
    assert tail + [] == tail;
    TakePutPlace(s, []);
  }

  lemma TwoPlacesReencode(input: Bytes)
    requires TakeTwoPlaces(input).Some?
    ensures var (a, s) := TakeTwoPlaces(input).value;
            && a.identity.Valid() && s.identity.Valid()
            && PutPlace(a).Some? && PutPlace(s).Some?
            && PutPlace(a).value + PutPlace(s).value == input
  {
    var (a, afterAuthority) := TakePlace(input).value;
    PutTakePlace(input);
    PutTakePlace(afterAuthority);
    var encoded := PutPlace(TakePlace(afterAuthority).value.0).value;
    assert encoded + [] == encoded;
  }

  /** Decoding inverts encoding. */
  lemma AuthorityRoundTrip(r: AuthorityRecord)
    requires r.Valid() && EncodeAuthority(r).Some?
    ensures DecodeAuthority(EncodeAuthority(r).value) == Some(r)
  {
    var body := PutPlace(r.Selected()).value;
    HeaderRoundTrip(MAGIC_AUTHORITY, r.selectionId, body);
    assert body + [] == body;
    TakePutPlace(r.Selected(), []);
  }

  /** Every accepted byte string is the encoding of what it decodes to. */
  lemma AuthorityReencode(bytes: Bytes)
    requires DecodeAuthority(bytes).Some?
    ensures var r := DecodeAuthority(bytes).value;
            r.Valid() && EncodeAuthority(r) == Some(bytes)
  {
    HeaderReencode(MAGIC_AUTHORITY, bytes);
    var (id, body) := TakeHeader(MAGIC_AUTHORITY, bytes).value;
    PutTakePlace(body);
    var encoded := PutPlace(TakePlace(body).value.0).value;
    assert encoded + [] == encoded;
  }

  lemma TwoLocatorsRoundTrip(magic: Bytes, r: PrepareRecord)
    requires r.Valid() && EncodeTwoLocators(magic, r).Some?
    ensures DecodeTwoLocators(magic, EncodeTwoLocators(magic, r).value) == Some(r)
  {
    HeaderRoundTrip(magic, r.activationId, PutPlace(r.Authority()).value + PutPlace(r.Store()).value);
    TwoPlacesRoundTrip(r.Authority(), r.Store());
  }

  lemma TwoLocatorsReencode(magic: Bytes, bytes: Bytes)
    requires DecodeTwoLocators(magic, bytes).Some?
    ensures var r := DecodeTwoLocators(magic, bytes).value;
            r.Valid() && EncodeTwoLocators(magic, r) == Some(bytes)
  {
    HeaderReencode(magic, bytes);
    TwoPlacesReencode(TakeHeader(magic, bytes).value.1);
  }

  lemma PrepareRoundTrip(r: PrepareRecord)
    requires r.Valid() && EncodePrepare(r).Some?
    ensures DecodePrepare(EncodePrepare(r).value) == Some(r)
  {
    TwoLocatorsRoundTrip(MAGIC_PREPARE, r);
  }

  lemma PrepareReencode(bytes: Bytes)
    requires DecodePrepare(bytes).Some?
    ensures var r := DecodePrepare(bytes).value;
            r.Valid() && EncodePrepare(r) == Some(bytes)
  {
    TwoLocatorsReencode(MAGIC_PREPARE, bytes);
  }

  lemma ActiveRoundTrip(r: ActiveRecord)
    requires r.prepare.Valid() && EncodeActive(r).Some?
    ensures DecodeActive(EncodeActive(r).value) == Some(r)
  {
    TwoLocatorsRoundTrip(MAGIC_ACTIVE, r.prepare);
  }

  lemma ActiveReencode(bytes: Bytes)
    requires DecodeActive(bytes).Some?
    ensures var r := DecodeActive(bytes).value;
            r.prepare.Valid() && EncodeActive(r) == Some(bytes)
  {
    TwoLocatorsReencode(MAGIC_ACTIVE, bytes);
  }

  /** No byte string is a record of two kinds. */
  lemma KindsAreDisjoint(bytes: Bytes)
    ensures !(DecodeAuthority(bytes).Some? && DecodePrepare(bytes).Some?)
    ensures !(DecodeAuthority(bytes).Some? && DecodeActive(bytes).Some?)
    ensures !(DecodePrepare(bytes).Some? && DecodeActive(bytes).Some?)
  {
    assert MAGIC_AUTHORITY[4] != MAGIC_PREPARE[4];
    assert MAGIC_AUTHORITY[4] != MAGIC_ACTIVE[4];
    assert MAGIC_PREPARE[4] != MAGIC_ACTIVE[4];
  }

  // ----- the reader's size cap -----------------------------------------------------------------

  /** What `read_exact_record` hands to the decoder: at most 128 KiB, or corrupt. */
  function ReadExactRecord(file: Bytes): Option<Bytes> {
    if |file| > MAX_RECORD_BYTES then None else Some(file)
  }

  function ReadPrepare(file: Bytes): Option<PrepareRecord> {
    match ReadExactRecord(file) case None => None case Some(bytes) => DecodePrepare(bytes)
  }

  function ReadActive(file: Bytes): Option<ActiveRecord> {
    match ReadExactRecord(file) case None => None case Some(bytes) => DecodeActive(bytes)
  }

  function ReadAuthority(file: Bytes): Option<AuthorityRecord> {
    match ReadExactRecord(file) case None => None case Some(bytes) => DecodeAuthority(bytes)
  }

  /** The condition a publisher could check: the two locators fit the reader's cap. */
  predicate Readable(r: PrepareRecord) {
    |r.authorityLocator| + |r.storeLocator| <= MAX_RECORD_BYTES - TWO_LOCATOR_OVERHEAD
  }

  /** Exact size, hence exactly when a published record can be read back. */
  lemma PrepareReadBack(r: PrepareRecord)
    requires r.Valid() && EncodePrepare(r).Some?
    ensures |EncodePrepare(r).value| == TWO_LOCATOR_OVERHEAD + |r.authorityLocator| + |r.storeLocator|
    ensures ReadPrepare(EncodePrepare(r).value) == Some(r) <==> Readable(r)
    ensures Readable(r) <==> |r.authorityLocator| + |r.storeLocator| <= 130958
  {
    PrepareRoundTrip(r);
  }

  /** An active record shares the layout, the size and the limit. */
  lemma ActiveReadBack(r: ActiveRecord)
    requires r.prepare.Valid() && EncodeActive(r).Some?
    ensures |EncodeActive(r).value| == TWO_LOCATOR_OVERHEAD + |r.prepare.authorityLocator| + |r.prepare.storeLocator|
    ensures ReadActive(EncodeActive(r).value) == Some(r) <==> Readable(r.prepare)
  {
    ActiveRoundTrip(r);
  }

  /** An authority record always fits, whatever locator the encoder accepted. */
  lemma AuthorityReadBack(r: AuthorityRecord)
    requires r.Valid() && EncodeAuthority(r).Some?
    ensures |EncodeAuthority(r).value| == ONE_LOCATOR_OVERHEAD + |r.selectedLocator|
    ensures ReadAuthority(EncodeAuthority(r).value) == Some(r)
  {
    AuthorityRoundTrip(r);
  }

  function Repeat(b: byte, n: nat): (s: Bytes)
    ensures |s| == n
    ensures forall i :: 0 <= i < n ==> s[i] == b
  {
    seq(n, _ => b)
  }

  lemma {:induction false} SlashFreeComponents(s: Bytes)
    requires SLASH !in s
    ensures Components(s) == [s]
  {
    if s != [] {
      SlashFreeComponents(s[1..]);
      assert s == [s[0]] + s[1..];
    }
  }

  /** The encoder's per-locator cap admits a record the reader then calls corrupt. */
  lemma LongLocatorsAreUnreadable() returns (r: PrepareRecord)
    ensures r.Valid() && EncodePrepare(r).Some?
    ensures ReadPrepare(EncodePrepare(r).value) == None
  {
    var name := Repeat(0x61, MAX_LOCATOR_BYTES - 1);
    var path: Bytes := [SLASH] + name;
    SlashFreeComponents(name);
    assert path[1..] == name;
    assert Components(path) == [[], name];
    assert IsNormal(Components(path)[1]);
    var id := Identity(0, 0, 0, 0);
    r := PrepareRecord(Repeat(0, ACTIVATION_ID_LEN), path, id, Ext4, path, id, Ext4);
    PrepareReadBack(r);
  }
}
