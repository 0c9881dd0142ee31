/**
 Directory modes and their minimal seal: what it clears and why no weaker one would do.
 A mode is kept as its permission triples, with the numeric reading beside it.
 */
module ModeBits {
  datatype Triple = Triple(read: bool, write: bool, search: bool) {
    /** Write and search together let the class change names. */
    predicate ChangesNames() {
      write && search
    }

    predicate Within(t: Triple) {
      (read ==> t.read) && (write ==> t.write) && (search ==> t.search)
    }

    function Octal(): nat {
      (if read then 4 else 0) + (if write then 2 else 0) + (if search then 1 else 0)
    }
  }

  /** `special` holds set-uid, set-gid and sticky; `beyond` whatever exceeds octal 7777. */
  datatype Mode = Mode(beyond: nat, special: nat, owner: Triple, group: Triple, other: Triple) {
    function Octal(): nat {
      4096 * beyond + 512 * special + 64 * owner.Octal() + 8 * group.Octal() + other.Octal()
    }

    predicate PermissionsOnly() {
      beyond == 0
    }

    function WithOwnerAccess(): Mode {
      this.(owner := owner.(write := true, search := true))
    }
  }

  function WithoutWrite(t: Triple): Triple {
    if t.ChangesNames() then t.(write := false) else t
  }

  function Sealed(mode: Mode): Mode {
    mode.(group := WithoutWrite(mode.group), other := WithoutWrite(mode.other))
  }

  /** Nobody but the owner can both search the directory and change its names. */
  predicate NamespaceExclusive(mode: Mode) {
    !mode.group.ChangesNames() && !mode.other.ChangesNames()
  }

  predicate Within(a: Mode, b: Mode) {
    && a.beyond == b.beyond && a.special == b.special
    && a.owner.Within(b.owner) && a.group.Within(b.group) && a.other.Within(b.other)
  }

  /** Keeps every bit except possibly the group and other write bits. */
  predicate ClearsOnlySharedWrite(a: Mode, b: Mode) {
    && Within(a, b)
    && a == b.(group := b.group.(write := a.group.write), other := b.other.(write := a.other.write))
  }

  /**
   The seal is idempotent, clears nothing but shared write bits, always excludes, and
   subtracts octal 020 and 002 exactly where those classes could change names.
   */
  lemma SealedMeaning(m: Mode)
    ensures NamespaceExclusive(Sealed(m))
    ensures ClearsOnlySharedWrite(Sealed(m), m)
    ensures Sealed(Sealed(m)) == Sealed(m)
    ensures Sealed(m) == m <==> NamespaceExclusive(m)
    ensures m.Octal() == Sealed(m).Octal() + (if m.group.ChangesNames() then 16 else 0)
                                           + (if m.other.ChangesNames() then 2 else 0)
  {
    if Sealed(m) == m {
      assert Sealed(m).group == m.group && Sealed(m).other == m.other;
    }
  }

  /** It is the weakest such seal: any other that excludes gives up at least the same bits. */
  lemma SealedIsMinimal(m: Mode, other: Mode)
    requires ClearsOnlySharedWrite(other, m) && NamespaceExclusive(other)
    ensures Within(other, Sealed(m))
  {
    assert other.group.search == m.group.search && other.other.search == m.other.search;
  }

  lemma TripleUnique(a: Triple, b: Triple)
    requires a.Octal() == b.Octal()
    ensures a == b
  {
  }

  lemma Digit(high: nat, low: nat, high': nat, low': nat)
    requires low < 8 && low' < 8 && 8 * high + low == 8 * high' + low'
    ensures high == high' && low == low'
  {
  }

  /** The numeric reading determines the mode, so equal numbers are equal modes. */
  lemma OctalUnique(a: Mode, b: Mode)
    requires a.special < 8 && b.special < 8 && a.Octal() == b.Octal()
    ensures a == b
  {
    var o, o' := 8 * a.beyond + a.special, 8 * b.beyond + b.special;
    var u, u' := 8 * o + a.owner.Octal(), 8 * o' + b.owner.Octal();
    var g, g' := 8 * u + a.group.Octal(), 8 * u' + b.group.Octal();
    Digit(g, a.other.Octal(), g', b.other.Octal());
    Digit(u, a.group.Octal(), u', b.group.Octal());
    Digit(o, a.owner.Octal(), o', b.owner.Octal());
    Digit(a.beyond, a.special, b.beyond, b.special);
    TripleUnique(a.other, b.other);
    TripleUnique(a.group, b.group);
    TripleUnique(a.owner, b.owner);
  }
}
