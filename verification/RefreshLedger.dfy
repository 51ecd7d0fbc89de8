/**
 The refresh-token ledger: families and their token rows, one row per generation.
 */
module RefreshLedger {
  import opened ConsentMachine
  import opened IdentityStore

  ghost predicate IsRow(l: Ledger, h: Digest<Opaque>, id: Id, generation: int) {
    h in l.rows && l.rows[h].familyId == id && l.rows[h].generation == generation
  }

  ghost predicate HasGeneration(l: Ledger, id: Id, generation: int) {
    exists h :: IsRow(l, h, id, generation)
  }

  /** The current hash of a family is the row of its latest generation. */
  ghost predicate FamilyOk(l: Ledger, id: Id)
    requires id in l.families
  {
    var f := l.families[id];
    f.generation >= 1 && IsRow(l, f.currentTokenHash, id, f.generation)
  }

  /** A row belongs to a family, within its generations, and is unused exactly when it is current. */
  ghost predicate RowOk(l: Ledger, h: Digest<Opaque>)
    requires h in l.rows
  {
    var row := l.rows[h];
    && row.familyId in l.families
    && 1 <= row.generation <= l.families[row.familyId].generation
    && (row.usedAt.None? <==> h == l.families[row.familyId].currentTokenHash)
  }

  ghost predicate OneRowEach(l: Ledger) {
    forall g, h | g in l.rows && h in l.rows ::
      l.rows[g].familyId == l.rows[h].familyId && l.rows[g].generation == l.rows[h].generation ==> g == h
  }

  ghost predicate AllGenerations(l: Ledger) {
    forall id, n | id in l.families && 1 <= n <= l.families[id].generation :: HasGeneration(l, id, n)
  }

  ghost predicate FamiliesOk(l: Ledger, next: Id) {
    forall id | id in l.families :: id < next && FamilyOk(l, id)
  }

  ghost predicate RowsOk(l: Ledger, next: Id) {
    forall h | h in l.rows :: h.preimage.first < next && h.preimage.second < next && RowOk(l, h)
  }

  /** Rows of a family are exactly one per generation 1..g; everything stored was generated before `next`. */
  ghost predicate LedgerInv(l: Ledger, next: Id) {
    FamiliesOk(l, next) && RowsOk(l, next) && OneRowEach(l) && AllGenerations(l)
  }

  /** The row set of a family, listed by generation: the ledger invariant read as a bijection. */
  lemma OneRowPerGeneration(l: Ledger, next: Id, id: Id, n: int)
    requires LedgerInv(l, next) && id in l.families
    ensures 1 <= n <= l.families[id].generation <==> HasGeneration(l, id, n)
    ensures forall g, h :: IsRow(l, g, id, n) && IsRow(l, h, id, n) ==> g == h
    ensures forall h :: IsRow(l, h, id, n) ==> (l.rows[h].usedAt.None? <==> n == l.families[id].generation)
  {
    if HasGeneration(l, id, n) {
      var h :| IsRow(l, h, id, n);
      assert RowOk(l, h);
    }
    forall h | IsRow(l, h, id, n)
      ensures l.rows[h].usedAt.None? <==> n == l.families[id].generation
    {
      assert RowOk(l, h) && FamilyOk(l, id);
    }
  }

  /** The two-stage lookup finds the family that a full scan of the rows finds. */
  lemma LookupIsScan(l: Ledger, next: Id, hash: Digest<Opaque>)
    requires LedgerInv(l, next)
    ensures FindFamilyByHash(l, hash) == OwnerOf(l, hash)
    ensures OwnerOf(l, hash).Some? ==> OwnerOf(l, hash).value in l.families
  {
    if id :| IsCurrent(l, id, hash) {
      forall j | IsCurrent(l, j, hash) ensures j == l.rows[hash].familyId {
        assert FamilyOk(l, j);
      }
    } else if hash in l.rows {
      assert RowOk(l, hash);
    }
  }

  // ---------------------------------------------------------------- preservation

  /** Same lines: the updates that only touch revocation columns. */
  ghost predicate SameLines(l: Ledger, m: Ledger) {
    && m.rows == l.rows && m.families.Keys == l.families.Keys
    && forall id :: id in l.families ==>
         m.families[id].currentTokenHash == l.families[id].currentTokenHash
         && m.families[id].generation == l.families[id].generation
  }

  lemma SameLinesKeep(l: Ledger, m: Ledger, next: Id)
    requires LedgerInv(l, next) && SameLines(l, m)
    ensures LedgerInv(m, next)
  {
    forall id | id in m.families ensures FamilyOk(m, id) { assert FamilyOk(l, id); }
    forall h | h in m.rows ensures RowOk(m, h) { assert RowOk(l, h); }
    forall id, n | id in m.families && 1 <= n <= m.families[id].generation ensures HasGeneration(m, id, n) {
      assert HasGeneration(l, id, n);
      var h :| IsRow(l, h, id, n);
      assert IsRow(m, h, id, n);
    }
  }

  lemma LaterNextKeeps(l: Ledger, next: Id, later: Id)
    requires LedgerInv(l, next) && next <= later
    ensures LedgerInv(l, later)
  {
  }

  lemma SaveFamilyKeepsRows(l: Ledger, next: Id, id: Id, f: Family, later: Id)
    requires FamiliesOk(l, next) && RowsOk(l, next) && next <= id < later && f.generation == 1
    requires next <= f.currentTokenHash.preimage.first < later && next <= f.currentTokenHash.preimage.second < later
    ensures f.currentTokenHash !in l.rows && id !in l.families
    ensures FamiliesOk(SaveFamily(l, id, f), later) && RowsOk(SaveFamily(l, id, f), later)
  {
    var m := SaveFamily(l, id, f);
    var hash := f.currentTokenHash;
    assert hash !in l.rows && id !in l.families;
    forall h | h in m.rows ensures RowOk(m, h) {
      if h != hash { assert RowOk(l, h); }
    }
    forall j | j in m.families ensures FamilyOk(m, j) {
      if j != id { assert FamilyOk(l, j); }
    }
  }

  lemma SaveFamilyKeepsGenerations(l: Ledger, id: Id, f: Family)
    requires AllGenerations(l) && f.generation == 1 && f.currentTokenHash !in l.rows && id !in l.families
    ensures AllGenerations(SaveFamily(l, id, f))
  {
    var m := SaveFamily(l, id, f);
    assert IsRow(m, f.currentTokenHash, id, 1);
    forall j, n | j in m.families && 1 <= n <= m.families[j].generation ensures HasGeneration(m, j, n) {
      if j != id {
        assert HasGeneration(l, j, n);
        var h :| IsRow(l, h, j, n);
        assert IsRow(m, h, j, n);
      }
    }
  }

  lemma SaveFamilyKeeps(l: Ledger, next: Id, id: Id, f: Family, later: Id)
    requires LedgerInv(l, next) && next <= id < later && f.generation == 1
    requires next <= f.currentTokenHash.preimage.first < later && next <= f.currentTokenHash.preimage.second < later
    ensures LedgerInv(SaveFamily(l, id, f), later)
  {
    hide AllGenerations, FamilyOk;
    SaveFamilyKeepsRows(l, next, id, f, later);
    SaveFamilyKeepsGenerations(l, id, f);
    forall h | h in l.rows ensures l.rows[h].familyId != id { assert RowOk(l, h); }
  }

  ghost predicate Rotated(l: Ledger, m: Ledger, id: Id, hash: Digest<Opaque>) {
    && id in l.families && m.families.Keys == l.families.Keys
    && (forall j :: j in l.families && j != id ==> m.families[j] == l.families[j])
    && m.families[id].generation == l.families[id].generation + 1 && m.families[id].currentTokenHash == hash
    && m.rows.Keys == l.rows.Keys + {hash}
    && IsRow(m, hash, id, l.families[id].generation + 1) && m.rows[hash].usedAt.None?
    && (forall h :: h in l.rows && h != hash ==>
          && m.rows[h].familyId == l.rows[h].familyId && m.rows[h].generation == l.rows[h].generation
          && (m.rows[h].usedAt.None? <==> l.rows[h].usedAt.None? && h != l.families[id].currentTokenHash))
  }

  lemma RotateIsRotated(l: Ledger, id: Id, hash: Digest<Opaque>, expiresAt: int, now: int)
    requires id in l.families && FamilyOk(l, id) && hash !in l.rows
    ensures Rotated(l, Rotate(l, id, hash, l.families[id].generation + 1, expiresAt, now), id, hash)
  {
  }

  lemma RotatedRows(l: Ledger, m: Ledger, next: Id, id: Id, hash: Digest<Opaque>, later: Id)
    requires FamiliesOk(l, next) && RowsOk(l, next) && Rotated(l, m, id, hash) && hash !in l.rows
    requires next <= later && hash.preimage.first < later && hash.preimage.second < later
    ensures FamiliesOk(m, later) && RowsOk(m, later)
  {
    assert FamilyOk(l, id);
    forall h | h in m.rows ensures h.preimage.first < later && h.preimage.second < later && RowOk(m, h) {
      if h != hash { assert RowOk(l, h); }
    }
    forall j | j in m.families ensures j < later && FamilyOk(m, j) {
      if j != id { assert FamilyOk(l, j); }
    }
  }

  lemma RotatedGenerations(l: Ledger, m: Ledger, id: Id, hash: Digest<Opaque>)
    requires AllGenerations(l) && Rotated(l, m, id, hash) && hash !in l.rows
    ensures AllGenerations(m)
  {
    forall j, n | j in m.families && 1 <= n <= m.families[j].generation ensures HasGeneration(m, j, n) {
      if j == id && n == m.families[id].generation {
        assert IsRow(m, hash, j, n);
      } else {
        assert HasGeneration(l, j, n);
        var h :| IsRow(l, h, j, n);
        assert IsRow(m, h, j, n);
      }
    }
  }

  lemma RotatedOneRowEach(l: Ledger, m: Ledger, next: Id, id: Id, hash: Digest<Opaque>)
    requires RowsOk(l, next) && OneRowEach(l) && Rotated(l, m, id, hash) && hash !in l.rows
    ensures OneRowEach(m)
  {
    forall h | h in l.rows
      ensures m.rows[h].familyId == l.rows[h].familyId && m.rows[h].generation == l.rows[h].generation
      ensures l.rows[h].familyId == id ==> l.rows[h].generation <= l.families[id].generation
    {
      assert RowOk(l, h);
    }
  }

  lemma RotateKeeps(l: Ledger, next: Id, id: Id, hash: Digest<Opaque>, expiresAt: int, now: int, later: Id)
    requires LedgerInv(l, next) && id in l.families && next <= later
    requires next <= hash.preimage.first < later && next <= hash.preimage.second < later
    ensures LedgerInv(Rotate(l, id, hash, l.families[id].generation + 1, expiresAt, now), later)
  {
    var m := Rotate(l, id, hash, l.families[id].generation + 1, expiresAt, now);
    assert hash !in l.rows && FamilyOk(l, id);
    RotateIsRotated(l, id, hash, expiresAt, now);
    RotatedRows(l, m, next, id, hash, later);
    RotatedGenerations(l, m, id, hash);
    RotatedOneRowEach(l, m, next, id, hash);
  }

  /** A rotation that writes a generation other than the next leaves two rows of one generation. */
  lemma StaleRotationDuplicates(l: Ledger, id: Id, hash: Digest<Opaque>, n: int, expiresAt: int, now: int)
    requires AllGenerations(l) && id in l.families && 1 <= n <= l.families[id].generation && hash !in l.rows
    ensures !OneRowEach(Rotate(l, id, hash, n, expiresAt, now))
  {
    assert HasGeneration(l, id, n);
    var h :| IsRow(l, h, id, n);
    var m := Rotate(l, id, hash, n, expiresAt, now);
    assert h in m.rows && hash in m.rows && h != hash && m.rows[h].generation == m.rows[hash].generation;
  }

  /**
   A rotation is computed from a family read before its transaction, and nothing compares the
   two. It keeps the ledger exactly when the family has not been rotated in between: so two
   concurrent refreshes of one token, both answered, end with two rows of one generation.
   */
  lemma RotationKeepsLedgerExactly(l: Ledger, next: Id, id: Id, hash: Digest<Opaque>, readGeneration: int, expiresAt: int, now: int,
                                   later: Id)
    requires LedgerInv(l, next) && id in l.families && next <= later && 1 <= readGeneration <= l.families[id].generation
    requires next <= hash.preimage.first < later && next <= hash.preimage.second < later
    ensures LedgerInv(Rotate(l, id, hash, readGeneration + 1, expiresAt, now), later)
            <==> readGeneration == l.families[id].generation
  {
    hide FamiliesOk, AllGenerations, Rotate, OneRowEach;
    FreshHashIsNew(l, next, hash);
    if readGeneration == l.families[id].generation {
      RotateKeeps(l, next, id, hash, expiresAt, now, later);
    } else {
      StaleRotationDuplicates(l, id, hash, readGeneration + 1, expiresAt, now);
    }
  }

  lemma FreshHashIsNew(l: Ledger, next: Id, hash: Digest<Opaque>)
    requires RowsOk(l, next) && next <= hash.preimage.first
    ensures hash !in l.rows
  {
  }

  // ---------------------------------------------------------------- what never goes back

  ghost predicate FamilyEvolves(f: Family, g: Family) {
    && g.clientId == f.clientId && g.userId == f.userId && g.consentId == f.consentId && g.scopes == f.scopes
    && f.generation <= g.generation
    && (f.revokedAt.Some? ==> g.revokedAt.Some?)
    && (f.reuseDetectedAt.Some? ==> g.reuseDetectedAt.Some?)
    && (IsFamilyRevoked(f) ==> g.currentTokenHash == f.currentTokenHash)
  }

  /** Families and rows are never deleted; owner, generation, use and revocation are never undone. */
  ghost predicate LedgerEvolves(l: Ledger, m: Ledger) {
    && (forall id :: id in l.families ==> id in m.families && FamilyEvolves(l.families[id], m.families[id]))
    && (forall h :: h in l.rows ==> h in m.rows && m.rows[h].familyId == l.rows[h].familyId
                                    && m.rows[h].generation == l.rows[h].generation
                                    && (l.rows[h].usedAt.Some? ==> m.rows[h].usedAt.Some?))
  }
}
