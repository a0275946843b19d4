/** The in-memory claim table: which row a claimed UID belongs to, readable once. */
module Claims {
  import opened Wrappers
  import opened Tables
  import opened Store

  class ClaimTable {
    var claims: map<(Id, Uid), PendingBody>

    constructor ()
      ensures claims == map[]
    {
      claims := map[];
    }

    /** The rows one mailbox's UIDs stand for. */
    ghost function Of(mailbox: Id): map<Uid, Id>
      reads this
    {
      RowsFor(claims, mailbox)
    }

    /** A later claim of the same UID replaces an earlier one. */
    method Remember(mailbox: Id, byUid: map<Uid, PendingBody>)
      modifies this
      ensures claims == old(claims) + Keyed(mailbox, byUid)
      ensures Of(mailbox) == old(Of(mailbox)) + RowsByUid(byUid)
    {
      var rest := byUid;
      assert Keyed(mailbox, byUid - rest.Keys) == map[];
      hide Keyed, RowsFor;
      while rest.Keys != {}
        invariant rest.Keys <= byUid.Keys && forall u | u in rest :: rest[u] == byUid[u]
        invariant claims == old(claims) + Keyed(mailbox, byUid - rest.Keys)
        decreases |rest.Keys|
      {
        var u :| u in rest.Keys;
        RememberOne(mailbox, old(claims), byUid, rest, u);
        claims := claims[(mailbox, u) := rest[u]];
        rest := rest - {u};
      }
      assert byUid - rest.Keys == byUid;
      RememberedRows(mailbox, old(claims), byUid);
    }

    /** Returns and removes a claim, so no UID is processed twice. */
    method Take(mailbox: Id, uid: Uid) returns (claim: Option<PendingBody>)
      modifies this
      ensures claim.Some? <==> (mailbox, uid) in old(claims)
      ensures claim.Some? ==> claim.value == old(claims)[(mailbox, uid)]
      ensures claims == old(claims) - {(mailbox, uid)}
      ensures uid in old(Of(mailbox)) <==> claim.Some?
      ensures claim.Some? ==> claim.value.row == old(Of(mailbox))[uid]
      ensures Of(mailbox) == old(Of(mailbox)) - {uid}
    {
      var key := (mailbox, uid);
      claim := None;
      if key in claims {
        claim := Some(claims[key]);
        claims := claims - {key};
      }
    }
  }

  ghost function Keyed(mailbox: Id, byUid: map<Uid, PendingBody>): map<(Id, Uid), PendingBody> {
    map u | u in byUid :: (mailbox, u) := byUid[u]
  }

  /** The rows that one mailbox's keys of a claim map stand for. */
  ghost function RowsFor(claims: map<(Id, Uid), PendingBody>, mailbox: Id): map<Uid, Id> {
    map k | k in claims && k.0 == mailbox :: k.1 := claims[k].row
  }

  lemma KeyedAt(mailbox: Id, byUid: map<Uid, PendingBody>, u: Uid)
    ensures (mailbox, u) in Keyed(mailbox, byUid) <==> u in byUid
    ensures u in byUid ==> Keyed(mailbox, byUid)[(mailbox, u)] == byUid[u]
  {
  }

  lemma RowsForAt(claims: map<(Id, Uid), PendingBody>, mailbox: Id, u: Uid)
    ensures u in RowsFor(claims, mailbox) <==> (mailbox, u) in claims
    ensures u in RowsFor(claims, mailbox) ==> RowsFor(claims, mailbox)[u] == claims[(mailbox, u)].row
  {
    var k := (mailbox, u);
    assert k in claims ==> k.1 in RowsFor(claims, mailbox);
  }

  lemma RememberedRows(mailbox: Id, claims: map<(Id, Uid), PendingBody>, byUid: map<Uid, PendingBody>)
    ensures RowsFor(claims + Keyed(mailbox, byUid), mailbox) == RowsFor(claims, mailbox) + RowsByUid(byUid)
  {
    var keyed := Keyed(mailbox, byUid);
    var rows, sum := RowsFor(claims + keyed, mailbox), RowsFor(claims, mailbox) + RowsByUid(byUid);
    hide RowsFor, Keyed;
    forall u: Uid
      ensures u in rows <==> u in sum
      ensures u in rows ==> rows[u] == sum[u]
    {
      KeyedAt(mailbox, byUid, u);
      RowsForAt(claims, mailbox, u);
      RowsForAt(claims + keyed, mailbox, u);
    }
  }

  lemma RememberOne(mailbox: Id, claims: map<(Id, Uid), PendingBody>, byUid: map<Uid, PendingBody>,
                    rest: map<Uid, PendingBody>, u: Uid)
    requires rest.Keys <= byUid.Keys && (forall v | v in rest :: rest[v] == byUid[v]) && u in rest
    ensures (claims + Keyed(mailbox, byUid - rest.Keys))[(mailbox, u) := rest[u]]
            == claims + Keyed(mailbox, byUid - (rest - {u}).Keys)
  {
    var before, after := byUid - rest.Keys, byUid - (rest - {u}).Keys;
    assert after == before[u := rest[u]];
    assert Keyed(mailbox, after) == Keyed(mailbox, before)[(mailbox, u) := rest[u]];
  }

  ghost function RowsByUid(byUid: map<Uid, PendingBody>): map<Uid, Id> {
    map u | u in byUid :: byUid[u].row
  }
}
