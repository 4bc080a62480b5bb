/** The registered positions and the reviewed evidence that history commands cite. */
module Register {
  import opened Common

  datatype Holding = Holding(id: string, familyId: string, entityId: string, accountId: string)

  datatype Evidence = Evidence(id: string, holdingId: string, familyId: string, accepted: bool, synthetic: bool,
                               documentId: Option<string>)

  datatype Entity = Entity(id: string, familyId: string)

  datatype Account = Account(id: string, entityId: string, familyId: string)

  datatype Office = Office(holdings: seq<Holding>, evidence: seq<Evidence>, entities: seq<Entity>,
                           accounts: seq<Account>)

  /** Who records, under which identifier, when (absent: not a time), and whether the digest is usable. */
  datatype Meta = Meta(id: Option<int>, actorId: string, at: Option<int>, digestOk: bool)

  function FindHolding(holdings: seq<Holding>, id: string): (r: Option<Holding>)
    ensures r.Some? ==> r.value in holdings && r.value.id == id
    ensures r.None? <==> forall h :: h in holdings ==> h.id != id
  {
    if |holdings| == 0 then None
    else if holdings[0].id == id then Some(holdings[0])
    else FindHolding(holdings[1..], id)
  }

  /** Accepted, retained, non-synthetic evidence about this very position. */
  predicate Supports(e: Evidence, sourceId: string, h: Holding) {
    && e.id == sourceId && e.holdingId == h.id && e.familyId == h.familyId
    && e.accepted && !e.synthetic && e.documentId.Some?
  }

  predicate HasSource(office: Office, sourceId: string, h: Holding) {
    exists e :: e in office.evidence && Supports(e, sourceId, h)
  }
}
