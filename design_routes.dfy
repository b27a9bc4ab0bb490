/** The design routes: listing, creating, partially updating and deleting
    designs, behind the designer-role and ownership checks. The designs
    collection is a map from design id to the stored document, held by a
    `DesignStore` object whose methods are the routes. */
module DesignRoutes {
  import opened Common
  import opened UserModel
  import opened DesignModel

  /** A design document as the collection holds it under its id. */
  datatype DesignDoc = DesignDoc(ownerId: Id, name: string, data: Data)

  /** The design a route returns for the document stored under `id`. */
  function View(id: Id, doc: DesignDoc): Design
  {
    Design(id, doc.ownerId, doc.name, doc.data)
  }

  /** The document a returned design was read from. */
  function Doc(d: Design): DesignDoc
  {
    DesignDoc(d.ownerId, d.name, d.data)
  }

  /** `d` is, field for field, a design stored in `m`. */
  ghost predicate IsStored(m: map<Id, DesignDoc>, d: Design)
  {
    d.id in m && m[d.id] == Doc(d)
  }

  /** The two queries the routes put to the collection: everything, or the
      documents of one owner. */
  datatype Query = All | ByOwner(ownerId: Id)

  predicate Matches(q: Query, d: Design)
  {
    q.ByOwner? ==> d.ownerId == q.ownerId
  }

  /** No design is listed twice. */
  predicate Distinct(r: seq<Design>)
  {
    forall i, j :: 0 <= i < j < |r| ==> r[i].id != r[j].id
  }

  // ---------------------------------------------------------------------
  // Partial update
  // ---------------------------------------------------------------------

  /** The fields an update body sets. */
  datatype Field = NameField | DataField

  /** The keys of the `$set` document built from an update body: exactly the
      fields that were supplied (not None). */
  function Supplied(patch: DesignUpdate): (fs: set<Field>)
    ensures NameField in fs <==> patch.name.Some?
    ensures DataField in fs <==> patch.data.Some?
    ensures fs == {} <==> patch == DesignUpdate(None, None)
  {
    (if patch.name.Some? then {NameField} else {})
      + (if patch.data.Some? then {DataField} else {})
  }

  /** The effect of `$set` with the supplied fields on a stored document:
      each supplied field is overwritten, every other field is kept, and the
      owner is never touched. */
  function Apply(doc: DesignDoc, patch: DesignUpdate): (r: DesignDoc)
    ensures r.ownerId == doc.ownerId
    ensures NameField in Supplied(patch) ==> r.name == patch.name.value
    ensures NameField !in Supplied(patch) ==> r.name == doc.name
    ensures DataField in Supplied(patch) ==> r.data == patch.data.value
    ensures DataField !in Supplied(patch) ==> r.data == doc.data
  {
    DesignDoc(
      doc.ownerId,
      if patch.name.Some? then patch.name.value else doc.name,
      if patch.data.Some? then patch.data.value else doc.data)
  }

  /** An update that supplies nothing changes nothing, so skipping the
      write when the `$set` document is empty loses nothing. */
  lemma ApplyNothingSupplied(doc: DesignDoc, patch: DesignUpdate)
    requires Supplied(patch) == {}
    ensures Apply(doc, patch) == doc
  {
  }

  /** Repeating an update has no further effect. */
  lemma ApplyIdempotent(doc: DesignDoc, patch: DesignUpdate)
    ensures Apply(Apply(doc, patch), patch) == Apply(doc, patch)
  {
  }

  /** Two updates in a row act as one update in which, field by field, the
      later supplied value wins. */
  function Merge(first: DesignUpdate, second: DesignUpdate): (m: DesignUpdate)
    ensures Supplied(m) == Supplied(first) + Supplied(second)
  {
    DesignUpdate(
      if second.name.Some? then second.name else first.name,
      if second.data.Some? then second.data else first.data)
  }

  lemma ApplyMerge(doc: DesignDoc, first: DesignUpdate, second: DesignUpdate)
    ensures Apply(Apply(doc, first), second) == Apply(doc, Merge(first, second))
  {
  }

  // ---------------------------------------------------------------------
  // Access policy for update and delete
  // ---------------------------------------------------------------------

  /** The checks update and delete make before touching the store, in the
      order they make them: the caller's role (403), then the existence of
      the design (404), then its ownership (403). None means the call may
      proceed. */
  function Gate(caller: User, m: map<Id, DesignDoc>, id: Id): (e: Option<Error>)
    ensures e.None? <==> caller.role == Designer && id in m && m[id].ownerId == caller.id
    ensures caller.role != Designer ==> e == Some(Forbidden)
    ensures caller.role == Designer && id !in m ==> e == Some(NotFound)
    ensures id in m && m[id].ownerId != caller.id ==> e == Some(Forbidden)
  {
    if caller.role != Designer then Some(Forbidden)
    else if id !in m then Some(NotFound)
    else if m[id].ownerId != caller.id then Some(Forbidden)
    else None
  }

  /** The role check runs before any lookup: a non-designer gets the same
      answer whatever the store holds and whatever id it names. */
  lemma GateRoleFirst(caller: User, m1: map<Id, DesignDoc>, id1: Id, m2: map<Id, DesignDoc>, id2: Id)
    requires caller.role != Designer
    ensures Gate(caller, m1, id1) == Gate(caller, m2, id2) == Some(Forbidden)
  {
  }

  /** The existence check runs before the ownership check: for a missing
      design every designer gets NotFound, owner or not. */
  lemma GateMissingIgnoresOwner(c1: User, c2: User, m: map<Id, DesignDoc>, id: Id)
    requires c1.role == Designer && c2.role == Designer && id !in m
    ensures Gate(c1, m, id) == Gate(c2, m, id) == Some(NotFound)
  {
  }

  // ---------------------------------------------------------------------
  // The designs collection and its routes
  // ---------------------------------------------------------------------

  class DesignStore {
    /** The designs collection, keyed by design id. */
    var designs: map<Id, DesignDoc>

    constructor ()
      ensures designs == map[]
    {
      designs := map[];
    }

    /** `designs_collection.find(query)`, read in whatever order the cursor
        yields: every matching stored design exactly once. */
    method Find(query: Query) returns (r: seq<Design>)
      ensures Distinct(r)
      ensures forall d :: d in r <==> IsStored(designs, d) && Matches(query, d)
    {
      r := [];
      var pending := designs.Keys;
      while pending != {}
        invariant pending <= designs.Keys
        invariant Distinct(r)
        invariant forall i :: 0 <= i < |r| ==> r[i].id !in pending
        invariant forall d :: d in r <==> IsStored(designs, d) && Matches(query, d) && d.id !in pending
        decreases pending
      {
        var id :| id in pending;
        var d := View(id, designs[id]);
        if Matches(query, d) {
          r := r + [d];
        }
        pending := pending - {id};
      }
    }

    /** GET /getAllDesigns: every stored design, for a caller of any role. */
    method ListAll(caller: User) returns (r: seq<Design>)
      ensures Distinct(r)
      ensures forall d :: d in r <==> IsStored(designs, d)
    {
      r := Find(All);
    }

    /** GET /getUserDesigns: a non-designer is refused; a designer gets
        exactly the stored designs they own. */
    method ListOwn(caller: User) returns (r: Result<seq<Design>>)
      ensures caller.role != Designer ==> r == Failure(Forbidden)
      ensures caller.role == Designer ==> r.Success? && Distinct(r.value)
      ensures caller.role == Designer ==>
                forall d :: d in r.value <==> IsStored(designs, d) && d.ownerId == caller.id
    {
      if caller.role != Designer {
        return Failure(Forbidden);
      }
      var found := Find(ByOwner(caller.id));
      r := Success(found);
    }

    /** POST /createDesign: a non-designer is refused and nothing is stored;
        a designer gets a new design under a fresh id, owned by the caller,
        with the requested name and data, and that design is what is stored
        under the new id while every other entry stays as it was. */
    method Create(caller: User, body: DesignCreate) returns (r: Result<Design>)
      modifies this
      ensures caller.role != Designer ==> r == Failure(Forbidden) && designs == old(designs)
      ensures caller.role == Designer ==> r.Success? && r.value.id !in old(designs)
      ensures caller.role == Designer ==>
                r.value.ownerId == caller.id && r.value.name == body.name && r.value.data == body.data
      ensures r.Success? ==> designs == old(designs)[r.value.id := Doc(r.value)]
    {
      if caller.role != Designer {
        return Failure(Forbidden);
      }
      FreshIdExists(designs.Keys);
      var id: Id :| id !in designs.Keys;
      var doc := DesignDoc(caller.id, body.name, body.data);
      designs := designs[id := doc];
      r := Success(View(id, doc));
    }

    /** PUT /updateDesign/{id}: when Gate refuses, its error is returned and
        the store is untouched; otherwise the supplied fields are written to
        that one design (nothing is written when none are supplied) and the
        full updated design is returned, with its id and owner unchanged. */
    method Update(caller: User, id: Id, patch: DesignUpdate) returns (r: Result<Design>)
      modifies this
      ensures r.Failure? <==> Gate(caller, old(designs), id).Some?
      ensures r.Failure? ==> Some(r.error) == Gate(caller, old(designs), id) && designs == old(designs)
      ensures r.Success? ==> designs == old(designs)[id := Apply(old(designs)[id], patch)]
      ensures r.Success? ==> r.value == View(id, designs[id])
      ensures r.Success? ==> r.value.id == id && r.value.ownerId == caller.id == old(designs)[id].ownerId
      ensures Supplied(patch) == {} ==> designs == old(designs)
    {
      if caller.role != Designer {
        return Failure(Forbidden);
      }
      if id !in designs {
        return Failure(NotFound);
      }
      if designs[id].ownerId != caller.id {
        return Failure(Forbidden);
      }
      if Supplied(patch) != {} {
        designs := designs[id := Apply(designs[id], patch)];
      } else {
        ApplyNothingSupplied(designs[id], patch);
      }
      r := Success(View(id, designs[id]));
    }

    /** DELETE /deleteDesign/{id}: when Gate refuses, its error is returned
        and the store is untouched; otherwise exactly that design is removed
        and every other design stays as it was. */
    method Delete(caller: User, id: Id) returns (r: Result<()>)
      modifies this
      ensures r.Failure? <==> Gate(caller, old(designs), id).Some?
      ensures r.Failure? ==> Some(r.error) == Gate(caller, old(designs), id) && designs == old(designs)
      ensures r.Success? ==> designs == old(designs) - {id} && id in old(designs)
    {
      if caller.role != Designer {
        return Failure(Forbidden);
      }
      if id !in designs {
        return Failure(NotFound);
      }
      if designs[id].ownerId != caller.id {
        return Failure(Forbidden);
      }
      designs := designs - {id};
      r := Success(());
    }
  }
}
