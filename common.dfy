/** Shared vocabulary of the backend: identifiers, optional values, the
    error taxonomy surfaced as HTTP statuses, and the fresh-id argument that
    stands in for ObjectId generation. */
module Common {

  /** A MongoDB ObjectId, abstracted to a natural number. Both user ids and
      design ids are of this kind; the string form `str(ObjectId)` is not
      modelled separately. */
  type Id = nat

  datatype Option<+T> = None | Some(value: T)

  /** The failures a route can raise, one per HTTP status it uses. */
  datatype Error =
    | BadRequest           // 400: username already registered
    | Unauthorized         // 401: bad credentials or no resolved session
    | Forbidden            // 403: role or ownership violation
    | NotFound             // 404: design id not in the store
    | UnprocessableEntity  // 422: request body fails validation

  /** The outcome of a route: a response value or the error it raised. */
  datatype Result<+T> = Success(value: T) | Failure(error: Error)

  /** A strict upper bound of a finite set of ids. */
  ghost function Bound(used: set<Id>): (b: Id)
    ensures forall k :: k in used ==> k < b
    decreases used
  {
    if used == {} then 0
    else
      var x :| x in used;
      var rest := Bound(used - {x});
      assert forall k :: k in used ==> k == x || k in used - {x};
      if x < rest then rest else x + 1
  }

  /** However many ids are in use, an unused one exists: this is what lets a
      route "generate a new ObjectId" by choosing any id not yet taken. */
  lemma FreshIdExists(used: set<Id>)
    ensures exists k: Id :: k !in used
  {
    var b := Bound(used);
    assert b !in used;
  }
}
