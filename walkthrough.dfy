/** A client of the route contracts: one designer's session from signup to
    deletion, with a customer alongside, proved from the contracts alone.
    The token layer is played by a concrete, unsigned encoding of the
    claims, which shows that the hypotheses of `LoginThenMe` can be met. */
module Walkthrough {
  import opened Common
  import opened UserModel
  import opened DesignModel
  import opened DesignRoutes
  import opened AuthRoutes

  /** A stand-in token: the role's initial followed by the username. */
  function SampleToken(c: TokenClaims): string
  {
    [if c.role == Designer then 'd' else 'c'] + c.sub
  }

  /** Reads a stand-in token back into its claims. */
  function SampleVerify(token: string): Option<TokenClaims>
  {
    if |token| == 0 then None
    else if token[0] == 'd' then Some(TokenClaims(token[1..], Designer))
    else if token[0] == 'c' then Some(TokenClaims(token[1..], Customer))
    else None
  }

  lemma SampleTokenRoundTrip(c: TokenClaims)
    ensures SampleVerify(SampleToken(c)) == Some(c)
  {
  }

  /** The credential check over a users table and a hasher. */
  function SampleAuthenticate(users: map<string, UserInDB>, hash: string -> string): (string, string) -> Option<UserInDB>
  {
    (username: string, password: string) =>
      if username in users && users[username].passwordHash == hash(password)
      then Some(users[username]) else None
  }

  method DesignerSession(hash: string -> string)
  {
    var users := new UserTable();
    var alice := users.Signup(UserCreate("alice", "Alice", Designer, "pw1"), hash);
    assert alice.Success?;
    var again := users.Signup(UserCreate("alice", "Someone Else", Customer, "pw2"), hash);
    assert again == Failure(BadRequest);
    var bob := users.Signup(UserCreate("bob", "Bob", Customer, "pw3"), hash);
    assert bob.Success? && bob.value.id != alice.value.id;

    // Alice logs in; her cookie resolves to her on /me and lets her log out.
    var authenticate := SampleAuthenticate(users.users, hash);
    var stranger := Login(LoginForm("carol", "pw1"), authenticate, SampleToken);
    assert stranger == Failure(Unauthorized);
    var login := Login(LoginForm("alice", "pw1"), authenticate, SampleToken);
    forall c | true ensures SampleVerify(SampleToken(c)) == Some(c) {
      SampleTokenRoundTrip(c);
    }
    LoginThenMe(LoginForm("alice", "pw1"), authenticate, SampleToken, SampleVerify, users.users);
    var session := Resolve(Some(login.value.cookie.value), SampleVerify, users.users);
    assert Me(session) == Success(alice.value);
    assert Logout(session).Success?;
    assert Me(Resolve(None, SampleVerify, users.users)) == Failure(Unauthorized);

    var store := new DesignStore();
    var refused := store.Create(bob.value, DesignCreate("Chair", map[]));
    assert refused == Failure(Forbidden) && store.designs == map[];

    var created := store.Create(alice.value, DesignCreate("Table", map[]));
    var table := created.value;
    assert table.ownerId == alice.value.id && table.name == "Table";

    // Listing everything works for the customer too and includes the table.
    var all := store.ListAll(bob.value);
    assert table in all;
    // Alice's own designs are exactly the table.
    var own := store.ListOwn(alice.value);
    assert own.Success? && table in own.value;
    assert forall d :: d in own.value ==> d == table;
    var customerOwn := store.ListOwn(bob.value);
    assert customerOwn == Failure(Forbidden);

    var renamed := store.Update(alice.value, table.id, DesignUpdate(Some("Big Table"), None));
    assert renamed == Success(Design(table.id, alice.value.id, "Big Table", table.data));
    var untouched := store.Update(alice.value, table.id, DesignUpdate(None, None));
    assert untouched == renamed;

    var stolen := store.Delete(bob.value, table.id);
    assert stolen == Failure(Forbidden);
    var deleted := store.Delete(alice.value, table.id);
    assert deleted.Success?;
    var twice := store.Delete(alice.value, table.id);
    assert twice == Failure(NotFound);

    var after := store.ListOwn(alice.value);
    assert after.Success? && forall d :: d in after.value ==> d.id != table.id;
  }
}
