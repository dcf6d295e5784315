/** Demo user provisioning: the user row and its opening ledger entry appear together or not at all. */
module Users {
  import opened Schema

  const DEMO_INITIAL_POINTS := 1200

  const NEW_USER := User(DEMO_INITIAL_POINTS, false, "Asia/Taipei", "", "")

  const OPENING := Entry(None, DEMO_INITIAL_POINTS, DEMO_INITIAL_POINTS, DemoInitialBalance)

  /** INSERT ... ON CONFLICT DO NOTHING RETURNING, feeding the ledger insert; None is an invalid hash. */
  function EnsureDemoUserTx(t: Tables, u: Hash): (r: Option<Tables>)
    ensures r.Some? <==> ValidUserHash(u)
    ensures r.Some? ==> u in r.value.users
  {
    if !ValidUserHash(u) then None
    else if u in t.users then Some(t)
    else Some(t.(users := t.users[u := NEW_USER], ledger := t.ledger[u := Entries(t.ledger, u) + [OPENING]]))
  }

  /** A new user starts with 1200 points and the ledger entry that accounts for them; provisioning
      again, and everyone else, changes nothing. */
  lemma ProvisionedOnce(t: Tables, u: Hash)
    requires ValidUserHash(u)
    ensures var t' := EnsureDemoUserTx(t, u).value;
      && EnsureDemoUserTx(t', u) == Some(t')
      && (u !in t.users ==>
        && t'.users == t.users[u := User(1200, false, "Asia/Taipei", "", "")]
        && Entries(t'.ledger, u) == Entries(t.ledger, u) + [Entry(None, 1200, 1200, DemoInitialBalance)])
      && (u in t.users ==> t' == t)
      && (forall v | v != u :: (v in t'.users <==> v in t.users) && Entries(t'.ledger, v) == Entries(t.ledger, v))
      && (forall v | v in t.users :: t'.users[v] == t.users[v])
  {
    if u !in t.users {
      var t' := EnsureDemoUserTx(t, u).value;
      assert t'.users == t.users[u := NEW_USER] && t'.ledger == t.ledger[u := Entries(t.ledger, u) + [OPENING]];
    }
  }
}
