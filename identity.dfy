/** Reading the identity from the decoded identity-token claims: the
    mandatory subject and the best-effort e-mail with its fallbacks. */
module Identity {
  import opened Stores

  datatype Option<T> = None | Some(value: T)

  /** `claims[key].(string)`: the claim's text when it is present and a
      string; absent and non-string claims are alike. */
  function StringClaim(claims: Claims, key: string): (r: Option<string>)
    ensures r.Some? <==> key in claims && claims[key].Str?
    ensures r.Some? ==> claims[key] == Str(r.value)
  {
    if key in claims && claims[key].Str? then Some(claims[key].s) else None
  }

  /** The subject identifier, the one claim that must be there. */
  function Subject(claims: Claims): (r: Option<string>)
    ensures r.Some? <==> "sub" in claims && claims["sub"].Str?
    ensures r.Some? ==> claims["sub"] == Str(r.value)
  {
    StringClaim(claims, "sub")
  }

  /** The e-mail stored for a new user: the "email" claim, else the "name"
      claim, else the subject identifier itself. Never fails, and a string
      "email" claim wins even when it is empty. */
  function ChosenEmail(claims: Claims, sub: string): (e: string)
    ensures e == sub || ("email" in claims && claims["email"] == Str(e)) || ("name" in claims && claims["name"] == Str(e))
    ensures StringClaim(claims, "email").Some? ==> e == claims["email"].s
    ensures StringClaim(claims, "email").None? && StringClaim(claims, "name").Some? ==> e == claims["name"].s
    ensures StringClaim(claims, "email").None? && StringClaim(claims, "name").None? ==> e == sub
  {
    match StringClaim(claims, "email")
    case Some(email) => email
    case None =>
      match StringClaim(claims, "name")
      case Some(name) => name
      case None => sub
  }

  /** Reference definition of a fallback chain: the first key in `keys`
      whose claim is a string. */
  function FirstStringClaim(claims: Claims, keys: seq<string>): (r: Option<string>)
    ensures r.Some? ==> (exists i ::
      && 0 <= i < |keys| && StringClaim(claims, keys[i]) == r
      && forall j :: 0 <= j < i ==> StringClaim(claims, keys[j]).None?)
    ensures r.None? ==> forall i :: 0 <= i < |keys| ==> StringClaim(claims, keys[i]).None?
  {
    if keys == [] then None
    else match StringClaim(claims, keys[0])
      case Some(v) => Some(v)
      case None =>
        var rest := FirstStringClaim(claims, keys[1..]);
        assert rest.Some? ==> (exists i ::
          && 0 <= i < |keys| && StringClaim(claims, keys[i]) == rest
          && forall j :: 0 <= j < i ==> StringClaim(claims, keys[j]).None?) by {
          if rest.Some? {
            var k :| && 0 <= k < |keys[1..]| && StringClaim(claims, keys[1..][k]) == rest
                     && forall j :: 0 <= j < k ==> StringClaim(claims, keys[1..][j]).None?;
            assert StringClaim(claims, keys[1 + k]) == rest;
            forall j | 0 <= j < 1 + k ensures StringClaim(claims, keys[j]).None? {
              if j > 0 { assert keys[j] == keys[1..][j - 1]; }
            }
          }
        }
        rest
  }

  /** The e-mail fallback is the chain "email", "name", "sub": whenever the
      subject is a string claim, the chosen e-mail is the first of those
      three claims that is a string. */
  lemma EmailFallbackChain(claims: Claims, sub: string)
    requires Subject(claims) == Some(sub)
    ensures FirstStringClaim(claims, ["email", "name", "sub"]) == Some(ChosenEmail(claims, sub))
  {
    var keys := ["email", "name", "sub"];
    assert keys[1..] == ["name", "sub"] && keys[1..][1..] == ["sub"] && keys[1..][1..][1..] == [];
    assert FirstStringClaim(claims, ["sub"]) == Some(sub);
    assert FirstStringClaim(claims, ["name", "sub"]) ==
      if StringClaim(claims, "name").Some? then StringClaim(claims, "name") else Some(sub);
  }
}
