/** The claim set `GenerateJwtToken` puts into a token. Signing and serialisation are
    left out: a token here is the claim list it carries. */
module Tokens {
  import opened Common
  import opened Data

  datatype Claim = Claim(Type: string, Value: string)

  /** A signed token, known only by its claims. */
  datatype Jwt = Jwt(claims: seq<Claim>)

  /** The claim types, in the order the list is built. The first five are the registered
      JWT names `sub`, `unique_name`, `email`, `given_name` and `family_name`. */
  const ClaimTypes: seq<string> := [
    "sub", "unique_name", "email", "given_name", "family_name",
    "middle_name", "suffix", "address1", "address2", "city", "state", "postal_code",
    "time_zone", "opt_in_account_notices", "opt_in_product_notices"]

  /** `bool.ToString()`. */
  function BoolToString(b: bool): (s: string)
    ensures s == "True" <==> b
    ensures s == "False" <==> !b
  {
    if b then "True" else "False"
  }

  /** The inverse of `BoolToString`, used to state that the flag claims read back as the
      account's booleans; the controller itself never parses them. */
  function ParseBool(s: string): (r: Option<bool>)
    ensures r.Some? ==> BoolToString(r.value) == s
  {
    if s == "True" then Some(true) else if s == "False" then Some(false) else None
  }

  lemma ParseBoolToString(b: bool)
    ensures ParseBool(BoolToString(b)) == Some(b)
  {
  }

  /** A `Claim` throws on a null value, so the list can be built only when every string it
      reads is present. */
  predicate ClaimValuesPresent(u: ApplicationUser)
  {
    && u.UserName.Some? && u.Email.Some? && u.FirstName.Some? && u.LastName.Some?
    && u.MiddleName.Some? && u.Suffix.Some? && u.Address1.Some? && u.Address2.Some?
    && u.City.Some? && u.State.Some? && u.PostalCode.Some? && u.TimeZoneId.Some?
  }

  /** The claim list of `GenerateJwtToken`, or `None` where building it throws. */
  function UserClaims(u: ApplicationUser): (cs: Option<seq<Claim>>)
    ensures cs.Some? <==> ClaimValuesPresent(u)
    ensures cs.Some? ==> |cs.value| == |ClaimTypes| == 15
    ensures cs.Some? ==> forall i :: 0 <= i < |cs.value| ==> cs.value[i].Type == ClaimTypes[i]
  {
    if !ClaimValuesPresent(u) then None
    else Some([
      Claim("sub", u.Id),
      Claim("unique_name", u.UserName.value),
      Claim("email", u.Email.value),
      Claim("given_name", u.FirstName.value),
      Claim("family_name", u.LastName.value),
      Claim("middle_name", u.MiddleName.value),
      Claim("suffix", u.Suffix.value),
      Claim("address1", u.Address1.value),
      Claim("address2", u.Address2.value),
      Claim("city", u.City.value),
      Claim("state", u.State.value),
      Claim("postal_code", u.PostalCode.value),
      Claim("time_zone", u.TimeZoneId.value),
      Claim("opt_in_account_notices", BoolToString(u.OptInAccountNotices)),
      Claim("opt_in_product_notices", BoolToString(u.OptInProductNotices))])
  }

  /** `GenerateJwtToken`: a token over the user's claims, or `None` when it throws. */
  function GenerateJwtToken(u: ApplicationUser): (t: Option<Jwt>)
    ensures t.Some? <==> ClaimValuesPresent(u)
    ensures t.Some? ==> UserClaims(u) == Some(t.value.claims)
  {
    match UserClaims(u)
    case None => None
    case Some(cs) => Some(Jwt(cs))
  }

  /** `ClaimsPrincipal.FindFirstValue`: the value of the first claim of type `t`. The
      framework compares claim types ignoring case; the comparison here is exact, which
      gives the same answers on the token's fifteen distinct lower-case types. */
  function FindFirstValue(cs: seq<Claim>, t: string): Option<string>
  {
    if cs == [] then None
    else if cs[0].Type == t then Some(cs[0].Value)
    else FindFirstValue(cs[1..], t)
  }

  /** A value found is the value of some claim of that type, and nothing is found exactly
      when no claim has the type. */
  lemma {:induction false} FindFirstValueSound(cs: seq<Claim>, t: string)
    ensures FindFirstValue(cs, t).Some? ==>
      exists i :: 0 <= i < |cs| && cs[i].Type == t && cs[i].Value == FindFirstValue(cs, t).value
    ensures FindFirstValue(cs, t).None? <==> forall i :: 0 <= i < |cs| ==> cs[i].Type != t
  {
    if cs != [] && cs[0].Type != t {
      FindFirstValueSound(cs[1..], t);
      if FindFirstValue(cs, t).Some? {
        var i :| 0 <= i < |cs[1..]| && cs[1..][i].Type == t && cs[1..][i].Value == FindFirstValue(cs, t).value;
        assert cs[i + 1] == cs[1..][i];
      } else {
        forall i | 0 <= i < |cs| ensures cs[i].Type != t {
          if i > 0 {
            assert cs[i] == cs[1..][i - 1];
          }
        }
      }
    }
  }

  /** The first claim of a type is the one found. */
  lemma {:induction false} FindFirstValueAt(cs: seq<Claim>, t: string, i: nat)
    requires i < |cs| && cs[i].Type == t
    requires forall j :: 0 <= j < i ==> cs[j].Type != t
    ensures FindFirstValue(cs, t) == Some(cs[i].Value)
  {
    if i > 0 {
      FindFirstValueAt(cs[1..], t, i - 1);
    }
  }

  lemma ClaimTypesDistinct()
    ensures forall i, j :: 0 <= i < j < |ClaimTypes| ==> ClaimTypes[i] != ClaimTypes[j]
  {
  }

  /** Reading the token back by claim type gives the user's fields: the subject is the
      account id, the names and profile strings are the user's, and the two opt-in flags
      parse back to the user's booleans. */
  lemma {:induction false} ClaimsRoundTrip(u: ApplicationUser)
    requires ClaimValuesPresent(u)
    ensures
      var cs := UserClaims(u).value;
      && FindFirstValue(cs, "sub") == Some(u.Id)
      && FindFirstValue(cs, "unique_name") == u.UserName
      && FindFirstValue(cs, "email") == u.Email
      && FindFirstValue(cs, "given_name") == u.FirstName
      && FindFirstValue(cs, "family_name") == u.LastName
      && FindFirstValue(cs, "middle_name") == u.MiddleName
      && FindFirstValue(cs, "suffix") == u.Suffix
      && FindFirstValue(cs, "address1") == u.Address1
      && FindFirstValue(cs, "address2") == u.Address2
      && FindFirstValue(cs, "city") == u.City
      && FindFirstValue(cs, "state") == u.State
      && FindFirstValue(cs, "postal_code") == u.PostalCode
      && FindFirstValue(cs, "time_zone") == u.TimeZoneId
      && FindFirstValue(cs, "opt_in_account_notices").Some?
      && ParseBool(FindFirstValue(cs, "opt_in_account_notices").value) == Some(u.OptInAccountNotices)
      && FindFirstValue(cs, "opt_in_product_notices").Some?
      && ParseBool(FindFirstValue(cs, "opt_in_product_notices").value) == Some(u.OptInProductNotices)
  {
    var cs := UserClaims(u).value;
    ClaimTypesDistinct();
    forall i | 0 <= i < 15 ensures FindFirstValue(cs, ClaimTypes[i]) == Some(cs[i].Value) {
      FindFirstValueAt(cs, ClaimTypes[i], i);
    }
    // Each claim type named in the postcondition, at its position.
    assert FindFirstValue(cs, ClaimTypes[2]) == Some(cs[2].Value);
    assert FindFirstValue(cs, ClaimTypes[3]) == Some(cs[3].Value);
    assert FindFirstValue(cs, ClaimTypes[4]) == Some(cs[4].Value);
    assert FindFirstValue(cs, ClaimTypes[5]) == Some(cs[5].Value);
    assert FindFirstValue(cs, ClaimTypes[6]) == Some(cs[6].Value);
    assert FindFirstValue(cs, ClaimTypes[7]) == Some(cs[7].Value);
    assert FindFirstValue(cs, ClaimTypes[8]) == Some(cs[8].Value);
    assert FindFirstValue(cs, ClaimTypes[9]) == Some(cs[9].Value);
    assert FindFirstValue(cs, ClaimTypes[10]) == Some(cs[10].Value);
    assert FindFirstValue(cs, ClaimTypes[11]) == Some(cs[11].Value);
    assert FindFirstValue(cs, ClaimTypes[12]) == Some(cs[12].Value);
    assert FindFirstValue(cs, ClaimTypes[13]) == Some(cs[13].Value);
    assert FindFirstValue(cs, ClaimTypes[14]) == Some(cs[14].Value);
    ParseBoolToString(u.OptInAccountNotices);
    ParseBoolToString(u.OptInProductNotices);
  }
}
