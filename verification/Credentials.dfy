/** The credential database: rows, reading, and the compare-and-store of a refresh. */
module Credentials {
  import opened Base

  // The credential store ----------------------------------------------------

  type Provider = string

  datatype Expiry = At(time: real) | NotFinite

  /** A stored row. `Garbage` is any text that decodes to no credential. */
  datatype Credential =
    | Oauth(access: string, refresh: string, expires: Expiry, account: Option<string>)
    | ApiKey(key: Option<string>, environment: Option<map<string, string>>)
    | Garbage

  type Rows = map<Provider, Credential>

  datatype Reading = Absent | Present(credential: Credential) | Throws

  predicate Decodes(credential: Credential) {
    match credential
    case Oauth(access, refresh, expires, _) => access != "" && refresh != "" && expires.At?
    case ApiKey(_, _) => true
    case Garbage => false
  }

  function Lookup(rows: Rows, provider: Provider): Reading {
    if provider !in rows then Absent
    else if Decodes(rows[provider]) then Present(rows[provider])
    else Throws
  }

  /** Access, refresh, expiry and account all agree. */
  predicate SameOauth(left: Credential, right: Credential)
    requires left.Oauth? && right.Oauth?
    ensures SameOauth(left, right) <==> left == right
  {
    left.access == right.access && left.refresh == right.refresh && left.expires == right.expires
    && left.account == right.account
  }

  /** What a refresh stores, what its call returns, and whether it wrote. */
  function Stored(rows: Rows, provider: Provider, snapshot: Credential, next: Credential): (stored: (Rows, Reading, bool))
    requires snapshot.Oauth?
    ensures stored.2 ==> provider in rows && rows[provider] == snapshot && stored.0 == rows[provider := next]
    ensures !stored.2 ==> stored.0 == rows && stored.1 == Lookup(rows, provider)
    ensures stored.0.Keys == rows.Keys
  {
    match Lookup(rows, provider)
    case Present(Oauth(access, refresh, expires, account)) =>
      if SameOauth(rows[provider], snapshot) then (rows[provider := next], Present(next), true)
      else (rows, Lookup(rows, provider), false)
    case _ => (rows, Lookup(rows, provider), false)
  }

  class CredentialStore {
    var rows: Rows

    constructor ()
      ensures rows == map[]
    {
      rows := map[];
    }

    method Read(provider: Provider) returns (reading: Reading)
      ensures reading == Lookup(rows, provider)
    {
      if provider !in rows {
        return Absent;
      }
      if !Decodes(rows[provider]) {
        return Throws;
      }
      return Present(rows[provider]);
    }

    method Write(provider: Provider, credential: Credential)
      modifies this
      ensures rows == old(rows)[provider := credential]
    {
      rows := rows[provider := credential];
    }

    method Delete(provider: Provider)
      modifies this
      ensures rows == old(rows) - {provider}
    {
      rows := rows - {provider};
    }

    /** One transaction: a refresh has authority only over the snapshot it read. */
    method StoreIfUnchanged(provider: Provider, snapshot: Credential, next: Credential) returns (reading: Reading, wrote: bool)
      requires snapshot.Oauth?
      modifies this
      ensures (rows, reading, wrote) == Stored(old(rows), provider, snapshot, next)
    {
      reading := Read(provider);
      if reading.Present? && reading.credential.Oauth? && SameOauth(reading.credential, snapshot) {
        Write(provider, next);
        return Present(next), true;
      }
      wrote := false;
    }
  }
}
