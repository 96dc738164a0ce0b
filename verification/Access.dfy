/**
 Who may do what: group matching with wildcards (au10/group.go), the user table with its tokens
 (au10/users.go), and the request clients of the access point that rest on both
 (accesspoint/lib/service.go, accesspoint/lib/client.go).
 */
module Access {
  import opened Options
  import opened Words

  // ---------------------------------------------------------------- groups

  datatype Group = Group(domain: string, name: string)

  predicate IsItemAvailable(membership: string, rights: string) {
    membership == "*" || rights == "*" || membership == rights
  }

  predicate Covers(right: Group, membership: Group) {
    IsItemAvailable(membership.name, right.name) && IsItemAvailable(membership.domain, right.domain)
  }

  /** A scan that ends at the first right that covers the membership. */
  function IsAllowed(membership: Group, rights: seq<Group>): (r: bool)
    ensures r <==>
      || membership == Group("*", "*")
      || exists i :: 0 <= i < |rights|
                  && (membership.name == "*" || rights[i].name == "*" || membership.name == rights[i].name)
                  && (membership.domain == "*" || rights[i].domain == "*" || membership.domain == rights[i].domain)
  {
    if membership.name == "*" && membership.domain == "*" then true
    else if rights == [] then false
    else if !IsItemAvailable(membership.name, rights[0].name) then IsAllowed(membership, rights[1..])
    else if !IsItemAvailable(membership.domain, rights[0].domain) then IsAllowed(membership, rights[1..])
    else true
  }

  // ---------------------------------------------------------------- users

  datatype User = User(id: Word, login: string, rights: seq<Group>)

  type UserTable = map<string, User>

  /** Every user sits under its own login. */
  ghost predicate Keyed(users: UserTable) {
    forall login | login in users :: users[login].login == login
  }

  const TOKEN_PREFIX := "token: "

  /** The user and token for a login that is known. */
  function Authenticate(users: UserTable, login: string): Option<(User, string)> {
    if login in users then Some((users[login], TOKEN_PREFIX + users[login].login)) else None
  }

  function FindSession(users: UserTable, token: string): Option<User> {
    if !(TOKEN_PREFIX <= token) then None
    else if token[7..] in users then Some(users[token[7..]])
    else None
  }

  class Users {
    var users: UserTable

    constructor ()
      ensures users == map[] && Keyed(users)
    {
      users := map[];
    }

    /** An earlier error, or one of the factory, leaves the table alone. */
    method NewUser(id: Word, login: string, rights: seq<Group>, factoryError: Option<nat>, error: Option<nat>)
      returns (result: Option<nat>)
      requires Keyed(users)
      modifies this
      ensures Keyed(users)
      ensures result == if error.Some? then error else factoryError
      ensures users == if result.Some? then old(users) else old(users)[login := User(id, login, rights)]
    {
      if error.Some? {
        return error;
      }
      if factoryError.Some? {
        return factoryError;
      }
      users := users[login := User(id, login, rights)];
      return None;
    }

    method GetUser(id: Word) returns (user: Option<User>)
      ensures user.Some? ==> user.value in users.Values && user.value.id == id
      ensures user.None? ==> forall u | u in users.Values :: u.id != id
    {
      var rest := users.Keys;
      while rest != {}
        invariant rest <= users.Keys
        invariant forall login | login in users && login !in rest :: users[login].id != id
        decreases |rest|
      {
        var login :| login in rest;
        if users[login].id == id {
          return Some(users[login]);
        }
        rest := rest - {login};
      }
      return None;
    }
  }

  /** A token that Authenticate issued finds the user it was issued to, on every later request. */
  lemma TokenRoundTrip(users: UserTable, login: string)
    requires Keyed(users) && login in users
    ensures Authenticate(users, login).Some?
    ensures FindSession(users, Authenticate(users, login).value.1) == Some(users[login])
  {
    assert (TOKEN_PREFIX + login)[7..] == login;
  }

  /** A session is found for a token exactly when it is the one issued for some login. */
  lemma OnlyIssuedTokens(users: UserTable, token: string)
    requires Keyed(users)
    ensures FindSession(users, token).Some? <==>
              exists login :: login in users && Authenticate(users, login) == Some((users[login], token))
  {
    if FindSession(users, token).Some? {
      assert token == TOKEN_PREFIX + token[7..];
      assert Authenticate(users, token[7..]) == Some((users[token[7..]], token));
    }
    if login :| login in users && Authenticate(users, login) == Some((users[login], token)) {
      TokenRoundTrip(users, login);
    }
  }

  lemma DistinctTokens(users: UserTable, login: string, other: string)
    requires Keyed(users) && login in users && other in users && login != other
    ensures Authenticate(users, login).value.1 != Authenticate(users, other).value.1
  {
    assert (TOKEN_PREFIX + login)[7..] == login;
    assert (TOKEN_PREFIX + other)[7..] == other;
  }

  // ---------------------------------------------------------------- requests

  /** Whose memberships the access point asks; log and log reader are two objects. */
  datatype Service = Service(
    log: Group, logReader: Group, posts: Group, publisher: Group, users: UserTable, defaultUser: User)

  /** The user of a request by its "auth" metadata, None when there is no metadata at all. */
  function RequestUser(service: Service, auth: Option<seq<string>>): User {
    if auth.None? || |auth.value| != 1 then service.defaultUser
    else
      match FindSession(service.users, auth.value[0])
      case Some(user) => user
      case None => service.defaultUser
  }

  datatype AllowedMethods = AllowedMethods(readLog: bool, readPosts: bool, addVocal: bool)

  datatype Denial = PermissionDenied | ConversionFailed

  function CheckRights(membership: Group, user: User): Option<Denial> {
    if IsAllowed(membership, user.rights) then None else Some(PermissionDenied)
  }

  /** The metadata is one single token, the one that is issued for this login. */
  predicate IsTokenOf(auth: Option<seq<string>>, login: string) {
    auth == Some(["token: " + login])
  }

  /** Only an issued token, given alone, gets a request a user of its own. */
  lemma IssuedOrDefault(service: Service, auth: Option<seq<string>>)
    ensures forall login | login in service.users && IsTokenOf(auth, login) ::
              RequestUser(service, auth) == service.users[login]
    ensures (forall login | login in service.users :: !IsTokenOf(auth, login)) ==>
              RequestUser(service, auth) == service.defaultUser
  {
    forall login | login in service.users && IsTokenOf(auth, login)
      ensures RequestUser(service, auth) == service.users[login]
    {
      assert auth.value[0][7..] == login;
    }
    if auth.Some? && |auth.value| == 1 && FindSession(service.users, auth.value[0]).Some? {
      var token := auth.value[0];
      assert token == "token: " + token[7..] && auth.value == [token];
      assert IsTokenOf(auth, token[7..]);
    }
  }

  /** One request; Auth changes the user for the rest of it. */
  class Client {
    const service: Service
    var user: User

    /** The user of the one login whose token is the only value given, and otherwise the default user. */
    constructor (service: Service, auth: Option<seq<string>>)
      ensures this.service == service
      ensures forall login | login in service.users && IsTokenOf(auth, login) :: user == service.users[login]
      ensures (forall login | login in service.users :: !IsTokenOf(auth, login)) ==> user == service.defaultUser
    {
      IssuedOrDefault(service, auth);
      this.service := service;
      user := RequestUser(service, auth);
    }

    /** A wrong login leaves the user as it was. */
    method Auth(login: string) returns (token: Option<string>)
      modifies this
      ensures token.Some? <==> login in service.users
      ensures user == if login in service.users then service.users[login] else old(user)
      ensures token.Some? ==> token.value == TOKEN_PREFIX + service.users[login].login
    {
      match Authenticate(service.users, login) {
        case None =>
          return None;
        case Some(found) =>
          user := found.0;
          return Some(found.1);
      }
    }

    function GetAllowedMethods(): AllowedMethods
      reads this
    {
      AllowedMethods(IsAllowed(service.log, user.rights),
                     IsAllowed(service.posts, user.rights),
                     IsAllowed(service.publisher, user.rights))
    }

    /** The check ReadLog makes before it subscribes. */
    function ReadLogDenied(): Option<Denial>
      reads this
    {
      CheckRights(service.logReader, user)
    }

    function ReadPostsDenied(): Option<Denial>
      reads this
    {
      CheckRights(service.posts, user)
    }

    /** AddVocal converts first and asks for rights afterwards. */
    function AddVocalDenied(converts: bool): Option<Denial>
      reads this
    {
      if !converts then Some(ConversionFailed) else CheckRights(service.publisher, user)
    }

    /** The response to Auth: the token, and the flags of whoever the client is afterwards. */
    method ServeAuth(login: string) returns (token: Option<string>, allowed: AllowedMethods)
      modifies this
      ensures token.Some? <==> login in service.users
      ensures user == if login in service.users then service.users[login] else old(user)
      ensures token.Some? ==> token.value == TOKEN_PREFIX + service.users[login].login
      ensures allowed == GetAllowedMethods()
    {
      token := Auth(login);
      allowed := GetAllowedMethods();
    }
  }

  /**
   The flags are a prediction about later requests, made with the token of a login that is known and as
   before with one that is not: two of them always come true, and the one for the log because the log and
   its reader have one membership.
   */
  method AuthThenRequest(service: Service, auth: Option<seq<string>>, login: string)
    returns (client: Client, allowed: AllowedMethods)
    requires Keyed(service.users)
    ensures client.service == service
    ensures login in service.users ==> client.user == service.users[login]
    ensures login !in service.users ==> forall other | other in service.users && IsTokenOf(auth, other) ::
      client.user == service.users[other]
    ensures login !in service.users && (forall other | other in service.users :: !IsTokenOf(auth, other)) ==>
      client.user == service.defaultUser
    ensures allowed.readLog <==> IsAllowed(service.log, client.user.rights)
    ensures client.ReadLogDenied().None? <==> IsAllowed(service.logReader, client.user.rights)
    ensures service.log == service.logReader ==> (allowed.readLog <==> client.ReadLogDenied().None?)
    ensures client.ReadPostsDenied().None? <==> IsAllowed(service.posts, client.user.rights)
    ensures allowed.readPosts <==> client.ReadPostsDenied().None?
    ensures client.AddVocalDenied(true).None? <==> IsAllowed(service.publisher, client.user.rights)
    ensures allowed.addVocal <==> client.AddVocalDenied(true).None?
    ensures client.AddVocalDenied(false) == Some(ConversionFailed)
  {
    var first := new Client(service, auth);
    var token;
    token, allowed := first.ServeAuth(login);
    if token.Some? {
      TokenRoundTrip(service.users, login);
      client := new Client(service, Some([token.value]));
    } else {
      client := new Client(service, auth);
    }
  }

  /** A text that is neither the given one nor the wildcard. */
  lemma OtherText(text: string)
    ensures text + "x" != text && text + "x" != "*"
  {
    assert |text + "x"| == |text| + 1;
    assert (text + "x")[|text|] == 'x';
  }

  /** A right that tells two memberships apart by the names, the first of which is no wildcard. */
  lemma NamesTell(m: Group, n: Group) returns (right: Group)
    requires m.name != n.name && m.name != "*"
    ensures IsAllowed(m, [right]) != IsAllowed(n, [right])
  {
    OtherText(m.name);
    right := Group("*", if n.name == "*" then m.name + "x" else m.name);
    assert [right][0] == right;
  }

  lemma DomainsTell(m: Group, n: Group) returns (right: Group)
    requires m.domain != n.domain && m.domain != "*"
    ensures IsAllowed(m, [right]) != IsAllowed(n, [right])
  {
    OtherText(m.domain);
    right := Group(if n.domain == "*" then m.domain + "x" else m.domain, "*");
    assert [right][0] == right;
  }

  /** Equal memberships are also needed: any two different ones differ on somebody's rights. */
  lemma LogFlagPredictsExactlyWhen(log: Group, logReader: Group)
    ensures log == logReader <==>
              forall rights: seq<Group> :: IsAllowed(log, rights) == IsAllowed(logReader, rights)
  {
    if log != logReader {
      var right;
      if log.name != logReader.name {
        if log.name != "*" {
          right := NamesTell(log, logReader);
        } else {
          right := NamesTell(logReader, log);
        }
      } else if log.domain != "*" {
        right := DomainsTell(log, logReader);
      } else {
        right := DomainsTell(logReader, log);
      }
      assert IsAllowed(log, [right]) != IsAllowed(logReader, [right]);
    }
  }
}
