/** Identity bootstrap: loading an organization's identities from its
    key-value store, or registering and enrolling them with the CA. The CA
    is replaced by its answers; every request made to it is recorded. */
module FabricIdentity {
  import opened Common
  import opened FabricTopology

  datatype User = User(username: string, mspId: string, privateKey: string, signedCert: string,
                       enrolled: bool, enrollmentSecret: Option<string>)

  /** The persisted identities: per key-value store directory, per user name. */
  type UserStore = map<string, map<string, User>>

  /** The CA's answer to an enroll request: key and certificate, a bare text
      (the CA client resolves with a string on some failures), or a rejection. */
  datatype EnrollAnswer = Enrolled(key: string, certificate: string) | EnrollText(text: string) | EnrollRejected

  datatype CaCall =
    | Register(enrollmentId: string, affiliation: string, registrar: string)
    | Enroll(enrollmentId: string, secret: string)

  /** The CA's answers during one call: to the admin enrollment, to the
      registration (an enrollment secret, or a rejection), to the user's
      enrollment. */
  datatype CaAnswers = CaAnswers(adminEnroll: EnrollAnswer, register: Option<string>, userEnroll: EnrollAnswer)

  /** What a lookup yields, the store afterwards, and the CA requests made. */
  datatype Lookup<T> = Lookup(outcome: Outcome<T>, store: UserStore, calls: seq<CaCall>)

  /** A registered user, or the CA's error text handed back unchanged. */
  datatype Member = UserMember(user: User) | EnrollErrorText(message: string)

  const AdminName := "admin"
  const AdminSecret := "adminpw"
  const ErrorMarker := "Error:"

  function Loaded(store: UserStore, path: string, username: string): Option<User> {
    if path in store && username in store[path] then Some(store[path][username]) else None
  }

  /** `setUserContext`: the user becomes the store's entry for its name. */
  function Persist(store: UserStore, path: string, user: User): UserStore {
    store[path := (if path in store then store[path] else map[])[user.username := user]]
  }

  function UserStorePath(network: Network, org: string, keyValueStore: string): string
    requires HasOrg(network, org)
  {
    GetKeyStoreForOrg(keyValueStore, GetOrgName(network, org))
  }

  predicate EnrolledIn(store: UserStore, path: string, username: string) {
    var u := Loaded(store, path, username); u.Some? && u.value.enrolled
  }

  /** The affiliation every application user is registered under. */
  function Affiliation(org: string): string {
    org + ".department1"
  }

  lemma AffiliationInjective(org1: string, org2: string)
    requires Affiliation(org1) == Affiliation(org2)
    ensures org1 == org2
  {
    assert org1 == Affiliation(org1)[..|org1|];
    assert org2 == Affiliation(org2)[..|org2|];
  }

  /** `getOrgAdmin`: the file-derived administrator identity of an
      organization, built from the key and certificate read from disk. */
  function OrgAdminUser(network: Network, org: string, keyPEM: string, certPEM: string): (u: User)
    requires HasOrg(network, org)
    ensures u.mspId == network[org].mspid && u.privateKey == keyPEM && u.signedCert == certPEM
    ensures StartsWith(u.username, "peer") && u.username[4..] == org + "Admin"
  {
    User("peer" + org + "Admin", GetMspID(network, org), keyPEM, certPEM, true, None)
  }

  /** Distinct organizations get distinct administrator names. */
  lemma OrgAdminNameInjective(network: Network, org1: string, org2: string, key: string, cert: string)
    requires HasOrg(network, org1) && HasOrg(network, org2)
    requires OrgAdminUser(network, org1, key, cert).username == OrgAdminUser(network, org2, key, cert).username
    ensures org1 == org2
  {
    var a := OrgAdminUser(network, org1, key, cert).username[4..];
    assert a[..|a| - 5] == org1;
    assert a[..|a| - 5] == org2;
  }

  /** `getAdminUser`: the stored, enrolled `admin` when there is one (no CA
      request); otherwise one enroll request with the bootstrap secret,
      whose key and certificate become the persisted `admin`. */
  function GetAdminUser(store: UserStore, network: Network, org: string, keyValueStore: string,
                        ca: CaAnswers): (r: Lookup<User>)
    requires HasOrg(network, org)
    ensures var path := UserStorePath(network, org, keyValueStore);
      && (EnrolledIn(store, path, AdminName) ==> r == Lookup(Returned(Loaded(store, path, AdminName).value), store, []))
      && (!EnrolledIn(store, path, AdminName) ==> r.calls == [Enroll(AdminName, AdminSecret)])
      && (!EnrolledIn(store, path, AdminName) ==>
            && (r.outcome.Returned? <==> ca.adminEnroll.Enrolled?)
            && (ca.adminEnroll.Enrolled? ==>
                  r.outcome.value == User(AdminName, GetMspID(network, org), ca.adminEnroll.key,
                                          ca.adminEnroll.certificate, true, None)))
      && !r.outcome.Waiting?
      && (r.outcome.Returned? ==> r.outcome.value.enrolled && Loaded(r.store, path, AdminName) == Some(r.outcome.value))
      && (!r.outcome.Returned? ==> r.store == store)
      && (forall p, n :: p != path || n != AdminName ==> Loaded(r.store, p, n) == Loaded(store, p, n))
  {
    var path := UserStorePath(network, org, keyValueStore);
    var stored := Loaded(store, path, AdminName);
    if stored.Some? && stored.value.enrolled then
      Lookup(Returned(stored.value), store, [])
    else
      var calls := [Enroll(AdminName, AdminSecret)];
      match ca.adminEnroll
      case Enrolled(key, certificate) =>
        var member := User(AdminName, GetMspID(network, org), key, certificate, true, None);
        Lookup(Returned(member), Persist(store, path, member), calls)
      case EnrollText(_) => Lookup(Threw("setEnrollment: invalid private key"), store, calls)
      case EnrollRejected => Lookup(Threw("enroll rejected"), store, calls)
  }

  /** `getRegisteredUsers`: the fast path returns a stored, enrolled user
      without contacting the CA; otherwise the user is registered under
      `org.department1` by `admin` and enrolled with the secret obtained. */
  function GetRegisteredUsers(store: UserStore, network: Network, org: string, keyValueStore: string,
                              username: string, ca: CaAnswers): (r: Lookup<Member>)
    requires HasOrg(network, org)
    ensures var path := UserStorePath(network, org, keyValueStore);
      && (EnrolledIn(store, path, username) ==>
            r == Lookup(Returned(UserMember(Loaded(store, path, username).value)), store, []))
      && (r.outcome.Returned? && r.outcome.value.UserMember? ==>
            r.outcome.value.user.enrolled && Loaded(r.store, path, username) == Some(r.outcome.value.user))
      && (r.outcome.Returned? && r.outcome.value.EnrollErrorText? ==>
            ca.userEnroll == EnrollText(r.outcome.value.message) && Contains(r.outcome.value.message, ErrorMarker)
            && (username != AdminName ==> Loaded(r.store, path, username) == Loaded(store, path, username)))
      && (forall c :: c in r.calls && c.Register? ==> c.enrollmentId == username && c.affiliation == Affiliation(org))
      && !r.outcome.Waiting?
      // A user not yet enrolled goes through the administrator, then
      // registration, then enrollment with the secret registration gave.
      && (!EnrolledIn(store, path, username) ==>
            var admin := GetAdminUser(store, network, org, keyValueStore, ca);
            && (!admin.outcome.Returned? ==> r.outcome.Threw? && r.store == admin.store && r.calls == admin.calls)
            && (admin.outcome.Returned? ==>
                  var register := Register(username, Affiliation(org), admin.outcome.value.username);
                  && (ca.register.None? ==> r.outcome.Threw? && r.store == admin.store && r.calls == admin.calls + [register])
                  && (ca.register.Some? ==> r.calls == admin.calls + [register, Enroll(username, ca.register.value)])
                  && (ca.register.Some? && ca.userEnroll.Enrolled? ==>
                        r.outcome == Returned(UserMember(User(username, GetMspID(network, org), ca.userEnroll.key,
                                                              ca.userEnroll.certificate, true, ca.register))))
                  && (ca.register.Some? && ca.userEnroll.EnrollText? && Contains(ca.userEnroll.text, ErrorMarker) ==>
                        r.outcome == Returned(EnrollErrorText(ca.userEnroll.text)))
                  && (ca.register.Some? && !ca.userEnroll.Enrolled? &&
                      !(ca.userEnroll.EnrollText? && Contains(ca.userEnroll.text, ErrorMarker)) ==>
                        r.outcome.Threw? && r.store == admin.store)))
      && (forall p, n :: (p != path || (n != AdminName && n != username)) ==> Loaded(r.store, p, n) == Loaded(store, p, n))
  {
    var path := UserStorePath(network, org, keyValueStore);
    var stored := Loaded(store, path, username);
    if stored.Some? && stored.value.enrolled then
      Lookup(Returned(UserMember(stored.value)), store, [])
    else
      var admin := GetAdminUser(store, network, org, keyValueStore, ca);
      if !admin.outcome.Returned? then
        Lookup(Threw("admin enrollment failed"), admin.store, admin.calls)
      else
        var registered := admin.calls + [Register(username, Affiliation(org), admin.outcome.value.username)];
        match ca.register
        case None => Lookup(Threw("register rejected"), admin.store, registered)
        case Some(secret) =>
          var calls := registered + [Enroll(username, secret)];
          match ca.userEnroll
          case EnrollText(text) =>
            if Contains(text, ErrorMarker) then Lookup(Returned(EnrollErrorText(text)), admin.store, calls)
            else Lookup(Threw("setEnrollment: invalid private key"), admin.store, calls)
          case EnrollRejected => Lookup(Threw("enroll rejected"), admin.store, calls)
          case Enrolled(key, certificate) =>
            var member := User(username, GetMspID(network, org), key, certificate, true, Some(secret));
            Lookup(Returned(UserMember(member)), Persist(admin.store, path, member), calls)
  }

  /** Identity load is idempotent: once a call has produced a user, a second
      call finds it in the store and returns it again, with no CA request
      and no change to the store, whatever the CA would answer. */
  lemma RegisteredUserIdempotent(store: UserStore, network: Network, org: string, keyValueStore: string,
                                 username: string, first: CaAnswers, second: CaAnswers)
    requires HasOrg(network, org)
    requires GetRegisteredUsers(store, network, org, keyValueStore, username, first).outcome.Returned?
    requires GetRegisteredUsers(store, network, org, keyValueStore, username, first).outcome.value.UserMember?
    ensures var r1 := GetRegisteredUsers(store, network, org, keyValueStore, username, first);
      GetRegisteredUsers(r1.store, network, org, keyValueStore, username, second) == Lookup(r1.outcome, r1.store, [])
  {
    var r1 := GetRegisteredUsers(store, network, org, keyValueStore, username, first);
    assert EnrolledIn(r1.store, UserStorePath(network, org, keyValueStore), username);
  }
}
